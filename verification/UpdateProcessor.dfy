/** Ordering of incoming updates: one handler at a time for each topic, in the order in
    which the topic's updates were registered, and no second handling of an update whose
    completion is on record. */
module UpdateProcessor {
  import opened Basics

  // --- Which updates belong together ---

  /** What an update carries; `ident` identifies the update object itself. */
  datatype Update = Update(chat: Option<int>, thread: Option<int>, user: Option<int>, id: Option<int>, ident: nat)

  datatype TopicKey = Chat(chat: int, thread: int) | User(user: int) | Single(id: int) | Object(ident: nat)

  function UpdateTopicKey(u: Update): TopicKey {
    if u.chat.Some? then Chat(u.chat.value, if u.thread.Some? then u.thread.value else 0)
    else if u.user.Some? then User(u.user.value)
    else if u.id.Some? then Single(u.id.value)
    else Object(u.ident)
  }

  predicate SameThread(a: Option<int>, b: Option<int>) {
    a == b || (a.None? && b == Some(0)) || (a == Some(0) && b.None?)
  }

  /** Which updates are handled one at a time: in a chat those of one chat and thread, no
      thread counting as thread 0; outside chats those of one user, without a user those
      with one id, and without that the very same object. */
  lemma SameTopic(u: Update, v: Update)
    ensures UpdateTopicKey(u) == UpdateTopicKey(v) <==>
              && u.chat == v.chat
              && (if u.chat.Some? then SameThread(u.thread, v.thread)
                  else
                    && u.user == v.user
                    && (u.user.None? ==> u.id == v.id && (u.id.None? ==> u.ident == v.ident)))
  {
  }

  // --- The durable claims ---

  datatype Claim = InFlight | Completed

  type Claims = map<int, Claim>

  function Complete(c: Claims, id: int): Claims {
    if id in c then c[id := Completed] else c
  }

  function Abandon(c: Claims, id: int): Claims {
    if id in c && c[id].InFlight? then c - {id} else c
  }

  /** Startup: interrupted claims are dropped, and so are the completed ones in `old`,
      those past their retention time. */
  function Restarted(c: Claims, expired: set<int>): Claims {
    map id | id in c && c[id].Completed? && id !in expired :: c[id]
  }

  class UpdateStore {
    var rows: Claims

    constructor ()
      ensures rows == map[]
    {
      rows := map[];
    }

    method ClaimUpdate(id: int) returns (claimed: bool)
      modifies this
      ensures claimed <==> id !in old(rows)
      ensures rows == if claimed then old(rows)[id := InFlight] else old(rows)
    {
      claimed := id !in rows;
      if claimed {
        rows := rows[id := InFlight];
      }
    }

    method CompleteUpdate(id: int)
      modifies this
      ensures rows == Complete(old(rows), id)
      ensures forall i :: i in rows <==> i in old(rows)
      ensures forall i :: i in rows ==> rows[i] == if i == id then Completed else old(rows)[i]
    {
      if id in rows {
        rows := rows[id := Completed];
      }
    }

    method AbandonUpdate(id: int)
      modifies this
      ensures rows == Abandon(old(rows), id)
      ensures forall i :: i in rows <==> i in old(rows) && !(i == id && old(rows)[i].InFlight?)
      ensures forall i :: i in rows ==> rows[i] == old(rows)[i]
    {
      if id in rows && rows[id].InFlight? {
        rows := rows - {id};
      }
    }

    method Initialize(resetInFlight: bool, expired: set<int>)
      modifies this
      ensures resetInFlight ==> rows == Restarted(old(rows), expired)
      ensures forall i ::
                i in rows
                <==> (i in old(rows) && if old(rows)[i].Completed? then i !in expired else !resetInFlight)
      ensures forall i :: i in rows ==> rows[i] == old(rows)[i]
    {
      if resetInFlight {
        rows := map id | id in rows && rows[id].Completed? :: rows[id];
      }
      rows := map id | id in rows && !(rows[id].Completed? && id in expired) :: rows[id];
    }
  }

  // --- Lock entries, created and dropped by reference count ---

  /** `locks` and `users` are the two dictionaries; `nextLock` names the next lock object. */
  datatype Registry = Registry(locks: map<TopicKey, nat>, users: map<TopicKey, nat>, nextLock: nat)

  function Entered(r: Registry, key: TopicKey): Registry {
    Registry(if key in r.locks then r.locks else r.locks[key := r.nextLock],
             r.users[key := (if key in r.users then r.users[key] else 0) + 1],
             if key in r.locks then r.nextLock else r.nextLock + 1)
  }

  function Left(r: Registry, key: TopicKey): Registry {
    var users := if key in r.users then r.users[key] else 1;
    if users <= 1 then r.(users := r.users - {key}, locks := r.locks - {key})
    else r.(users := r.users[key := users - 1])
  }

  /** The maps agree about every other topic. */
  ghost predicate SameOthers(m: map<TopicKey, nat>, n: map<TopicKey, nat>, key: TopicKey) {
    forall k :: k != key ==> (k in m <==> k in n) && (k in m ==> m[k] == n[k])
  }

  class TopicLocks {
    var topicLocks: map<TopicKey, nat>
    var topicUsers: map<TopicKey, nat>
    var nextLock: nat

    ghost function Contents(): Registry
      reads this
    {
      Registry(topicLocks, topicUsers, nextLock)
    }

    constructor ()
      ensures Contents() == Registry(map[], map[], 0)
    {
      topicLocks, topicUsers, nextLock := map[], map[], 0;
    }

    method Enter(key: TopicKey) returns (lockId: nat)
      modifies this
      ensures Contents() == Entered(old(Contents()), key)
      ensures key in topicLocks && lockId == topicLocks[key]
      ensures lockId == if key in old(topicLocks) then old(topicLocks)[key] else old(nextLock)
      ensures key in topicUsers
      ensures topicUsers[key] == if key in old(topicUsers) then old(topicUsers)[key] + 1 else 1
      ensures nextLock == if key in old(topicLocks) then old(nextLock) else old(nextLock) + 1
      ensures SameOthers(topicLocks, old(topicLocks), key) && SameOthers(topicUsers, old(topicUsers), key)
    {
      if key !in topicLocks {
        topicLocks := topicLocks[key := nextLock];
        nextLock := nextLock + 1;
      }
      topicUsers := topicUsers[key := (if key in topicUsers then topicUsers[key] else 0) + 1];
      lockId := topicLocks[key];
    }

    method Leave(key: TopicKey)
      modifies this
      ensures Contents() == Left(old(Contents()), key)
      ensures key in old(topicUsers) && old(topicUsers)[key] > 1 ==>
                && key in topicUsers && topicUsers[key] == old(topicUsers)[key] - 1
                && topicLocks == old(topicLocks)
      ensures key !in old(topicUsers) || old(topicUsers)[key] <= 1 ==> key !in topicUsers && key !in topicLocks
      ensures nextLock == old(nextLock)
      ensures SameOthers(topicLocks, old(topicLocks), key) && SameOthers(topicUsers, old(topicUsers), key)
    {
      var users := if key in topicUsers then topicUsers[key] else 1;
      if users <= 1 {
        topicUsers := topicUsers - {key};
        topicLocks := topicLocks - {key};
      } else {
        topicUsers := topicUsers[key := users - 1];
      }
    }
  }

  // --- Every interleaving of update tasks ---

  /** A registered update. `number` counts registrations; `claim` is the id it claimed. */
  datatype Task = Task(key: TopicKey, id: Option<int>, lockId: nat, claim: Option<int>)

  /** Tasks are named by their registration number. A lock has at most one holder and
      hands over to its longest waiter. */
  datatype LockState = LockState(holder: Option<nat>, waiters: seq<nat>)

  datatype Started = Started(task: nat, key: TopicKey, id: Option<int>)

  datatype State = State(
    registry: Registry,
    tasks: map<nat, Task>,
    nextTask: nat,
    lockStates: map<nat, LockState>,
    claims: Claims,
    started: seq<Started>)   // history: handlers in the order they started

  /** `fault` is a store error: the update is then handled without a claim, or the
      outcome is not recorded. The code between two awaits is one event: registering
      and queueing for the lock; getting the lock and claiming; ending and leaving. */
  datatype Event =
    | Arrive(key: TopicKey, id: Option<int>, fault: bool)
    | Obtain(task: nat, fault: bool)
    | Finish(task: nat, success: bool, fault: bool)
    | Cancel(task: nat)
    | Restart(expired: set<int>)

  ghost function LockOf(s: State, lockId: nat): LockState {
    if lockId in s.lockStates then s.lockStates[lockId] else LockState(None, [])
  }

  /** `task` gives its lock back, if it has it, and drops its reference to the entry. */
  ghost function Departed(s: State, task: nat): State
    requires task in s.tasks
  {
    var t := s.tasks[task];
    var l := LockOf(s, t.lockId);
    s.(tasks := s.tasks - {task},
       lockStates := s.lockStates[t.lockId :=
         LockState(if l.holder == Some(task) then None else l.holder, Without(l.waiters, task))],
       registry := Left(s.registry, t.key))
  }

  ghost function Without(waiters: seq<nat>, task: nat): seq<nat> {
    if waiters == [] then []
    else if waiters[0] == task then waiters[1..]
    else [waiters[0]] + Without(waiters[1..], task)
  }

  /** `task` has just got its lock: it claims its update and starts the handler, or
      leaves when the update is on record already. */
  ghost function Admitted(s: State, task: nat, fault: bool): State
    requires task in s.tasks
  {
    var t := s.tasks[task];
    var begun := s.(started := s.started + [Started(task, t.key, t.id)]);
    if t.id.None? || fault then begun
    else if t.id.value in s.claims then Departed(s, task)
    else begun.(claims := s.claims[t.id.value := InFlight], tasks := s.tasks[task := t.(claim := t.id)])
  }

  ghost function Held(s: State, task: nat): State
    requires task in s.tasks
  {
    var t := s.tasks[task];
    s.(lockStates := s.lockStates[t.lockId := LockState(Some(task), Without(LockOf(s, t.lockId).waiters, task))])
  }

  ghost function Waiting(s: State, task: nat): State
    requires task in s.tasks
  {
    var t := s.tasks[task];
    var l := LockOf(s, t.lockId);
    s.(lockStates := s.lockStates[t.lockId := l.(waiters := l.waiters + [task])])
  }

  ghost function Registered(s: State, key: TopicKey, id: Option<int>): State {
    var registry := Entered(s.registry, key);
    s.(registry := registry,
       tasks := s.tasks[s.nextTask := Task(key, id, registry.locks[key], None)],
       nextTask := s.nextTask + 1)
  }

  ghost function Arrived(s: State, key: TopicKey, id: Option<int>, fault: bool): State {
    var n := Registered(s, key, id);
    if LockOf(n, n.tasks[s.nextTask].lockId) == LockState(None, [])
    then Admitted(Held(n, s.nextTask), s.nextTask, fault)
    else Waiting(n, s.nextTask)
  }

  ghost function Settled(s: State, task: nat, success: bool, fault: bool): State
    requires task in s.tasks
  {
    var claim := s.tasks[task].claim;
    if claim.None? || fault then s
    else s.(claims := if success then Complete(s.claims, claim.value) else Abandon(s.claims, claim.value))
  }

  ghost predicate Enabled(s: State, e: Event) {
    match e
    case Arrive(key, id, fault) => true
    case Obtain(task, fault) =>
      task in s.tasks
      && var l := LockOf(s, s.tasks[task].lockId); l.holder.None? && l.waiters != [] && l.waiters[0] == task
    case Finish(task, success, fault) => task in s.tasks && LockOf(s, s.tasks[task].lockId).holder == Some(task)
    case Cancel(task) => task in s.tasks && LockOf(s, s.tasks[task].lockId).holder != Some(task)
    case Restart(expired) => true
  }

  ghost function Step(s: State, e: Event): State
    requires Enabled(s, e)
  {
    match e
    case Arrive(key, id, fault) => Arrived(s, key, id, fault)
    case Obtain(task, fault) => Admitted(Held(s, task), task, fault)
    case Finish(task, success, fault) => Departed(Settled(s, task, success, fault), task)
    case Cancel(task) => Departed(s, task)
    case Restart(expired) =>
      State(Registry(map[], map[], s.registry.nextLock), map[], s.nextTask, map[],
            Restarted(s.claims, expired), s.started)
  }

  ghost function Initial(): State {
    State(Registry(map[], map[], 0), map[], 0, map[], map[], [])
  }

  ghost predicate Run(states: seq<State>, events: seq<Event>) {
    && |states| == |events| + 1
    && states[0] == Initial()
    && forall i :: 0 <= i < |events| ==> Enabled(states[i], events[i]) && states[i + 1] == Step(states[i], events[i])
  }

  // --- What every step keeps ---

  ghost function InTopic(tasks: map<nat, Task>, key: TopicKey): set<nat> {
    set t | t in tasks && tasks[t].key == key
  }

  /** An entry exists exactly while a task of its topic does, and counts those tasks. */
  ghost predicate EntryOk(r: Registry, tasks: map<nat, Task>, key: TopicKey) {
    && (key in r.locks <==> key in r.users)
    && (key in r.users <==> InTopic(tasks, key) != {})
    && (key in r.users ==> r.users[key] == |InTopic(tasks, key)|)
  }

  /** Every task refers to the lock of its topic's entry. */
  ghost predicate RefsOk(r: Registry, tasks: map<nat, Task>) {
    forall t :: t in tasks ==> tasks[t].key in r.locks && tasks[t].lockId == r.locks[tasks[t].key]
  }

  /** No two topics share a lock, and the next lock is a new one. */
  ghost predicate LocksDistinct(r: Registry) {
    && (forall key :: key in r.locks ==> r.locks[key] < r.nextLock)
    && (forall a, b :: a in r.locks && b in r.locks && r.locks[a] == r.locks[b] ==> a == b)
  }

  ghost predicate EntriesOk(r: Registry, tasks: map<nat, Task>) {
    && (forall key :: EntryOk(r, tasks, key))
    && RefsOk(r, tasks)
    && LocksDistinct(r)
  }

  /** Nothing of the topic that has started was registered after `task`. */
  ghost predicate Ascending(q: seq<nat>) {
    forall i, j :: 0 <= i < j < |q| ==> q[i] < q[j]
  }

  ghost predicate Behind(started: seq<Started>, key: TopicKey, task: nat) {
    forall i :: 0 <= i < |started| && started[i].key == key ==> started[i].task < task
  }

  ghost predicate WaiterOk(tasks: map<nat, Task>, started: seq<Started>, lockId: nat, task: nat) {
    && task in tasks && tasks[task].lockId == lockId && tasks[task].claim.None?
    && Behind(started, tasks[task].key, task)
  }

  /** Waiters stand in registration order, behind everything of their topic that has
      started; holder and waiters are tasks that refer to this lock. */
  ghost predicate LockOk(tasks: map<nat, Task>, started: seq<Started>, lockId: nat, l: LockState) {
    && Ascending(l.waiters)
    && (forall t :: t in l.waiters ==> WaiterOk(tasks, started, lockId, t))
    && (l.holder.Some? ==>
          l.holder.value in tasks && tasks[l.holder.value].lockId == lockId && l.holder.value !in l.waiters)
  }

  ghost predicate LocksOk(tasks: map<nat, Task>, started: seq<Started>, lockStates: map<nat, LockState>) {
    forall l :: l in lockStates ==> LockOk(tasks, started, l, lockStates[l])
  }

  ghost predicate InLine(task: nat, l: LockState) {
    l.holder == Some(task) || task in l.waiters
  }

  /** Every task holds its lock or waits for it. */
  ghost predicate PlacesOk(tasks: map<nat, Task>, lockStates: map<nat, LockState>) {
    forall t :: t in tasks ==> tasks[t].lockId in lockStates && InLine(t, lockStates[tasks[t].lockId])
  }

  ghost predicate NumbersOk(tasks: map<nat, Task>, nextTask: nat, started: seq<Started>) {
    && (forall t :: t in tasks ==> t < nextTask)
    && (forall i :: 0 <= i < |started| ==> started[i].task < nextTask)
  }

  ghost predicate StartsInOrder(started: seq<Started>) {
    forall i, j :: 0 <= i < j < |started| && started[i].key == started[j].key ==> started[i].task < started[j].task
  }

  ghost predicate ClaimOk(claims: Claims, t: Task) {
    t.claim.Some? ==> t.claim.value in claims && claims[t.claim.value].InFlight?
  }

  /** A claimed update is on record as in flight, and only one task has claimed it. */
  ghost predicate ClaimsOk(tasks: map<nat, Task>, claims: Claims) {
    && (forall t :: t in tasks ==> ClaimOk(claims, tasks[t]))
    && (forall t, u :: t in tasks && u in tasks && tasks[t].claim.Some? && tasks[t].claim == tasks[u].claim ==> t == u)
  }

  ghost predicate Inv(s: State) {
    && EntriesOk(s.registry, s.tasks)
    && LocksOk(s.tasks, s.started, s.lockStates)
    && PlacesOk(s.tasks, s.lockStates)
    && NumbersOk(s.tasks, s.nextTask, s.started)
    && StartsInOrder(s.started)
    && ClaimsOk(s.tasks, s.claims)
  }

  ghost predicate Running(s: State, task: nat) {
    task in s.tasks && LockOf(s, s.tasks[task].lockId).holder == Some(task)
  }

  /** `task` holds its lock and is next in the order of its topic. */
  ghost predicate Ready(s: State, task: nat) {
    && Running(s, task)
    && s.tasks[task].claim.None?
    && Behind(s.started, s.tasks[task].key, task)
    && (forall t :: t in LockOf(s, s.tasks[task].lockId).waiters ==> task < t)
  }

  // --- Entries ---

  lemma EntryAdded(r: Registry, tasks: map<nat, Task>, task: nat, t: Task, k: TopicKey)
    requires EntryOk(r, tasks, k) && task !in tasks
    ensures EntryOk(Entered(r, t.key), tasks[task := t], k)
  {
    assert InTopic(tasks[task := t], k) == if t.key == k then InTopic(tasks, k) + {task} else InTopic(tasks, k);
    assert task !in InTopic(tasks, k);
  }

  lemma EntriesAdded(r: Registry, tasks: map<nat, Task>, task: nat, key: TopicKey, id: Option<int>)
    requires EntriesOk(r, tasks) && task !in tasks
    ensures var n := Entered(r, key); EntriesOk(n, tasks[task := Task(key, id, n.locks[key], None)])
  {
    hide EntryOk;
    var n, t := Entered(r, key), Task(key, id, Entered(r, key).locks[key], None);
    var after := tasks[task := t];
    forall k ensures EntryOk(n, after, k) {
      EntryAdded(r, tasks, task, t, k);
    }
  }

  lemma EntryRemoved(r: Registry, tasks: map<nat, Task>, task: nat, k: TopicKey)
    requires EntryOk(r, tasks, k) && task in tasks
    ensures EntryOk(Left(r, tasks[task].key), tasks - {task}, k)
  {
    var key := tasks[task].key;
    var before, after := InTopic(tasks, k), InTopic(tasks - {task}, k);
    assert after == if key == k then before - {task} else before;
    if key == k {
      assert task in before && |after| == |before| - 1;
      assert |after| == 0 <==> after == {};
    }
  }

  lemma RemainingKeepEntry(r: Registry, tasks: map<nat, Task>, task: nat, u: nat)
    requires task in tasks && u in tasks && u != task && tasks[u].key == tasks[task].key
    requires EntryOk(r, tasks, tasks[task].key)
    ensures tasks[task].key in r.users && r.users[tasks[task].key] > 1
  {
    var key := tasks[task].key;
    assert {task, u} <= InTopic(tasks, key);
    var rest := InTopic(tasks, key) - {task, u};
    assert InTopic(tasks, key) == rest + {task, u};
    assert |{task, u}| == 2;
  }

  lemma EntriesRemoved(r: Registry, tasks: map<nat, Task>, task: nat)
    requires EntriesOk(r, tasks) && task in tasks
    ensures EntriesOk(Left(r, tasks[task].key), tasks - {task})
  {
    hide EntryOk;
    var n, after := Left(r, tasks[task].key), tasks - {task};
    forall k ensures EntryOk(n, after, k) {
      EntryRemoved(r, tasks, task, k);
    }
    forall u | u in tasks && u != task && tasks[u].key == tasks[task].key
      ensures tasks[task].key in r.users && r.users[tasks[task].key] > 1
    {
      EntryInUse(r, tasks, task);
      RemainingKeepEntry(r, tasks, task, u);
    }
  }

  lemma EntryInUse(r: Registry, tasks: map<nat, Task>, task: nat)
    requires task in tasks && EntryOk(r, tasks, tasks[task].key)
    ensures tasks[task].key in r.users && tasks[task].key in r.locks
  {
    assert task in InTopic(tasks, tasks[task].key);
  }

  lemma EntryTouched(r: Registry, tasks: map<nat, Task>, task: nat, t: Task)
    requires EntriesOk(r, tasks) && task in tasks && t.key == tasks[task].key && t.lockId == tasks[task].lockId
    ensures EntriesOk(r, tasks[task := t])
  {
    var after := tasks[task := t];
    forall k ensures EntryOk(r, after, k) {
      assert InTopic(after, k) == InTopic(tasks, k);
      assert EntryOk(r, tasks, k);
    }
  }

  /** Tasks that refer to one lock are of one topic. */
  lemma SameLockSameKey(r: Registry, tasks: map<nat, Task>, t: nat, u: nat)
    requires EntriesOk(r, tasks) && t in tasks && u in tasks
    ensures tasks[t].lockId == tasks[u].lockId <==> tasks[t].key == tasks[u].key
  {
    hide EntryOk;
  }

  // --- Locks ---

  lemma {:induction false} WithoutIs(q: seq<nat>, task: nat)
    requires Ascending(q)
    ensures Ascending(Without(q, task))
    ensures forall t :: t in Without(q, task) <==> t in q && t != task
  {
    if q != [] {
      var tail := q[1..];
      assert forall t :: t in q <==> t == q[0] || t in tail;
      forall t | t in tail ensures q[0] < t {
        var k :| 0 <= k < |tail| && tail[k] == t;
      }
      WithoutIs(tail, task);
      if q[0] != task {
        var rest := Without(tail, task);
        forall k | 0 <= k < |rest| ensures q[0] < rest[k] {
          assert rest[k] in rest;
        }
      }
    }
  }

  lemma Appended(q: seq<nat>, task: nat)
    requires Ascending(q) && forall t :: t in q ==> t < task
    ensures Ascending(q + [task])
    ensures forall t :: t in q + [task] <==> t in q || t == task
  {
    assert forall k :: 0 <= k < |q| ==> q[k] in q;
  }

  /** A change at one lock leaves the others alone: their tasks are as before, and no
      handler of their topics has started. */
  lemma LocksUpdated(tasks: map<nat, Task>, started: seq<Started>, lockStates: map<nat, LockState>,
                     newTasks: map<nat, Task>, newStarted: seq<Started>, lockId: nat, l: LockState)
    requires LocksOk(tasks, started, lockStates)
    requires forall t :: t in tasks && tasks[t].lockId != lockId ==> t in newTasks && newTasks[t] == tasks[t]
    requires forall t :: t in tasks && tasks[t].lockId != lockId && Behind(started, tasks[t].key, t) ==>
                           Behind(newStarted, tasks[t].key, t)
    requires LockOk(newTasks, newStarted, lockId, l)
    ensures LocksOk(newTasks, newStarted, lockStates[lockId := l])
  {
    hide Behind, Ascending;
    forall k | k in lockStates && k != lockId ensures LockOk(newTasks, newStarted, k, lockStates[k]) {
      assert LockOk(tasks, started, k, lockStates[k]);
      forall t | t in lockStates[k].waiters ensures WaiterOk(newTasks, newStarted, k, t) {
        assert WaiterOk(tasks, started, k, t);
      }
    }
  }

  lemma PlacesUpdated(tasks: map<nat, Task>, lockStates: map<nat, LockState>,
                      newTasks: map<nat, Task>, lockId: nat, l: LockState)
    requires PlacesOk(tasks, lockStates)
    requires forall t :: t in newTasks && newTasks[t].lockId != lockId ==> t in tasks && newTasks[t] == tasks[t]
    requires forall t :: t in newTasks && newTasks[t].lockId == lockId ==> InLine(t, l)
    ensures PlacesOk(newTasks, lockStates[lockId := l])
  {
    hide InLine;
  }

  lemma LockOfOk(s: State, lockId: nat)
    requires LocksOk(s.tasks, s.started, s.lockStates)
    ensures LockOk(s.tasks, s.started, lockId, LockOf(s, lockId))
  {
  }

  // --- Steps ---

  lemma DepartedInv(s: State, task: nat)
    requires Inv(s) && task in s.tasks
    ensures Inv(Departed(s, task))
  {
    EntriesRemoved(s.registry, s.tasks, task);
    DepartedLines(s, task);
    hide EntriesOk, Left, StartsInOrder, LocksOk, PlacesOk, LockOf, Without, ClaimOk;
  }

  lemma DepartedLines(s: State, task: nat)
    requires LocksOk(s.tasks, s.started, s.lockStates) && PlacesOk(s.tasks, s.lockStates) && task in s.tasks
    ensures var n := Departed(s, task); LocksOk(n.tasks, n.started, n.lockStates) && PlacesOk(n.tasks, n.lockStates)
  {
    var lockId := s.tasks[task].lockId;
    var n, l := Departed(s, task), LockOf(s, lockId);
    LockOfOk(s, lockId);
    WithoutIs(l.waiters, task);
    hide Left, Without, Ascending, Behind;
    var m := n.lockStates[lockId];
    assert LockOk(n.tasks, n.started, lockId, m) by {
      assert forall t :: t in m.waiters ==> WaiterOk(s.tasks, s.started, lockId, t) && t != task;
    }
    LocksUpdated(s.tasks, s.started, s.lockStates, n.tasks, n.started, lockId, m);
    PlacesUpdated(s.tasks, s.lockStates, n.tasks, lockId, m);
  }

  lemma HeldReady(s: State, task: nat)
    requires Inv(s) && Enabled(s, Obtain(task, false))
    ensures Inv(Held(s, task)) && Ready(Held(s, task), task)
  {
    var lockId := s.tasks[task].lockId;
    var n, l := Held(s, task), LockOf(s, lockId);
    LockOfOk(s, lockId);
    WithoutIs(l.waiters, task);
    assert l.waiters[0] == task && task in l.waiters;
    assert forall w :: w in l.waiters && w != task ==> task < w;
    assert WaiterOk(s.tasks, s.started, lockId, task);
    hide EntriesOk, StartsInOrder, ClaimsOk, Without, Ascending, Behind, NumbersOk;
    var m := n.lockStates[lockId];
    assert LockOk(n.tasks, n.started, lockId, m);
    LocksUpdated(s.tasks, s.started, s.lockStates, n.tasks, n.started, lockId, m);
    PlacesUpdated(s.tasks, s.lockStates, n.tasks, lockId, m);
  }

  lemma NewTaskClaims(tasks: map<nat, Task>, claims: Claims, task: nat, t: Task)
    requires ClaimsOk(tasks, claims) && task !in tasks && t.claim.None?
    ensures ClaimsOk(tasks[task := t], claims)
  {
  }

  lemma NewTaskNumbers(tasks: map<nat, Task>, nextTask: nat, started: seq<Started>, t: Task)
    requires NumbersOk(tasks, nextTask, started)
    ensures NumbersOk(tasks[nextTask := t], nextTask + 1, started) && nextTask !in tasks
    ensures Behind(started, t.key, nextTask)
  {
  }

  /** The new task joins its lock, as holder or as last waiter. */
  lemma JoinedInv(s: State, key: TopicKey, id: Option<int>, l: LockState)
    requires Inv(s)
    requires var lockId := Entered(s.registry, key).locks[key];
             || (l == LockState(Some(s.nextTask), []) && LockOf(s, lockId) == LockState(None, []))
             || l == LockOf(s, lockId).(waiters := LockOf(s, lockId).waiters + [s.nextTask])
    ensures var n := Registered(s, key, id);
            Inv(n.(lockStates := n.lockStates[n.tasks[s.nextTask].lockId := l]))
  {
    var n := Registered(s, key, id);
    var t := n.tasks[s.nextTask];
    NewTaskNumbers(s.tasks, s.nextTask, s.started, t);
    NewTaskClaims(s.tasks, s.claims, s.nextTask, t);
    EntriesAdded(s.registry, s.tasks, s.nextTask, key, id);
    JoinedLines(s, s.nextTask, t, l);
    hide EntriesOk, StartsInOrder, Entered, ClaimsOk, NumbersOk, LocksOk, PlacesOk, LockOf;
  }

  lemma JoinedLines(s: State, task: nat, t: Task, l: LockState)
    requires LocksOk(s.tasks, s.started, s.lockStates) && PlacesOk(s.tasks, s.lockStates)
    requires task !in s.tasks && t.claim.None? && Behind(s.started, t.key, task)
    requires forall u :: u in s.tasks ==> u < task
    requires var before := LockOf(s, t.lockId);
             || (l == LockState(Some(task), []) && before == LockState(None, []))
             || l == before.(waiters := before.waiters + [task])
    ensures var tasks, lockStates := s.tasks[task := t], s.lockStates[t.lockId := l];
            LocksOk(tasks, s.started, lockStates) && PlacesOk(tasks, lockStates)
  {
    LockOfOk(s, t.lockId);
    var before, tasks := LockOf(s, t.lockId), s.tasks[task := t];
    assert forall w :: w in before.waiters ==> WaiterOk(s.tasks, s.started, t.lockId, w) && w < task;
    Appended(before.waiters, task);
    hide Ascending, Behind;
    assert LockOk(tasks, s.started, t.lockId, l);
    LocksUpdated(s.tasks, s.started, s.lockStates, tasks, s.started, t.lockId, l);
    PlacesUpdated(s.tasks, s.lockStates, tasks, t.lockId, l);
  }

  lemma ArrivedHeld(s: State, key: TopicKey, id: Option<int>)
    requires Inv(s)
    requires var n := Registered(s, key, id); LockOf(n, n.tasks[s.nextTask].lockId) == LockState(None, [])
    ensures var h := Held(Registered(s, key, id), s.nextTask); Inv(h) && Ready(h, s.nextTask)
  {
    var t := Registered(s, key, id).tasks[s.nextTask];
    assert Without([], s.nextTask) == [];
    NewTaskNumbers(s.tasks, s.nextTask, s.started, t);
    JoinedInv(s, key, id, LockState(Some(s.nextTask), []));
    hide Inv, Entered, Behind, NumbersOk;
  }

  lemma ArrivedWaiting(s: State, key: TopicKey, id: Option<int>)
    requires Inv(s)
    ensures Inv(Waiting(Registered(s, key, id), s.nextTask))
  {
    hide Inv, Entered;
    var n := Registered(s, key, id);
    var l := LockOf(n, n.tasks[s.nextTask].lockId);
    JoinedInv(s, key, id, l.(waiters := l.waiters + [s.nextTask]));
  }

  lemma AdmittedInv(s: State, task: nat, fault: bool)
    requires Inv(s) && Ready(s, task)
    ensures Inv(Admitted(s, task, fault))
  {
    var t := s.tasks[task];
    if t.id.Some? && !fault && t.id.value in s.claims {
      DepartedInv(s, task);
    } else {
      BegunInv(s, task);
      if t.id.Some? && !fault {
        hide Inv;
        ClaimedInv(s.(started := s.started + [Started(task, t.key, t.id)]), task);
      }
    }
  }

  lemma StartAppended(started: seq<Started>, x: Started)
    requires StartsInOrder(started) && Behind(started, x.key, x.task)
    ensures StartsInOrder(started + [x])
    ensures forall key, t {:trigger Behind(started + [x], key, t)} ::
              Behind(started, key, t) && (key == x.key ==> x.task < t) ==> Behind(started + [x], key, t)
  {
  }

  lemma BegunInv(s: State, task: nat)
    requires Inv(s) && Ready(s, task)
    ensures Inv(s.(started := s.started + [Started(task, s.tasks[task].key, s.tasks[task].id)]))
  {
    var t := s.tasks[task];
    var x := Started(task, t.key, t.id);
    var started := s.started + [x];
    StartAppended(s.started, x);
    forall u | u in s.tasks ensures s.tasks[u].lockId == t.lockId <==> s.tasks[u].key == t.key {
      SameLockSameKey(s.registry, s.tasks, u, task);
    }
    LockOfOk(s, t.lockId);
    var l := LockOf(s, t.lockId);
    hide EntriesOk, ClaimsOk, Ascending, Behind, StartsInOrder;
    assert LockOk(s.tasks, started, t.lockId, l) by {
      assert forall u :: u in l.waiters ==> WaiterOk(s.tasks, s.started, t.lockId, u);
    }
    LocksUpdated(s.tasks, s.started, s.lockStates, s.tasks, started, t.lockId, l);
    assert s.lockStates[t.lockId := l] == s.lockStates;
  }

  lemma ClaimTaken(tasks: map<nat, Task>, claims: Claims, task: nat, id: int)
    requires ClaimsOk(tasks, claims) && task in tasks && id !in claims
    ensures ClaimsOk(tasks[task := tasks[task].(claim := Some(id))], claims[id := InFlight])
  {
    assert forall t :: t in tasks ==> ClaimOk(claims, tasks[t]);
  }

  lemma ClaimedInv(s: State, task: nat)
    requires Inv(s) && Running(s, task) && s.tasks[task].id.Some? && s.tasks[task].id.value !in s.claims
    ensures var t := s.tasks[task];
            Inv(s.(claims := s.claims[t.id.value := InFlight], tasks := s.tasks[task := t.(claim := t.id)]))
  {
    var t := s.tasks[task];
    var tasks := s.tasks[task := t.(claim := t.id)];
    EntryTouched(s.registry, s.tasks, task, t.(claim := t.id));
    ClaimTaken(s.tasks, s.claims, task, t.id.value);
    LockOfOk(s, t.lockId);
    var l := LockOf(s, t.lockId);
    hide EntriesOk, StartsInOrder, ClaimsOk, Ascending, Behind;
    assert LockOk(tasks, s.started, t.lockId, l) by {
      assert forall u :: u in l.waiters ==> WaiterOk(s.tasks, s.started, t.lockId, u) && u != task;
    }
    LocksUpdated(s.tasks, s.started, s.lockStates, tasks, s.started, t.lockId, l);
    assert s.lockStates[t.lockId := l] == s.lockStates;
  }

  lemma ClaimsSettled(tasks: map<nat, Task>, claims: Claims, task: nat, success: bool)
    requires ClaimsOk(tasks, claims) && task in tasks && tasks[task].claim.Some?
    ensures var id := tasks[task].claim.value;
            ClaimsOk(tasks - {task}, if success then Complete(claims, id) else Abandon(claims, id))
  {
    assert forall t :: t in tasks ==> ClaimOk(claims, tasks[t]);
  }

  lemma SettledInv(s: State, task: nat, success: bool, fault: bool)
    requires Inv(s) && task in s.tasks
    ensures Inv(Departed(Settled(s, task, success, fault), task))
  {
    DepartedInv(s, task);
    if s.tasks[task].claim.Some? {
      ClaimsSettled(s.tasks, s.claims, task, success);
    }
    hide EntriesOk, LocksOk, PlacesOk, NumbersOk, StartsInOrder, ClaimsOk, Left, LockOf, Without, Complete, Abandon;
    var n := Departed(Settled(s, task, success, fault), task);
    assert n == Departed(s, task).(claims := n.claims);
  }

  lemma StepInv(s: State, e: Event)
    requires Inv(s) && Enabled(s, e)
    ensures Inv(Step(s, e))
  {
    hide Inv, Departed, Held, Waiting, Admitted, Settled, Ready;
    match e
    case Arrive(key, id, fault) =>
      var n := Registered(s, key, id);
      if LockOf(n, n.tasks[s.nextTask].lockId) == LockState(None, []) {
        ArrivedHeld(s, key, id);
        AdmittedInv(Held(n, s.nextTask), s.nextTask, fault);
      } else {
        ArrivedWaiting(s, key, id);
      }
    case Obtain(task, fault) =>
      HeldReady(s, task);
      AdmittedInv(Held(s, task), task, fault);
    case Finish(task, success, fault) =>
      SettledInv(s, task, success, fault);
    case Cancel(task) =>
      DepartedInv(s, task);
    case Restart(expired) =>
      RestartInv(s, expired);
  }

  lemma RestartInv(s: State, expired: set<int>)
    requires Inv(s)
    ensures Inv(Step(s, Restart(expired)))
  {
    assert forall key :: InTopic(map[], key) == {};
  }

  lemma {:induction false} RunInv(states: seq<State>, events: seq<Event>, n: nat)
    requires Run(states, events) && n <= |events|
    ensures Inv(states[n])
  {
    if n == 0 {
      assert forall key :: InTopic(map[], key) == {};
    } else {
      hide Inv, Step;
      RunInv(states, events, n - 1);
      assert Enabled(states[n - 1], events[n - 1]) && states[n - 1 + 1] == Step(states[n - 1], events[n - 1]);
      StepInv(states[n - 1], events[n - 1]);
    }
  }

  // --- Main results ---

  /** Whenever two updates of one topic are in flight they refer to one lock, however
      often the topic's entry was dropped and created before; at most one of them is in
      its handler; the entry counts them. Different topics never share a lock. */
  lemma OneHandlerPerTopic(states: seq<State>, events: seq<Event>, n: nat, t: nat, u: nat)
    requires Run(states, events) && n <= |events|
    requires t in states[n].tasks && u in states[n].tasks
    ensures var s := states[n];
            && (s.tasks[t].key == s.tasks[u].key <==> s.tasks[t].lockId == s.tasks[u].lockId)
            && (s.tasks[t].key == s.tasks[u].key && Running(s, t) && Running(s, u) ==> t == u)
            && s.tasks[t].key in s.registry.users && s.tasks[t].key in s.registry.locks
            && s.registry.users[s.tasks[t].key] == |InTopic(s.tasks, s.tasks[t].key)|
            && s.registry.locks[s.tasks[t].key] == s.tasks[t].lockId
  {
    RunInv(states, events, n);
    SameLockSameKey(states[n].registry, states[n].tasks, t, u);
    EntryInUse(states[n].registry, states[n].tasks, t);
  }

  /** No entry outlives its last update. */
  lemma EntriesAreInUse(states: seq<State>, events: seq<Event>, n: nat, key: TopicKey)
    requires Run(states, events) && n <= |events|
    ensures var s := states[n];
            && (key in s.registry.users <==> exists t :: t in s.tasks && s.tasks[t].key == key)
            && (key in s.registry.locks <==> key in s.registry.users)
  {
    RunInv(states, events, n);
    var s := states[n];
    assert EntryOk(s.registry, s.tasks, key);
    assert (exists t :: t in s.tasks && s.tasks[t].key == key) <==> exists t :: t in InTopic(s.tasks, key);
  }

  /** Over a whole run, restarts included, the handlers of one topic start in the order
      in which their updates were registered. */
  lemma HandlersInOrder(states: seq<State>, events: seq<Event>)
    requires Run(states, events)
    ensures StartsInOrder(states[|events|].started)
  {
    RunInv(states, events, |events|);
  }

  /** A topic with updates in flight is never stuck: its handler can end or its longest
      waiter can get the lock. */
  lemma TopicNeverStuck(states: seq<State>, events: seq<Event>, n: nat, t: nat) returns (u: nat)
    requires Run(states, events) && n <= |events| && t in states[n].tasks
    ensures u in states[n].tasks && states[n].tasks[u].key == states[n].tasks[t].key
    ensures Enabled(states[n], Finish(u, true, false)) || Enabled(states[n], Obtain(u, false))
  {
    RunInv(states, events, n);
    var s := states[n];
    var l := LockOf(s, s.tasks[t].lockId);
    u := if l.holder.Some? then l.holder.value else l.waiters[0];
    assert l.holder.None? ==> u in l.waiters;
    SameLockSameKey(s.registry, s.tasks, t, u);
  }

  /** A handler that ends well leaves its update on record as completed. */
  lemma SuccessIsRecorded(states: seq<State>, events: seq<Event>, n: nat)
    requires Run(states, events) && n < |events|
    requires events[n].Finish? && events[n].success && !events[n].fault
    requires states[n].tasks[events[n].task].claim.Some?
    ensures IsCompleted(states[n + 1], states[n].tasks[events[n].task].claim.value)
  {
    RunInv(states, events, n);
  }

  /** A handler that fails gives its update back, to be handled when it is sent again. */
  lemma FailureIsForgotten(states: seq<State>, events: seq<Event>, n: nat)
    requires Run(states, events) && n < |events|
    requires events[n].Finish? && !events[n].success && !events[n].fault
    requires states[n].tasks[events[n].task].claim.Some?
    ensures states[n].tasks[events[n].task].claim.value !in states[n + 1].claims
  {
    RunInv(states, events, n);
  }

  /** When the handler of an update starts: on arrival if nothing of its topic is in
      flight, or else once the lock is handed to it; and only if the update is not on record
      already, which makes it leave. Nothing else starts a handler. */
  lemma WhatStarts(s: State, e: Event)
    requires Inv(s) && Enabled(s, e)
    ensures var n := Step(s, e);
            match e
            case Arrive(key, id, fault) =>
              if InTopic(s.tasks, key) != {} then
                && n.started == s.started && n.claims == s.claims
                && s.nextTask in n.tasks && n.tasks[s.nextTask].key == key && n.tasks[s.nextTask].id == id
                && s.nextTask in LockOf(n, n.tasks[s.nextTask].lockId).waiters
              else TakesItsTurn(s, n, s.nextTask, key, id, fault)
            case Obtain(task, fault) => TakesItsTurn(s, n, task, s.tasks[task].key, s.tasks[task].id, fault)
            case _ => n.started == s.started
  {
    match e
    case Arrive(key, id, fault) =>
      if InTopic(s.tasks, key) != {} {
        BusyLock(s, key);
        hide Inv, InTopic, Without, Left, Admitted, Held;
        QueuesBehind(s, key, id, fault);
      } else {
        FreshLock(s, key);
        hide Inv, InTopic, Admitted;
        StartsAtOnce(s, key, id, fault);
      }
    case Obtain(task, fault) =>
      hide Inv, InTopic, Admitted;
      AdmittedTurn(Held(s, task), task, fault);
    case _ => hide Inv, InTopic, Without, Left;
  }

  lemma AdmittedTurn(s: State, task: nat, fault: bool)
    requires task in s.tasks && LockOf(s, s.tasks[task].lockId).holder == Some(task)
    ensures TakesItsTurn(s, Admitted(s, task, fault), task, s.tasks[task].key, s.tasks[task].id, fault)
  {
    hide Without, Left;
  }

  lemma StartsAtOnce(s: State, key: TopicKey, id: Option<int>, fault: bool)
    requires key !in s.registry.locks && LockOf(s, s.registry.nextLock) == LockState(None, [])
    ensures TakesItsTurn(s, Arrived(s, key, id, fault), s.nextTask, key, id, fault)
  {
    hide Admitted;
    AdmittedTurn(Held(Registered(s, key, id), s.nextTask), s.nextTask, fault);
  }

  lemma QueuesBehind(s: State, key: TopicKey, id: Option<int>, fault: bool)
    requires key in s.registry.locks && LockOf(s, s.registry.locks[key]) != LockState(None, [])
    ensures var n := Arrived(s, key, id, fault);
            && n.started == s.started && n.claims == s.claims
            && s.nextTask in n.tasks && n.tasks[s.nextTask].key == key && n.tasks[s.nextTask].id == id
            && s.nextTask in LockOf(n, n.tasks[s.nextTask].lockId).waiters
  {
    hide Admitted, Held;
    var l := LockOf(s, s.registry.locks[key]);
    assert (l.waiters + [s.nextTask])[|l.waiters|] == s.nextTask;
  }

  /** The entry of an idle topic is a new one. */
  lemma FreshLock(s: State, key: TopicKey)
    requires Inv(s) && InTopic(s.tasks, key) == {}
    ensures key !in s.registry.locks && LockOf(s, s.registry.nextLock) == LockState(None, [])
  {
    assert EntryOk(s.registry, s.tasks, key);
    hide NumbersOk, StartsInOrder, ClaimsOk, PlacesOk, EntryOk;
    var next := s.registry.nextLock;
    if next in s.lockStates {
      var l := s.lockStates[next];
      assert LockOk(s.tasks, s.started, next, l);
      assert forall t :: t in s.tasks ==> s.tasks[t].lockId != next;
      NobodyIn(l.waiters);
    }
  }

  lemma NobodyIn(waiters: seq<nat>)
    ensures waiters == [] <==> forall t :: t !in waiters
  {
    assert waiters != [] ==> waiters[0] in waiters;
  }

  /** In a topic that is not idle the lock is held or waited for. */
  lemma BusyLock(s: State, key: TopicKey)
    requires Inv(s) && InTopic(s.tasks, key) != {}
    ensures key in s.registry.locks && LockOf(s, s.registry.locks[key]) != LockState(None, [])
  {
    assert EntryOk(s.registry, s.tasks, key);
    hide NumbersOk, StartsInOrder, ClaimsOk, LocksOk, EntryOk, LocksDistinct;
    var t :| t in InTopic(s.tasks, key);
    assert InLine(t, s.lockStates[s.tasks[t].lockId]);
  }

  /** The task starts its handler unless its update is on record; then it is gone. */
  ghost predicate TakesItsTurn(s: State, n: State, task: nat, key: TopicKey, id: Option<int>, fault: bool) {
    if id.Some? && !fault && id.value in s.claims then
      n.started == s.started && n.claims == s.claims && task !in n.tasks
    else
      && n.started == s.started + [Started(task, key, id)] && task in n.tasks
      && LockOf(n, n.tasks[task].lockId).holder == Some(task)
      && n.claims == (if id.Some? && !fault then s.claims[id.value := InFlight] else s.claims)
  }

  ghost predicate IsCompleted(s: State, id: int) {
    id in s.claims && s.claims[id].Completed?
  }

  /** The store answers the claim, and the record of `id` is kept. */
  ghost predicate Keeps(e: Event, id: int) {
    match e
    case Arrive(_, _, fault) => !fault
    case Obtain(_, fault) => !fault
    case Finish(_, _, _) => true
    case Cancel(_) => true
    case Restart(expired) => id !in expired
  }

  ghost function Starts(started: seq<Started>, id: int): nat {
    if started == [] then 0
    else Starts(started[..|started| - 1], id) + if started[|started| - 1].id == Some(id) then 1 else 0
  }

  lemma StepKeepsCompleted(s: State, e: Event, id: int)
    requires Inv(s) && Enabled(s, e) && IsCompleted(s, id) && Keeps(e, id)
    ensures IsCompleted(Step(s, e), id)
    ensures Starts(Step(s, e).started, id) == Starts(s.started, id)
  {
    hide LocksOk, PlacesOk, EntriesOk, NumbersOk, StartsInOrder, ClaimsOk, LockOf;
    var n := Step(s, e);
    assert |n.started| > |s.started| ==> n.started[..|n.started| - 1] == s.started;
  }

  /** Deduplication: once an update is on record as completed, its handler is not
      started again for as long as claims are answered and the record is kept, however
      often the update arrives and the process restarts. */
  lemma {:induction false} CompletedNotHandledAgain(
    states: seq<State>, events: seq<Event>, id: int, first: nat, last: nat)
    requires Run(states, events) && first <= last <= |events|
    requires IsCompleted(states[first], id)
    requires forall k :: first <= k < last ==> Keeps(events[k], id)
    ensures IsCompleted(states[last], id)
    ensures Starts(states[last].started, id) == Starts(states[first].started, id)
    decreases last
  {
    if first < last {
      CompletedNotHandledAgain(states, events, id, first, last - 1);
      RunInv(states, events, last - 1);
      hide Inv, Step;
      assert Enabled(states[last - 1], events[last - 1]);
      assert states[last - 1 + 1] == Step(states[last - 1], events[last - 1]);
      StepKeepsCompleted(states[last - 1], events[last - 1], id);
    }
  }

  /** Two handlers never work on one claimed update at the same time, in whatever topics. */
  lemma ClaimsExclusive(states: seq<State>, events: seq<Event>, n: nat, t: nat, u: nat)
    requires Run(states, events) && n <= |events|
    requires t in states[n].tasks && u in states[n].tasks
    requires states[n].tasks[t].claim.Some? && states[n].tasks[t].claim == states[n].tasks[u].claim
    ensures t == u && !IsCompleted(states[n], states[n].tasks[t].claim.value)
  {
    RunInv(states, events, n);
  }
}
