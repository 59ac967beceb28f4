/** What every event does to the tasks, which drainers there are at a time, and that a drainer
    whose queue was thrown away sends nothing more. */
module PromptTasks {
  import opened PromptTable
  import opened PromptLifecycle
  import opened PromptOrder

  // --- Which drainers there are ---

  ghost predicate SameTasks(s: Sys, n: Sys) {
    n.procs == s.procs && n.tasks == s.tasks && n.nextPid == s.nextPid
  }

  /** A task goes on, keeping what it is. */
  ghost predicate Alters(s: Sys, n: Sys, pid: nat) {
    && pid in s.procs && pid in n.procs && n.tasks == s.tasks && n.nextPid == s.nextPid
    && n.procs == s.procs[pid := n.procs[pid]]
    && n.procs[pid].kind == s.procs[pid].kind && n.procs[pid].key == s.procs[pid].key
    && n.procs[pid].cancelled == s.procs[pid].cancelled
  }

  /** A task ends; a drainer that is still registered for its target is so no longer. */
  ghost predicate Stops(s: Sys, n: Sys, pid: nat) {
    && pid in s.procs && n.nextPid == s.nextPid && n.procs == s.procs - {pid}
    && if s.procs[pid].kind == Drain && s.procs[pid].key in s.tasks && s.tasks[s.procs[pid].key] == pid
       then n.tasks == s.tasks - {s.procs[pid].key}
       else n.tasks == s.tasks
  }

  ghost predicate GoesOn(s: Sys, n: Sys, pid: nat) {
    Alters(s, n, pid) || Stops(s, n, pid)
  }

  lemma AltersTask(s: Sys, t: Sys, pid: nat, p: Proc)
    requires SameTasks(s, t) && pid in s.procs
    requires p.kind == s.procs[pid].kind && p.key == s.procs[pid].key && p.cancelled == s.procs[pid].cancelled
    ensures Alters(s, WithProc(t, pid, p), pid)
  {
  }

  lemma EndsTask(s: Sys, t: Sys, pid: nat)
    requires SameTasks(s, t) && pid in s.procs && s.procs[pid].kind != Drain
    ensures Stops(s, Ended(t, pid, s.procs[pid].key.route), pid)
  {
    hide Released;
  }

  lemma ExitsTask(s: Sys, t: Sys, pid: nat)
    requires SameTasks(s, t) && pid in s.procs && s.procs[pid].kind == Drain
    ensures Stops(s, Exited(t, pid, s.procs[pid].key), pid)
  {
    hide Released, Queue;
  }

  lemma QueueTasks(s: Sys, t: Sys, key: Key, ref: Ref, item: Item, ids: set<nat>, ok: bool)
    requires SameTasks(s, t)
    ensures SameTasks(s, Popped(t, ref)) && SameTasks(s, PoppedIfHead(t, ref, item))
    ensures SameTasks(s, UnmappedIfEmpty(t, key, ref)) && SameTasks(s, Deleted(t, ids, ok))
    ensures SameTasks(s, Mapped(t, key)) && SameTasks(s, Confirming(t, item.id))
  {
    hide Deque, Delete;
  }

  lemma EnqueuedTasks(s: Sys, key: Key, text: string)
    ensures SameTasks(s, Enqueued(s, key, text)) && SameTasks(s, Mapped(s, key)) && SameTasks(s, Inserted(s, key, text))
    ensures key in Enqueued(s, key, text).queueOf && Queue(Enqueued(s, key, text), key) != []
  {
    hide Insert;
  }

  lemma EnteredTasks(s: Sys, pid: nat, room: bool, busy: bool)
    requires pid in s.procs && s.procs[pid].kind == Immediate
    ensures GoesOn(s, EnteredImmediate(s, pid, room, busy), pid)
  {
    var p := s.procs[pid];
    var q := Enqueued(s, p.key, p.text);
    EnqueuedTasks(s, p.key, p.text);
    hide Queue, Enqueued, Mapped, Ended, SameTasks;
    EndsTask(s, Mapped(s, p.key), pid);
    EndsTask(s, q, pid);
    var inside := p.(phase := Capturing, queue := q.queueOf[p.key], item := Queue(q, p.key)[0]);
    AltersTask(s, q, pid, inside);
    LockedTask(s, WithProc(q, pid, inside), pid, p.key.route);
    hide WithProc, Locked;
  }

  lemma LockedTask(s: Sys, t: Sys, pid: nat, route: Route)
    requires Alters(s, t, pid)
    ensures Alters(s, Locked(t, pid, route), pid)
  {
  }

  lemma NativeTasks(s: Sys, pid: nat, room: bool, busy: bool)
    requires pid in s.procs && s.procs[pid].kind == Native
    ensures GoesOn(s, EnteredNative(s, pid, room, busy), pid)
  {
    var p := s.procs[pid];
    EnqueuedTasks(s, p.key, p.text);
    hide Inserted, Ended, SameTasks;
    assert SameTasks(s, s) by { SelfTasks(s); }
    EndsTask(s, s, pid);
    var inside := p.(phase := Ready, item := Item(s.table.nextId, p.text));
    AltersTask(s, Inserted(s, p.key, p.text), pid, inside);
    LockedTask(s, WithProc(Inserted(s, p.key, p.text), pid, inside), pid, p.key.route);
    hide WithProc, Locked;
  }

  lemma SelfTasks(s: Sys)
    ensures SameTasks(s, s)
  {
  }

  lemma LookedTasks(s: Sys, pid: nat, sight: Sight, ok: bool)
    requires pid in s.procs && s.procs[pid].kind == Immediate
    ensures GoesOn(s, LookedImmediate(s, pid, sight, ok), pid)
  {
    var p := s.procs[pid];
    SelfTasks(s);
    hide SameTasks, Deque, Deleted, Popped, UnmappedIfEmpty, Ended;
    QueueTasks(s, s, p.key, p.queue, p.item, {p.item.id}, ok);
    QueueTasks(s, Deleted(s, {p.item.id}, ok), p.key, p.queue, p.item, {}, ok);
    var d := if Deque(s, p.queue) != [] && Deque(s, p.queue)[0] == p.item
             then Popped(Deleted(s, {p.item.id}, ok), p.queue) else s;
    QueueTasks(s, d, p.key, p.queue, p.item, {}, ok);
    EndsTask(s, s, pid);
    EndsTask(s, UnmappedIfEmpty(d, p.key, p.queue), pid);
    AltersTask(s, s, pid, p.(phase := Ready));
    hide WithProc;
  }

  lemma ComparedTasks(s: Sys, pid: nat, raises: bool, applied: bool, ok: bool)
    requires pid in s.procs
    ensures GoesOn(s, Compared(s, pid, raises, applied, ok), pid)
  {
    var p := s.procs[pid];
    var won := s.(table := Submit(s.table, p.item.id));
    var t := if raises && applied then won else s;
    assert SameTasks(s, won) && SameTasks(s, t);
    hide SameTasks, Deleted, Ended, Submit;
    QueueTasks(s, t, p.key, p.queue, p.item, {p.item.id}, ok);
    AltersTask(s, won, pid, p.(phase := Won));
    AltersTask(s, t, pid, p.(phase := Top));
    if p.kind != Drain {
      EndsTask(s, t, pid);
      EndsTask(s, Deleted(t, {p.item.id}, ok), pid);
    }
    hide WithProc;
  }

  lemma SettledHandlerTasks(s: Sys, pid: nat, outcome: Outcome, ok: bool)
    requires pid in s.procs && s.procs[pid].kind != Drain && s.procs[pid].kind != Native
    ensures GoesOn(s, Settled(s, pid, outcome, ok), pid)
  {
    var p := s.procs[pid];
    SelfTasks(s);
    hide SameTasks, Deque, Deleted, Popped, PoppedIfHead, UnmappedIfEmpty, Ended, Confirming;
    QueueTasks(s, s, p.key, p.queue, p.item, {p.item.id}, ok);
    var del := Deleted(s, {p.item.id}, ok);
    QueueTasks(s, del, p.key, p.queue, p.item, {}, ok);
    var d := match outcome
      case Raised => PoppedIfHead(s, p.queue, p.item)
      case Success => Popped(s, p.queue)
      case Failure => Popped(del, p.queue);
    QueueTasks(s, d, p.key, p.queue, p.item, {}, ok);
    var u := UnmappedIfEmpty(d, p.key, p.queue);
    QueueTasks(s, u, p.key, p.queue, p.item, {}, ok);
    EndsTask(s, s, pid);
    EndsTask(s, u, pid);
    EndsTask(s, Confirming(u, p.item.id), pid);
  }

  lemma SettledNativeTasks(s: Sys, pid: nat, outcome: Outcome, ok: bool)
    requires pid in s.procs && s.procs[pid].kind == Native
    ensures GoesOn(s, Settled(s, pid, outcome, ok), pid)
  {
    var p := s.procs[pid];
    SelfTasks(s);
    hide SameTasks, Deleted, Ended, Confirming;
    QueueTasks(s, s, p.key, p.queue, p.item, {p.item.id}, ok);
    EndsTask(s, Deleted(s, {p.item.id}, ok), pid);
    EndsTask(s, Confirming(s, p.item.id), pid);
  }

  lemma SettledDrainTasks(s: Sys, pid: nat, outcome: Outcome, ok: bool)
    requires pid in s.procs && s.procs[pid].kind == Drain
    ensures GoesOn(s, Settled(s, pid, outcome, ok), pid)
  {
    var p := s.procs[pid];
    SelfTasks(s);
    hide SameTasks, Deque, Deleted, Popped, PoppedIfHead, Exited, Confirming;
    QueueTasks(s, s, p.key, p.queue, p.item, {}, ok);
    QueueTasks(s, PoppedIfHead(s, p.queue, p.item), p.key, p.queue, p.item, {}, ok);
    ExitsTask(s, s, pid);
    ExitsTask(s, Confirming(PoppedIfHead(s, p.queue, p.item), p.item.id), pid);
    AltersTask(s, Popped(s, p.queue), pid, p.(phase := After));
    if Deque(s, p.queue) != [] {
      var ids := {Deque(s, p.queue)[0].id};
      QueueTasks(s, s, p.key, p.queue, p.item, ids, ok);
      QueueTasks(s, Deleted(s, ids, ok), p.key, p.queue, p.item, {}, ok);
      AltersTask(s, Popped(Deleted(s, ids, ok), p.queue), pid, p.(phase := Top));
    }
    hide WithProc;
  }

  lemma TopTasks(s: Sys, pid: nat, expired: nat, ok: bool)
    requires pid in s.procs && s.procs[pid].kind == Drain && expired <= |Queue(s, s.procs[pid].key)|
    ensures GoesOn(s, LoopTop(s, pid, expired, ok), pid)
  {
    var p := s.procs[pid];
    SelfTasks(s);
    ExitsTask(s, s, pid);
    var q := Queue(s, p.key);
    if q != [] {
      var ref := s.queueOf[p.key];
      hide Queue, Exited, Delete;
      var d := Deleted(s, set x | x in q[..expired] :: x.id, ok).(deques := s.deques[ref := q[expired..]]);
      assert SameTasks(s, d);
      hide SameTasks, Deleted;
      ExitsTask(s, d, pid);
      AltersTask(s, d, pid, p.(phase := Capturing, queue := ref));
      hide WithProc;
    } else {
      hide Queue, Exited;
    }
  }

  lemma LookedDrainTasks(s: Sys, pid: nat, sight: Sight)
    requires pid in s.procs && s.procs[pid].kind == Drain
    ensures GoesOn(s, LookedDrain(s, pid, sight), pid)
  {
    var p := s.procs[pid];
    SelfTasks(s);
    hide SameTasks, Deque, Exited;
    ExitsTask(s, s, pid);
    AltersTask(s, s, pid, p.(phase := Notifying));
    AltersTask(s, s, pid, p.(phase := Top));
    if Deque(s, p.queue) != [] {
      AltersTask(s, s, pid, p.(phase := Ready, item := Deque(s, p.queue)[0]));
    }
    hide WithProc;
  }

  lemma ClearedTasks(s: Sys, pid: nat, ok: bool)
    requires pid in s.procs && s.procs[pid].kind == Drain
    ensures GoesOn(s, Cleared(s, pid, ok), pid)
  {
    hide Exited, DeleteTarget;
    var p := s.procs[pid];
    var t := if ok then DeleteTarget(s.table, p.key) else s.table;
    var d := if p.queue in s.deques then s.deques[p.queue := []] else s.deques;
    ExitsTask(s, s.(table := t, deques := d), pid);
  }

  lemma ResumedTasks(s: Sys, pid: nat, confirmed: bool, ok: bool)
    requires pid in s.procs && s.procs[pid].kind == Drain
    ensures GoesOn(s, Resumed(s, pid, confirmed, ok), pid)
  {
    hide Exited, ConfirmRow;
    ExitsTask(s, Confirming(s, s.procs[pid].item.id), pid);
  }

  /** What each event does to the tasks: the task it belongs to goes on or ends, a handler or
      a drainer is added, the drainer of a target is cancelled, or all of them are gone. */
  ghost predicate TasksFollow(s: Sys, e: Event, n: Sys)
    requires Enabled(s, e)
  {
    match e
    case Arrive(kind, key, text) =>
      && n.nextPid == s.nextPid + 1 && n.tasks == s.tasks && s.nextPid in n.procs
      && n.procs == s.procs[s.nextPid := n.procs[s.nextPid]]
      && n.procs[s.nextPid].kind != Drain && n.procs[s.nextPid].key == key && n.procs[s.nextPid].text == text
    case Wake(key) =>
      && n.nextPid == s.nextPid + 1 && n.tasks == s.tasks[key := s.nextPid] && s.nextPid in n.procs
      && n.procs == s.procs[s.nextPid := n.procs[s.nextPid]]
      && ActiveDrain(n.procs[s.nextPid]) && n.procs[s.nextPid].key == key
    case DiscardCancel(pid, key) =>
      if key in s.tasks && s.tasks[key] in s.procs then
        && n.nextPid == s.nextPid && n.tasks == s.tasks - {key} && s.tasks[key] in n.procs
        && n.procs == s.procs[s.tasks[key] := n.procs[s.tasks[key]]]
        && n.procs[s.tasks[key]] == s.procs[s.tasks[key]].(cancelled := true)
      else SameTasks(s, n)
    case Restart(failed) => n.procs == map[] && n.tasks == map[] && n.nextPid == s.nextPid
    case Interrupt(_, _, _) => SameTasks(s, n)
    case ConfirmDone(_, _, _) => SameTasks(s, n)
    case DiscardConfirm(_, _) => SameTasks(s, n)
    case DiscardDrop(_, _, _) => SameTasks(s, n)
    case Rebind(_, _) => SameTasks(s, n)
    case _ => GoesOn(s, n, TaskOf(e))
  }

  function TaskOf(e: Event): nat {
    match e
    case EnterImmediate(pid, _, _) => pid
    case EnterNative(pid, _, _) => pid
    case EnterDiscard(pid) => pid
    case LookImmediate(pid, _, _) => pid
    case Defer(pid) => pid
    case Cas(pid, _, _, _) => pid
    case Hand(pid) => pid
    case Settle(pid, _, _) => pid
    case DrainTop(pid, _, _) => pid
    case DrainLook(pid, _) => pid
    case DrainRetry(pid) => pid
    case DrainClear(pid, _) => pid
    case DrainAfter(pid, _, _) => pid
    case DrainPass(pid) => pid
    case DrainDie(pid) => pid
    case DiscardFinish(pid, _) => pid
    case Abort(pid) => pid
    case _ => 0
  }

  lemma StepTasks(s: Sys, e: Event)
    requires Enabled(s, e)
    ensures TasksFollow(s, e, Step(s, e))
  {
    hide Queue, Deque, Settled, LookedImmediate, Compared, EnteredImmediate, EnteredNative, LoopTop, LookedDrain,
      Cleared, Resumed, Restarted, Exited, GoesOn, HasRoom, RouteHasDrain, RouteHasQueue;
    match e
    case Settle(pid, outcome, ok) =>
      if s.procs[pid].kind == Drain {
        SettledDrainTasks(s, pid, outcome, ok);
      } else if s.procs[pid].kind == Native {
        SettledNativeTasks(s, pid, outcome, ok);
      } else {
        SettledHandlerTasks(s, pid, outcome, ok);
      }
    case LookImmediate(pid, sight, ok) => LookedTasks(s, pid, sight, ok);
    case Cas(pid, raises, applied, ok) => ComparedTasks(s, pid, raises, applied, ok);
    case EnterImmediate(pid, room, busy) => EnteredTasks(s, pid, room, busy);
    case EnterNative(pid, room, busy) => NativeTasks(s, pid, room, busy);
    case DrainTop(pid, expired, ok) => TopTasks(s, pid, expired, ok);
    case DrainLook(pid, sight) => LookedDrainTasks(s, pid, sight);
    case DrainClear(pid, ok) => ClearedTasks(s, pid, ok);
    case DrainAfter(pid, confirmed, ok) => ResumedTasks(s, pid, confirmed, ok);
    case Restart(failed) => RestartTasks(s, failed);
    case Interrupt(key, text, room) => EnqueuedTasks(s, key, text);
    case _ => OtherTasks(s, e);
  }

  lemma RestartTasks(s: Sys, failed: set<nat>)
    ensures TasksFollow(s, Restart(failed), Restarted(s, failed))
  {
    hide Pending, Restorable, RetargetMoved;
  }

  lemma OtherTasks(s: Sys, e: Event)
    requires Enabled(s, e)
    requires || e.Arrive? || e.EnterDiscard? || e.Defer? || e.Hand? || e.DrainRetry? || e.DrainPass? || e.Wake?
             || e.ConfirmDone? || e.DiscardCancel? || e.DiscardConfirm? || e.DiscardDrop? || e.DiscardFinish?
             || e.Abort? || e.Rebind? || e.DrainDie?
    ensures TasksFollow(s, e, Step(s, e))
  {
    hide Queue, Deque, Delete, DeleteRoute, ConfirmRow, RouteHasDrain, Released;
  }

  /** The registered drainers are exactly the ones at work that were not cancelled, and there
      is at most one for each topic. */
  ghost predicate Registered(procs: map<nat, Proc>, tasks: map<Key, nat>, nextPid: nat) {
    && (forall pid :: pid in procs ==> pid < nextPid)
    && (forall pid :: pid in procs && ActiveDrain(procs[pid]) ==>
          procs[pid].key in tasks && tasks[procs[pid].key] == pid)
    && (forall key :: key in tasks ==>
          tasks[key] in procs && ActiveDrain(procs[tasks[key]]) && procs[tasks[key]].key == key)
    && (forall a, b :: a in tasks && b in tasks && a.route == b.route ==> a == b)
  }

  lemma GoesOnRegistered(s: Sys, n: Sys, pid: nat)
    requires Registered(s.procs, s.tasks, s.nextPid) && GoesOn(s, n, pid)
    ensures Registered(n.procs, n.tasks, n.nextPid)
  {
  }

  lemma WakeRegistered(s: Sys, n: Sys, key: Key)
    requires Registered(s.procs, s.tasks, s.nextPid) && !RouteHasDrain(s, key.route)
    requires n.nextPid == s.nextPid + 1 && n.tasks == s.tasks[key := s.nextPid] && s.nextPid in n.procs
    requires n.procs == s.procs[s.nextPid := n.procs[s.nextPid]]
    requires ActiveDrain(n.procs[s.nextPid]) && n.procs[s.nextPid].key == key
    ensures Registered(n.procs, n.tasks, n.nextPid)
  {
    assert forall k :: k in s.tasks ==> k.route != key.route;
    hide RouteHasDrain;
  }

  lemma OtherRegistered(s: Sys, e: Event, n: Sys)
    requires Enabled(s, e) && Registered(s.procs, s.tasks, s.nextPid) && TasksFollow(s, e, n)
    requires e.Arrive? || e.DiscardCancel? || e.Restart? || SameTasks(s, n)
    ensures Registered(n.procs, n.tasks, n.nextPid)
  {
    hide Enabled;
  }

  lemma StepRegistered(s: Sys, e: Event)
    requires Enabled(s, e) && Registered(s.procs, s.tasks, s.nextPid)
    ensures var n := Step(s, e); Registered(n.procs, n.tasks, n.nextPid)
  {
    StepTasks(s, e);
    var n := Step(s, e);
    assert e.Wake? ==> !RouteHasDrain(s, e.key.route);
    hide Step, Enabled, RouteHasDrain, Registered, GoesOn, SameTasks;
    if e.Wake? {
      WakeRegistered(s, n, e.key);
    } else if GoesOn(s, n, TaskOf(e)) {
      GoesOnRegistered(s, n, TaskOf(e));
    } else {
      OtherRegistered(s, e, n);
    }
  }

  lemma {:induction false} RunRegistered(states: seq<Sys>, events: seq<Event>, n: nat, limit: nat)
    requires Run(states, events) && states[0] == Initial(limit) && n <= |events|
    ensures Registered(states[n].procs, states[n].tasks, states[n].nextPid)
  {
    if n == 0 {
      InitialRegistered(limit);
    } else {
      StepOf(states, events, n - 1);
      hide *;
      RunRegistered(states, events, n - 1, limit);
      StepRegistered(states[n - 1], events[n - 1]);
    }
  }

  lemma InitialRegistered(limit: nat)
    ensures var s := Initial(limit); Registered(s.procs, s.tasks, s.nextPid)
  {
  }

  lemma StepOf(states: seq<Sys>, events: seq<Event>, n: nat)
    requires Run(states, events) && n < |events|
    ensures Enabled(states[n], events[n]) && |states| == |events| + 1 && states[n + 1] == Step(states[n], events[n])
  {
    hide Enabled, Step;
  }

  /** Over every run: a topic has at most one drainer at work that was not cancelled, and a
      drainer is registered for a target exactly while there is one. */
  lemma OneDrainer(states: seq<Sys>, events: seq<Event>, n: nat, limit: nat, a: nat, b: nat)
    requires Run(states, events) && states[0] == Initial(limit) && n <= |events|
    requires a in states[n].procs && ActiveDrain(states[n].procs[a])
    requires b in states[n].procs && ActiveDrain(states[n].procs[b])
    requires states[n].procs[a].key.route == states[n].procs[b].key.route
    ensures a == b
    ensures forall key :: key in states[n].tasks <==>
              exists pid :: && pid in states[n].procs && ActiveDrain(states[n].procs[pid])
                            && states[n].procs[pid].key == key
  {
    RunRegistered(states, events, n, limit);
  }

  /** The task has been cancelled, or is gone. */
  ghost predicate Silenced(s: Sys, pid: nat) {
    pid < s.nextPid && (pid in s.procs ==> s.procs[pid].cancelled)
  }

  lemma FollowsSilenced(s: Sys, e: Event, n: Sys, pid: nat)
    requires Enabled(s, e) && TasksFollow(s, e, n) && Silenced(s, pid)
    ensures Silenced(n, pid)
  {
    hide Enabled, GoesOn;
    if GoesOn(s, n, TaskOf(e)) {
      GoesOnSilenced(s, n, TaskOf(e), pid);
    }
  }

  lemma GoesOnSilenced(s: Sys, n: Sys, task: nat, pid: nat)
    requires GoesOn(s, n, task) && Silenced(s, pid)
    ensures Silenced(n, pid)
  {
  }

  lemma {:induction false} StaysSilenced(states: seq<Sys>, events: seq<Event>, i: nat, j: nat, pid: nat)
    requires Run(states, events) && i <= j <= |events| < |states| && Silenced(states[i], pid)
    ensures Silenced(states[j], pid)
    decreases j
  {
    hide *;
    if i < j {
      StepOf(states, events, j - 1);
      StaysSilenced(states, events, i, j - 1, pid);
      var s, e := states[j - 1], events[j - 1];
      StepTasks(s, e);
      FollowsSilenced(s, e, Step(s, e), pid);
    }
  }

  /** Once the user throws a topic's queue away, the drainer that was working on a target of it
      wins no more rows and hands nothing over any more. */
  lemma DiscardedHandsNothing(states: seq<Sys>, events: seq<Event>, i: nat, j: nat, limit: nat, pid: nat)
    requires Run(states, events) && states[0] == Initial(limit) && i < j < |events| && events[i].DiscardCancel?
    requires pid in states[i].procs && states[i].procs[pid].kind == Drain
    requires states[i].procs[pid].key == events[i].key
    ensures events[j] != Hand(pid) && !(events[j].Cas? && events[j].pid == pid)
  {
    RunRegistered(states, events, i, limit);
    assert Enabled(states[i], events[i]) && states[i + 1] == Step(states[i], events[i]);
    StepTasks(states[i], events[i]);
    assert Silenced(states[i + 1], pid) by { hide Step, Enabled; }
    StaysSilenced(states, events, i + 1, j, pid);
    assert Enabled(states[j], events[j]);
  }
}
