/** Every interleaving of the tasks that move a prompt from the spool to an agent.

    One event is the code between two awaits of one task. The terminal, the clock
    and the confirmation gates are observations carried by the event, so any answer
    they may give is covered. `ok` fields say whether a store write of the event
    took effect; a fault-free run has them all true.

    Drainers are started by `Wake`, which may fire wherever the code could call its
    ensure function with a positive answer. */
module PromptLifecycle {
  import opened PromptTable

  /** Identity of one in-memory deque: a key can be unmapped and mapped again
      while an older task still holds the old deque. */
  datatype Ref = Ref(key: Key, serial: nat)

  datatype Kind = Immediate | Native | Drain | Discard

  datatype Phase =
    | Waiting    // for the route lock
    | Top        // drainer at its loop head
    | Capturing  // waiting for the terminal
    | Notifying  // drainer about to clear its queue
    | Ready      // item chosen, waiting for admission or the transcript baseline
    | Won        // the compare-and-set succeeded, the text not handed over yet
    | Sent       // text handed to the agent, outcome not known yet
    | After      // drainer waiting for the transcript to confirm

  datatype Proc = Proc(
    kind: Kind, key: Key, text: string, phase: Phase, queue: Ref, item: Item, cancelled: bool)

  datatype Submission = Submission(id: nat, key: Key, text: string)

  datatype Sys = Sys(
    table: Table,                  // durable
    limit: nat,
    bound: map<Route, string>,     // window each topic resolves to
    queueOf: map<Key, Ref>,
    deques: map<Ref, seq<Item>>,
    serial: nat,
    procs: map<nat, Proc>,
    nextPid: nat,
    tasks: map<Key, nat>,          // registered drainers
    locks: map<Route, nat>,
    confirming: set<nat>,          // rows with a confirmation task
    sent: seq<Submission>,         // history: texts handed to an agent
    accepted: map<nat, Row>)       // history: rows as first inserted

  datatype Sight = Fail | Later | Go

  datatype Outcome = Success | Failure | Raised

  datatype Event =
    | Arrive(kind: Kind, key: Key, text: string)
    | Interrupt(key: Key, text: string, room: bool)
    | EnterImmediate(pid: nat, room: bool, busy: bool)
    | EnterNative(pid: nat, room: bool, busy: bool)
    | EnterDiscard(pid: nat)
    | LookImmediate(pid: nat, sight: Sight, ok: bool)
    | Defer(pid: nat)
    | Cas(pid: nat, raises: bool, applied: bool, ok: bool)
    | Hand(pid: nat)
    | Settle(pid: nat, outcome: Outcome, ok: bool)
    | DrainTop(pid: nat, expired: nat, ok: bool)
    | DrainLook(pid: nat, sight: Sight)
    | DrainRetry(pid: nat)
    | DrainClear(pid: nat, ok: bool)
    | DrainAfter(pid: nat, confirmed: bool, ok: bool)
    | DrainPass(pid: nat)
    | DrainDie(pid: nat)
    | Wake(key: Key)
    | ConfirmDone(id: nat, confirmed: bool, ok: bool)
    | DiscardCancel(pid: nat, key: Key)
    | DiscardConfirm(pid: nat, id: nat)
    | DiscardDrop(pid: nat, key: Key, ok: bool)
    | DiscardFinish(pid: nat, ok: bool)
    | Abort(pid: nat)
    | Rebind(route: Route, window: string)
    | Restart(failed: set<nat>)

  // --- Small state updates shared by the events ---

  ghost function Queue(s: Sys, key: Key): seq<Item> {
    if key in s.queueOf && s.queueOf[key] in s.deques then s.deques[s.queueOf[key]] else []
  }

  ghost function Deque(s: Sys, ref: Ref): seq<Item> {
    if ref in s.deques then s.deques[ref] else []
  }

  ghost predicate RouteHasQueue(s: Sys, route: Route) {
    exists key :: key in s.queueOf && key.route == route && Queue(s, key) != []
  }

  ghost predicate RouteHasDrain(s: Sys, route: Route) {
    exists key :: key in s.tasks && key.route == route && s.tasks[key] in s.procs
  }

  /** A submission that awaits its confirmation closes the gate of its target, and of every
      other target of the topic that the topic is not bound to. */
  ghost predicate Gated(s: Sys, key: Key) {
    exists id :: id in s.table.rows && Closes(s, id, key)
  }

  ghost predicate Closes(s: Sys, id: nat, key: Key)
    requires id in s.table.rows
  {
    var row := s.table.rows[id];
    && row.state.Submitted? && row.key.route == key.route
    && (row.key == key || !(key.route in s.bound && s.bound[key.route] == key.window))
  }

  ghost predicate HasRoom(s: Sys, key: Key) {
    |Queue(s, key)| < s.limit && PendingCount(s.table, key) < s.limit
  }

  ghost function Mapped(s: Sys, key: Key): Sys {
    if key in s.queueOf then s
    else
      var ref := Ref(key, s.serial);
      s.(queueOf := s.queueOf[key := ref], deques := s.deques[ref := []], serial := s.serial + 1)
  }

  ghost function Inserted(s: Sys, key: Key, text: string): Sys {
    s.(table := Insert(s.table, key, text),
       accepted := s.accepted[s.table.nextId := Row(key, text, Queued)])
  }

  /** Persist one prompt, then append it to the deque of its target. */
  ghost function Enqueued(s: Sys, key: Key, text: string): Sys {
    var m := Mapped(s, key);
    var item := Item(s.table.nextId, text);
    Inserted(m, key, text).(
      deques := m.deques[m.queueOf[key] := Deque(m, m.queueOf[key]) + [item]])
  }

  ghost function Deleted(s: Sys, ids: set<nat>, ok: bool): Sys {
    if ok then s.(table := Delete(s.table, ids)) else s
  }

  ghost function Popped(s: Sys, ref: Ref): Sys {
    if Deque(s, ref) == [] then s else s.(deques := s.deques[ref := Deque(s, ref)[1..]])
  }

  ghost function PoppedIfHead(s: Sys, ref: Ref, item: Item): Sys {
    if Deque(s, ref) != [] && Deque(s, ref)[0] == item then Popped(s, ref) else s
  }

  ghost function Unmapped(s: Sys, key: Key): Sys {
    s.(queueOf := s.queueOf - {key})
  }

  ghost function UnmappedIfEmpty(s: Sys, key: Key, ref: Ref): Sys {
    if Deque(s, ref) == [] then Unmapped(s, key) else s
  }

  ghost function WithProc(s: Sys, pid: nat, p: Proc): Sys {
    s.(procs := s.procs[pid := p])
  }

  ghost function Locked(s: Sys, pid: nat, route: Route): Sys {
    s.(locks := s.locks[route := pid])
  }

  /** A handler task ends: it leaves the process table and releases its lock. */
  ghost function Ended(s: Sys, pid: nat, route: Route): Sys {
    s.(procs := s.procs - {pid}, locks := Released(s.locks, pid, route))
  }

  ghost function Released(locks: map<Route, nat>, pid: nat, route: Route): map<Route, nat> {
    if route in locks && locks[route] == pid then locks - {route} else locks
  }

  /** A drainer ends through its `finally` block. */
  ghost function Exited(s: Sys, pid: nat, key: Key): Sys {
    s.(queueOf := if Queue(s, key) == [] then s.queueOf - {key} else s.queueOf,
       tasks := Unregistered(s.tasks, pid, key),
       procs := s.procs - {pid},
       locks := Released(s.locks, pid, key.route))
  }

  ghost function Unregistered(tasks: map<Key, nat>, pid: nat, key: Key): map<Key, nat> {
    if key in tasks && tasks[key] == pid then tasks - {key} else tasks
  }

  ghost function Confirming(s: Sys, id: nat): Sys {
    s.(confirming := s.confirming + {id})
  }

  // --- The events ---

  ghost predicate LockFree(s: Sys, route: Route) {
    route !in s.locks
  }

  /** A task at `phase` that has not been cancelled. */
  ghost predicate At(s: Sys, pid: nat, kind: Kind, phase: Phase) {
    pid in s.procs && s.procs[pid].kind == kind && s.procs[pid].phase == phase && !s.procs[pid].cancelled
  }

  ghost predicate InPhase(s: Sys, pid: nat, phase: Phase) {
    pid in s.procs && s.procs[pid].phase == phase && !s.procs[pid].cancelled
  }

  ghost predicate Discarding(s: Sys, pid: nat) {
    At(s, pid, Discard, Capturing)
  }

  ghost predicate Enabled(s: Sys, e: Event) {
    match e
    case Arrive(kind, key, text) => kind != Drain
    case Interrupt(key, text, room) => LockFree(s, key.route) && (room ==> HasRoom(s, key))
    case EnterImmediate(pid, room, busy) =>
      && At(s, pid, Immediate, Waiting) && LockFree(s, s.procs[pid].key.route)
      && (room ==> HasRoom(s, s.procs[pid].key))
      && (RouteHasQueue(s, s.procs[pid].key.route) || RouteHasDrain(s, s.procs[pid].key.route) ==> busy)
    case EnterNative(pid, room, busy) =>
      && At(s, pid, Native, Waiting) && LockFree(s, s.procs[pid].key.route)
      && (room ==> PendingCount(s.table, s.procs[pid].key) < s.limit)
      && (RouteHasQueue(s, s.procs[pid].key.route) || RouteHasDrain(s, s.procs[pid].key.route) ==> busy)
    case EnterDiscard(pid) => At(s, pid, Discard, Waiting) && LockFree(s, s.procs[pid].key.route)
    case LookImmediate(pid, sight, ok) => At(s, pid, Immediate, Capturing)
    case Defer(pid) => At(s, pid, Immediate, Ready)
    case Cas(pid, raises, applied, ok) => InPhase(s, pid, Ready)
    case Hand(pid) => InPhase(s, pid, Won)
    case Settle(pid, outcome, ok) =>
      && pid in s.procs
      && (s.procs[pid].cancelled ==> outcome == Raised)
      && (s.procs[pid].phase == Sent || (s.procs[pid].phase == Won && outcome != Success))
    case DrainTop(pid, expired, ok) =>
      At(s, pid, Drain, Top) && expired <= |Queue(s, s.procs[pid].key)|
    case DrainLook(pid, sight) => At(s, pid, Drain, Capturing)
    case DrainRetry(pid) => At(s, pid, Drain, Ready)
    case DrainClear(pid, ok) => At(s, pid, Drain, Notifying)
    case DrainAfter(pid, confirmed, ok) => At(s, pid, Drain, After)
    case DrainPass(pid) => At(s, pid, Drain, After)
    case DrainDie(pid) =>
      pid in s.procs && s.procs[pid].kind == Drain && s.procs[pid].phase != Won && s.procs[pid].phase != Sent
    case Wake(key) =>
      && !RouteHasDrain(s, key.route)
      && (Queue(s, key) == [] ==> LockFree(s, key.route))
    case ConfirmDone(id, confirmed, ok) => id in s.confirming
    case DiscardCancel(pid, key) => Discarding(s, pid) && key.route == s.procs[pid].key.route
    case DiscardConfirm(pid, id) => Discarding(s, pid)
    case DiscardDrop(pid, key, ok) => Discarding(s, pid) && key.route == s.procs[pid].key.route
    case DiscardFinish(pid, ok) => Discarding(s, pid)
    case Abort(pid) =>
      && pid in s.procs && s.procs[pid].kind != Drain
      && s.procs[pid].phase in {Waiting, Capturing, Ready}
    case Rebind(route, window) => true
    case Restart(failed) => true
  }

  ghost function Step(s: Sys, e: Event): Sys
    requires Enabled(s, e)
  {
    match e
    case Arrive(kind, key, text) => Arrived(s, kind, key, text)
    case Interrupt(key, text, room) => if room then Enqueued(s, key, text) else Mapped(s, key)
    case EnterImmediate(pid, room, busy) => EnteredImmediate(s, pid, room, busy)
    case EnterNative(pid, room, busy) => EnteredNative(s, pid, room, busy)
    case EnterDiscard(pid) =>
      Locked(WithProc(s, pid, s.procs[pid].(phase := Capturing)), pid, s.procs[pid].key.route)
    case LookImmediate(pid, sight, ok) => LookedImmediate(s, pid, sight, ok)
    case Defer(pid) => Ended(s, pid, s.procs[pid].key.route)
    case Cas(pid, raises, applied, ok) => Compared(s, pid, raises, applied, ok)
    case Hand(pid) => HandedOver(s, pid)
    case Settle(pid, outcome, ok) => Settled(s, pid, outcome, ok)
    case DrainTop(pid, expired, ok) => LoopTop(s, pid, expired, ok)
    case DrainLook(pid, sight) => LookedDrain(s, pid, sight)
    case DrainRetry(pid) => WithProc(s, pid, s.procs[pid].(phase := Top))
    case DrainClear(pid, ok) => Cleared(s, pid, ok)
    case DrainAfter(pid, confirmed, ok) => Resumed(s, pid, confirmed, ok)
    case DrainPass(pid) => Passed(s, pid)
    case DrainDie(pid) => Exited(s, pid, s.procs[pid].key)
    case Wake(key) => Woken(s, key)
    case ConfirmDone(id, confirmed, ok) => ConfirmFinished(s, id, confirmed && ok)
    case DiscardCancel(pid, key) => Cancelled(s, key)
    case DiscardConfirm(pid, id) => s.(confirming := s.confirming - {id})
    case DiscardDrop(pid, key, ok) => Dropped(s, key, ok)
    case DiscardFinish(pid, ok) => Discarded(s, pid, ok)
    case Abort(pid) => Ended(s, pid, s.procs[pid].key.route)
    case Rebind(route, window) => s.(bound := s.bound[route := window])
    case Restart(failed) => Restarted(s, failed)
  }

  /** The events of drainers and confirmation tasks. */
  predicate OfDrainer(e: Event) {
    e.DrainTop? || e.DrainLook? || e.DrainRetry? || e.DrainClear? || e.DrainAfter? || e.DrainPass? || e.DrainDie?
    || e.Wake? || e.ConfirmDone?
  }

  ghost function Arrived(s: Sys, kind: Kind, key: Key, text: string): Sys {
    WithProc(s.(nextPid := s.nextPid + 1), s.nextPid,
             Proc(kind, key, text, Waiting, Ref(key, 0), Item(0, text), false))
  }

  /** `_send_or_queue_agent_input` under the route lock, up to its first await. */
  ghost function EnteredImmediate(s: Sys, pid: nat, room: bool, busy: bool): Sys
    requires pid in s.procs
  {
    var p := s.procs[pid];
    if !room then Ended(Mapped(s, p.key), pid, p.key.route)
    else
      var q := Enqueued(s, p.key, p.text);
      if busy then Ended(q, pid, p.key.route)
      else Locked(WithProc(q, pid, p.(phase := Capturing, queue := q.queueOf[p.key],
                                      item := Queue(q, p.key)[0])), pid, p.key.route)
  }

  /** `_send_native_agent_input` under the route lock: the row never enters a deque. */
  ghost function EnteredNative(s: Sys, pid: nat, room: bool, busy: bool): Sys
    requires pid in s.procs
  {
    var p := s.procs[pid];
    if !room || busy then Ended(s, pid, p.key.route)
    else Locked(WithProc(Inserted(s, p.key, p.text), pid,
                         p.(phase := Ready, item := Item(s.table.nextId, p.text))), pid, p.key.route)
  }

  ghost function LookedImmediate(s: Sys, pid: nat, sight: Sight, ok: bool): Sys
    requires pid in s.procs
  {
    var p := s.procs[pid];
    match sight
    case Go => WithProc(s, pid, p.(phase := Ready))
    case Later => Ended(s, pid, p.key.route)
    case Fail =>
      var d := if Deque(s, p.queue) != [] && Deque(s, p.queue)[0] == p.item
               then Popped(Deleted(s, {p.item.id}, ok), p.queue) else s;
      Ended(UnmappedIfEmpty(d, p.key, p.queue), pid, p.key.route)
  }

  /** The compare-and-set on the row, and what each sender does when it loses. */
  ghost function Compared(s: Sys, pid: nat, raises: bool, applied: bool, ok: bool): Sys
    requires pid in s.procs
  {
    var p := s.procs[pid];
    if !raises && IsQueued(s.table, p.item.id)
    then WithProc(s.(table := Submit(s.table, p.item.id)), pid, p.(phase := Won))
    else
      var t := if raises && applied then s.(table := Submit(s.table, p.item.id)) else s;
      match p.kind
      case Drain => WithProc(t, pid, p.(phase := Top))
      case Native => Ended(Deleted(t, {p.item.id}, ok), pid, p.key.route)
      case _ => Ended(t, pid, p.key.route)
  }

  /** The send returned or raised. */
  ghost function Settled(s: Sys, pid: nat, outcome: Outcome, ok: bool): Sys
    requires pid in s.procs
  {
    var p := s.procs[pid];
    match p.kind
    case Native =>
      if outcome.Failure? then Ended(Deleted(s, {p.item.id}, ok), pid, p.key.route)
      else Ended(Confirming(s, p.item.id), pid, p.key.route)
    case Drain =>
      (match outcome
       case Raised => Exited(Confirming(PoppedIfHead(s, p.queue, p.item), p.item.id), pid, p.key)
       case Success =>
         if Deque(s, p.queue) == [] then Exited(s, pid, p.key)
         else WithProc(Popped(s, p.queue), pid, p.(phase := After))
       case Failure =>
         if Deque(s, p.queue) == [] then Exited(s, pid, p.key)
         else WithProc(Popped(Deleted(s, {Deque(s, p.queue)[0].id}, ok), p.queue), pid, p.(phase := Top)))
    case _ =>
      match outcome
      case Raised =>
        var d := PoppedIfHead(s, p.queue, p.item);
        Ended(Confirming(UnmappedIfEmpty(d, p.key, p.queue), p.item.id), pid, p.key.route)
      case Success =>
        if Deque(s, p.queue) == [] then Ended(s, pid, p.key.route)
        else Ended(Confirming(UnmappedIfEmpty(Popped(s, p.queue), p.key, p.queue), p.item.id), pid, p.key.route)
      case Failure =>
        if Deque(s, p.queue) == [] then Ended(s, pid, p.key.route)
        else
          var d := Popped(Deleted(s, {p.item.id}, ok), p.queue);
          Ended(UnmappedIfEmpty(d, p.key, p.queue), pid, p.key.route)
  }

  ghost function LoopTop(s: Sys, pid: nat, expired: nat, ok: bool): Sys
    requires pid in s.procs && expired <= |Queue(s, s.procs[pid].key)|
  {
    var p := s.procs[pid];
    var q := Queue(s, p.key);
    if q == [] then Exited(s, pid, p.key)
    else
      var ref := s.queueOf[p.key];
      var d := Deleted(s, set x | x in q[..expired] :: x.id, ok).(deques := s.deques[ref := q[expired..]]);
      if expired == |q| then Exited(d, pid, p.key)
      else WithProc(d, pid, p.(phase := Capturing, queue := ref))
  }

  /** `item = queue[0]` raises on a deque emptied meanwhile; the drainer then ends. */
  ghost function LookedDrain(s: Sys, pid: nat, sight: Sight): Sys
    requires pid in s.procs
  {
    var p := s.procs[pid];
    if sight.Fail? then WithProc(s, pid, p.(phase := Notifying))
    else if Deque(s, p.queue) == [] then Exited(s, pid, p.key)
    else if sight.Later? then WithProc(s, pid, p.(phase := Top))
    else WithProc(s, pid, p.(phase := Ready, item := Deque(s, p.queue)[0]))
  }

  /** The text reaches the agent: a drainer sends that of its item, a handler its own. */
  ghost function HandedOver(s: Sys, pid: nat): Sys
    requires pid in s.procs
  {
    var p := s.procs[pid];
    s.(procs := s.procs[pid := p.(phase := Sent)],
       sent := s.sent + [Submission(p.item.id, p.key, if p.kind == Drain then p.item.text else p.text)])
  }

  /** The drainer gives up: its own deque and every row of its target go. */
  ghost function Cleared(s: Sys, pid: nat, ok: bool): Sys
    requires pid in s.procs
  {
    var p := s.procs[pid];
    var t := if ok then DeleteTarget(s.table, p.key) else s.table;
    var d := if p.queue in s.deques then s.deques[p.queue := []] else s.deques;
    Exited(s.(table := t, deques := d), pid, p.key)
  }

  /** After a send the drainer either saw the prompt in the transcript or leaves it
      to a confirmation task. */
  ghost function Resumed(s: Sys, pid: nat, confirmed: bool, ok: bool): Sys
    requires pid in s.procs
  {
    var p := s.procs[pid];
    if confirmed
    then s.(table := if ok then ConfirmRow(s.table, p.item.id) else s.table,
            procs := s.procs[pid := p.(phase := Top)])
    else Exited(Confirming(s, p.item.id), pid, p.key)
  }

  /** A prompt steered or queued natively is left to a confirmation task at once, and the
      drainer goes on. */
  ghost function Passed(s: Sys, pid: nat): Sys
    requires pid in s.procs
  {
    WithProc(Confirming(s, s.procs[pid].item.id), pid, s.procs[pid].(phase := Top))
  }

  ghost function Woken(s: Sys, key: Key): Sys {
    s.(nextPid := s.nextPid + 1, tasks := s.tasks[key := s.nextPid],
       procs := s.procs[s.nextPid := Proc(Drain, key, "", Top, Ref(key, 0), Item(0, ""), false)])
  }

  ghost function ConfirmFinished(s: Sys, id: nat, removed: bool): Sys {
    s.(table := if removed then ConfirmRow(s.table, id) else s.table, confirming := s.confirming - {id})
  }

  /** A cancelled drainer takes no further action but its exception path. */
  ghost function Cancelled(s: Sys, key: Key): Sys {
    if key in s.tasks && s.tasks[key] in s.procs
    then s.(procs := s.procs[s.tasks[key] := s.procs[s.tasks[key]].(cancelled := true)],
            tasks := s.tasks - {key})
    else s
  }

  ghost function Dropped(s: Sys, key: Key, ok: bool): Sys {
    Unmapped(Deleted(s, set x | x in Queue(s, key) :: x.id, ok), key)
  }

  ghost function Discarded(s: Sys, pid: nat, ok: bool): Sys
    requires pid in s.procs
  {
    var route := s.procs[pid].key.route;
    Ended(s.(table := if ok then DeleteRoute(s.table, route) else s.table), pid, route)
  }

  // --- Crash and restore ---

  /** A queued row whose topic now resolves to another window. */
  predicate Moves(t: Table, bound: map<Route, string>, id: nat) {
    && IsQueued(t, id)
    && t.rows[id].key.route in bound
    && bound[t.rows[id].key.route] != ""
    && bound[t.rows[id].key.route] != t.rows[id].key.window
  }

  /** The spool after restore has retargeted every row that moves, except the rows
      whose retarget write failed. */
  function RetargetMoved(t: Table, bound: map<Route, string>, failed: set<nat>): Table {
    t.(rows := map id | id in t.rows ::
         if Moves(t, bound, id) && id !in failed
         then t.rows[id].(key := Key(t.rows[id].key.route, bound[t.rows[id].key.route]))
         else t.rows[id])
  }

  /** What restore may queue: a row whose retarget failed is skipped. */
  function Restorable(t: Table, bound: map<Route, string>, failed: set<nat>): Table {
    var r := RetargetMoved(t, bound, failed);
    r.(rows := r.rows - set id | id in failed && Moves(t, bound, id))
  }

  /** The process dies and a new one restores its memory from the spool. */
  ghost function Restarted(s: Sys, failed: set<nat>): Sys {
    var t := RetargetMoved(s.table, s.bound, failed);
    var q := Restorable(s.table, s.bound, failed);
    var keys := set id | id in q.rows && q.rows[id].state.Queued? :: q.rows[id].key;
    s.(table := t,
       queueOf := map key | key in keys :: Ref(key, s.serial),
       deques := map ref | ref in (set key | key in keys :: Ref(key, s.serial)) ::
                   Pending(q, ref.key, q.nextId),
       serial := s.serial + 1,
       procs := map[], tasks := map[], locks := map[],
       confirming := set id | id in t.rows && t.rows[id].state.Submitted?)
  }

  // --- Runs ---

  ghost function Initial(limit: nat): Sys {
    Sys(Table(map[], 1), limit, map[], map[], map[], 0, map[], 0, map[], map[], {}, [], map[])
  }

  /** `states` is a run of the system through `events`. */
  ghost predicate Run(states: seq<Sys>, events: seq<Event>) {
    && |states| == |events| + 1
    && forall i :: 0 <= i < |events| ==>
         Enabled(states[i], events[i]) && states[i + 1] == Step(states[i], events[i])
  }
}
