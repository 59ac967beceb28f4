/** Recovery after a crash, and submission order over whole runs. */
module PromptRestart {
  import opened PromptTable
  import opened PromptLifecycle
  import opened PromptAtMostOnce
  import opened PromptOrder
  import opened PromptOrderRuns

  // --- Every surviving row gets exactly one owner ---

  lemma RestartTable(s: Sys)
    ensures var t := Restarted(s, {}).table;
            && t.nextId == s.table.nextId && t.rows.Keys == s.table.rows.Keys
            && forall id :: id in t.rows ==>
                 && t.rows[id].state == s.table.rows[id].state
                 && t.rows[id].text == s.table.rows[id].text
                 && t.rows[id].key == ResolvedKey(s, id)
  {
  }

  lemma RestartQueue(s: Sys, key: Key)
    ensures var t := Restarted(s, {}); Queue(t, key) == Pending(t.table, key, t.table.nextId)
  {
    var t := Restarted(s, {});
    var p := Pending(t.table, key, t.table.nextId);
    assert Restorable(s.table, s.bound, {}) == t.table;
    PendingExact(t.table, key, t.table.nextId);
    if p != [] {
      assert p[0] in p;
      assert key in t.queueOf;
    }
  }

  /** With every retarget write succeeding: a queued row is in exactly one deque, the
      one of the target its topic resolves to now, deques hold nothing else and are in
      id order, and a submitted row has a confirmation task and no deque. */
  lemma RestartOwners(s: Sys)
    requires WellFormed(s.table)
    ensures var t := Restarted(s, {});
            && t.procs == map[] && t.tasks == map[] && t.locks == map[]
            && t.table.rows.Keys == s.table.rows.Keys
            && (forall id :: id in t.table.rows ==>
                  && t.table.rows[id].state == s.table.rows[id].state
                  && t.table.rows[id].text == s.table.rows[id].text
                  && t.table.rows[id].key == ResolvedKey(s, id))
            && (forall id, key :: IsQueued(t.table, id) ==>
                  (Has(Queue(t, key), id) <==> key == t.table.rows[id].key))
            && (forall key, x :: x in Queue(t, key) ==> IsQueued(t.table, x.id) && t.table.rows[x.id].text == x.text)
            && (forall key :: IdsAscend(Queue(t, key)))
            && (forall id :: id in t.confirming <==> id in t.table.rows && t.table.rows[id].state.Submitted?)
  {
    var t := Restarted(s, {});
    RestartTable(s);
    assert t.procs == map[] && t.tasks == map[] && t.locks == map[];
    assert forall id :: id in t.confirming <==> id in t.table.rows && t.table.rows[id].state.Submitted?;
    hide Restarted, Queue;
    forall key
      ensures IdsAscend(Queue(t, key))
      ensures forall x :: x in Queue(t, key) <==>
                x.id < t.table.nextId && IsQueued(t.table, x.id) && t.table.rows[x.id].key == key
                && t.table.rows[x.id].text == x.text
    {
      RestartQueue(s, key);
      PendingExact(t.table, key, t.table.nextId);
    }
    forall id, key | IsQueued(t.table, id)
      ensures Has(Queue(t, key), id) <==> key == t.table.rows[id].key
    {
      HasPending(t.table, key, id, Queue(t, key));
    }
  }

  /** Where a row belongs after restore: queued rows follow their topic. */
  function ResolvedKey(s: Sys, id: nat): Key
    requires id in s.table.rows
  {
    if Moves(s.table, s.bound, id)
    then Key(s.table.rows[id].key.route, s.bound[s.table.rows[id].key.route])
    else s.table.rows[id].key
  }

  lemma HasPending(t: Table, key: Key, id: nat, q: seq<Item>)
    requires IsQueued(t, id) && id < t.nextId
    requires forall x :: x in q <==>
               x.id < t.nextId && IsQueued(t, x.id) && t.rows[x.id].key == key && t.rows[x.id].text == x.text
    ensures Has(q, id) <==> key == t.rows[id].key
  {
    var x := Item(id, t.rows[id].text);
    if x in q {
      var i :| 0 <= i < |q| && q[i] == x;
    }
    if Has(q, id) {
      var i :| 0 <= i < |q| && q[i].id == id;
      assert q[i] in q;
    }
  }

  // --- When a restart keeps the order ---

  /** No row is retargeted onto a target that was sent a newer one. */
  ghost predicate RestartInOrder(s: Sys) {
    forall id :: Moves(s.table, s.bound, id) ==> AllSentBelow(s.sent, ResolvedKey(s, id), id)
  }

  lemma RestartFrontier(s: Sys)
    requires Safe(s) && Frontier(s.table, s.sent)
    ensures Frontier(Restarted(s, {}).table, s.sent) <==> RestartInOrder(s)
  {
    var t := Restarted(s, {}).table;
    assert forall id :: IsQueued(t, id) <==> IsQueued(s.table, id);
    assert forall id :: id in t.rows ==> t.rows[id].key == ResolvedKey(s, id);
    if RestartInOrder(s) {
      forall id | IsQueued(t, id)
        ensures AllSentBelow(s.sent, t.rows[id].key, id)
      {
        assert Moves(s.table, s.bound, id) || t.rows[id].key == s.table.rows[id].key;
      }
    } else {
      var id :| Moves(s.table, s.bound, id) && !AllSentBelow(s.sent, ResolvedKey(s, id), id);
      assert IsQueued(t, id);
    }
  }

  lemma RestartOrder(s: Sys)
    requires Safe(s) && Order(s)
    ensures Order(Restarted(s, {})) <==> RestartInOrder(s)
  {
    RestartFrontier(s);
    RestartRest(s);
    var t := Restarted(s, {});
    assert t.sent == s.sent;
    hide Safe, Restarted, Frontier, RestartInOrder, TasksOk, LinesOk, KeyOk, OwnedOk, HeadOk, DetachedOk, FrontOk,
      InOrder;
  }

  /** All of the invariant but the frontier holds after any restart. */
  lemma RestartRest(s: Sys)
    requires Safe(s) && Order(s)
    ensures var t := Restarted(s, {});
            && KeyOk(t.table, t.deques, t.procs) && OwnedOk(t.table, t.queueOf, t.deques, t.procs)
            && HeadOk(t.table, t.queueOf, t.deques, t.procs) && DetachedOk(t.table, t.queueOf, t.deques)
            && FrontOk(t.table, t.procs, t.sent) && InOrder(t.sent)
            && TasksOk(t.procs, t.tasks, t.locks, t.nextPid) && LinesOk(t.queueOf, t.deques, t.serial, t.procs)
  {
    var t := Restarted(s, {});
    RestartLines(s);
    RestartIdle(s);
    hide Safe, Order, Restarted, TasksOk, LinesOk, KeyOk, DetachedOk, FrontOk, HeadOk;
    RestartOwned(s);
  }

  lemma RestartIdle(s: Sys)
    requires Order(s)
    ensures var t := Restarted(s, {});
            && HeadOk(t.table, t.queueOf, t.deques, t.procs) && FrontOk(t.table, t.procs, t.sent) && InOrder(t.sent)
            && TasksOk(t.procs, t.tasks, t.locks, t.nextPid)
  {
  }

  lemma RestartOwned(s: Sys)
    requires Safe(s)
    ensures var t := Restarted(s, {}); OwnedOk(t.table, t.queueOf, t.deques, t.procs)
  {
    var t := Restarted(s, {});
    assert forall key :: Line(t.queueOf, t.deques, key) == Queue(t, key);
    hide Restarted, Queue, Line;
    RestartOwners(s);
  }

  lemma RestartLines(s: Sys)
    requires Safe(s)
    ensures var t := Restarted(s, {});
            && LinesOk(t.queueOf, t.deques, t.serial, t.procs) && DetachedOk(t.table, t.queueOf, t.deques)
            && KeyOk(t.table, t.deques, t.procs)
  {
    var t := Restarted(s, {});
    var q := Restorable(s.table, s.bound, {});
    assert q.rows == t.table.rows;
    forall ref | ref in t.deques
      ensures IdsAscend(t.deques[ref]) && MappedRef(t.queueOf, ref)
      ensures forall x :: x in t.deques[ref] && x.id in t.table.rows ==> t.table.rows[x.id].key == ref.key
    {
      PendingExact(q, ref.key, q.nextId);
    }
  }

  // --- Whole runs ---

  ghost predicate FaultFreeRun(states: seq<Sys>, events: seq<Event>) {
    Run(states, events) && forall i :: 0 <= i < |events| ==> FaultFree(states[i], events[i])
  }

  lemma {:induction false} RunOrdered(states: seq<Sys>, events: seq<Event>, n: nat)
    requires FaultFreeRun(states, events) && Safe(states[0]) && Order(states[0]) && n < |states|
    requires forall i :: 0 <= i < |events| && events[i].Restart? ==> RestartInOrder(states[i])
    ensures Safe(states[n]) && Order(states[n])
  {
    if n > 0 {
      RunOrdered(states, events, n - 1);
      OrderedStep(states, events, n - 1);
      hide *;
    }
  }

  lemma OrderedStep(states: seq<Sys>, events: seq<Event>, n: nat)
    requires FaultFreeRun(states, events) && n < |events|
    requires Safe(states[n]) && Order(states[n]) && (events[n].Restart? ==> RestartInOrder(states[n]))
    ensures n + 1 < |states| && Safe(states[n + 1]) && Order(states[n + 1])
  {
    hide Safe, Order, RestartInOrder, Step, Enabled, FaultFree;
    StepSafe(states[n], events[n]);
    OrderEvent(states[n], events[n]);
  }

  lemma OrderEvent(s: Sys, e: Event)
    requires Safe(s) && Order(s) && Enabled(s, e) && FaultFree(s, e) && (e.Restart? ==> RestartInOrder(s))
    ensures Order(Step(s, e))
  {
    hide Safe, Order, RestartInOrder;
    if e.Restart? {
      RestartOrder(s);
    } else {
      OrderStep(s, e);
    }
  }

  /** Submission order: over every fault-free run in which no restart retargets a row
      onto a target that was already sent a newer one, each target is sent prompts in
      the order they were accepted. */
  lemma SubmissionsInOrder(states: seq<Sys>, events: seq<Event>, n: nat, limit: nat)
    requires FaultFreeRun(states, events) && n < |states| && states[0] == Initial(limit)
    requires forall i :: 0 <= i < |events| && events[i].Restart? ==> RestartInOrder(states[i])
    ensures forall i, j :: 0 <= i < j < |states[n].sent| && states[n].sent[i].key == states[n].sent[j].key ==>
              states[n].sent[i].id < states[n].sent[j].id
  {
    RunOrdered(states, events, n);
  }

  // --- Where the rows are, whatever was sent ---

  /** The system without its history of submissions. */
  ghost function Erased(s: Sys): Sys {
    s.(sent := [])
  }

  lemma ErasedSafe(s: Sys)
    requires Safe(s)
    ensures Safe(Erased(s)) && RestartInOrder(Erased(s))
  {
  }

  lemma ErasedOrder(s: Sys)
    requires Order(s)
    ensures Order(Erased(s))
  {
    hide TasksOk, LinesOk, KeyOk, OwnedOk, HeadOk, DetachedOk, AllQueuedAbove;
  }

  lemma ErasedEnabled(s: Sys, e: Event)
    requires Enabled(s, e) && FaultFree(s, e)
    ensures Enabled(Erased(s), e) && FaultFree(Erased(s), e)
  {
  }

  lemma ErasedFields(s: Sys)
    ensures Erased(s).procs == s.procs && Erased(s).table == s.table && Erased(s).queueOf == s.queueOf
    ensures Erased(s).deques == s.deques
  {
  }

  lemma ErasedQueues(s: Sys)
    ensures forall key :: Queue(Erased(s), key) == Queue(s, key)
    ensures forall ref :: Deque(Erased(s), ref) == Deque(s, ref)
  {
  }

  lemma ErasedEnds(s: Sys, pid: nat, key: Key)
    ensures Erased(Ended(s, pid, key.route)) == Ended(Erased(s), pid, key.route)
    ensures Erased(Exited(s, pid, key)) == Exited(Erased(s), pid, key)
  {
    ErasedQueues(s);
    hide Queue;
  }

  lemma ErasedDeques(s: Sys, ref: Ref, key: Key, item: Item)
    ensures Erased(Popped(s, ref)) == Popped(Erased(s), ref)
    ensures Erased(PoppedIfHead(s, ref, item)) == PoppedIfHead(Erased(s), ref, item)
    ensures Erased(UnmappedIfEmpty(s, key, ref)) == UnmappedIfEmpty(Erased(s), key, ref)
  {
    ErasedQueues(s);
    hide Deque, Queue;
  }

  lemma ErasedRows(s: Sys, ids: set<nat>, ok: bool)
    ensures Erased(Deleted(s, ids, ok)) == Deleted(Erased(s), ids, ok)
    ensures Deleted(s, ids, ok).procs == s.procs
  {
  }

  lemma ErasedConfirming(s: Sys, id: nat)
    ensures Erased(Confirming(s, id)) == Confirming(Erased(s), id)
  {
  }

  lemma ErasedProc(s: Sys, pid: nat, p: Proc)
    ensures Erased(WithProc(s, pid, p)) == WithProc(Erased(s), pid, p)
  {
  }

  lemma ErasedEnqueued(s: Sys, key: Key, text: string)
    ensures Erased(Mapped(s, key)) == Mapped(Erased(s), key)
    ensures Erased(Enqueued(s, key, text)) == Enqueued(Erased(s), key, text)
    ensures Erased(Inserted(s, key, text)) == Inserted(Erased(s), key, text)
  {
    ErasedQueues(Mapped(s, key));
    hide Deque, Queue, Insert;
  }

  lemma ErasedDrainer(s: Sys, e: Event)
    requires Enabled(s, e) && Enabled(Erased(s), e) && OfDrainer(e)
    ensures Erased(Step(s, e)) == Erased(Step(Erased(s), e))
  {
    if e.DrainTop? || e.DrainLook? || e.DrainClear? || e.DrainAfter? {
      ErasedAtWork(s, e);
    } else {
      hide Queue, RouteHasDrain, LockFree, Exited, ConfirmFinished, Woken, Passed, WithProc, Erased;
      ErasedFields(s);
      match e
      case DrainPass(pid) => ErasedPass(s, pid);
      case DrainRetry(pid) => ErasedRetry(s, pid);
      case DrainDie(pid) => ErasedDie(s, pid);
      case Wake(key) => ErasedWoken(s, key);
      case ConfirmDone(id, confirmed, ok) => ErasedConfirm(s, id, confirmed && ok);
    }
  }

  lemma ErasedAtWork(s: Sys, e: Event)
    requires Enabled(s, e) && Enabled(Erased(s), e)
    requires e.DrainTop? || e.DrainLook? || e.DrainClear? || e.DrainAfter?
    ensures Erased(Step(s, e)) == Erased(Step(Erased(s), e))
  {
    hide Queue, LoopTop, Cleared, Resumed, LookedDrain, Erased;
    ErasedFields(s);
    match e
    case DrainTop(pid, expired, ok) => ErasedLoop(s, pid, expired, ok);
    case DrainLook(pid, sight) => ErasedLookDrain(s, pid, sight);
    case DrainClear(pid, ok) => ErasedClear(s, pid, ok);
    case DrainAfter(pid, confirmed, ok) => ErasedResume(s, pid, confirmed, ok);
  }

  lemma ErasedLoop(s: Sys, pid: nat, expired: nat, ok: bool)
    requires Enabled(s, DrainTop(pid, expired, ok)) && Enabled(Erased(s), DrainTop(pid, expired, ok))
    ensures Erased(LoopTop(s, pid, expired, ok)) == Erased(LoopTop(Erased(s), pid, expired, ok))
  {
    hide Queue, LoopTop;
    ErasedTop(s, pid, expired, ok);
  }

  lemma ErasedRetry(s: Sys, pid: nat)
    requires pid in s.procs && pid in Erased(s).procs
    ensures Erased(WithProc(s, pid, s.procs[pid].(phase := Top)))
              == Erased(WithProc(Erased(s), pid, Erased(s).procs[pid].(phase := Top)))
  {
  }

  lemma ErasedDie(s: Sys, pid: nat)
    requires pid in s.procs && pid in Erased(s).procs
    ensures Erased(Exited(s, pid, s.procs[pid].key)) == Erased(Exited(Erased(s), pid, Erased(s).procs[pid].key))
  {
    ErasedEnds(s, pid, s.procs[pid].key);
    hide Exited;
  }

  lemma ErasedPass(s: Sys, pid: nat)
    requires pid in s.procs && pid in Erased(s).procs
    ensures Erased(Passed(s, pid)) == Erased(Passed(Erased(s), pid))
  {
  }

  lemma ErasedWoken(s: Sys, key: Key)
    ensures Erased(Woken(s, key)) == Erased(Woken(Erased(s), key))
  {
  }

  lemma ErasedConfirm(s: Sys, id: nat, removed: bool)
    ensures Erased(ConfirmFinished(s, id, removed)) == Erased(ConfirmFinished(Erased(s), id, removed))
  {
  }

  lemma ErasedLookDrain(s: Sys, pid: nat, sight: Sight)
    requires pid in s.procs && pid in Erased(s).procs
    ensures Erased(LookedDrain(s, pid, sight)) == Erased(LookedDrain(Erased(s), pid, sight))
  {
    hide Exited;
    ErasedEnds(s, pid, s.procs[pid].key);
  }

  lemma ErasedResume(s: Sys, pid: nat, confirmed: bool, ok: bool)
    requires pid in s.procs && pid in Erased(s).procs
    ensures Erased(Resumed(s, pid, confirmed, ok)) == Erased(Resumed(Erased(s), pid, confirmed, ok))
  {
    hide Exited, ConfirmRow;
    ErasedEnds(Confirming(s, s.procs[pid].item.id), pid, s.procs[pid].key);
  }

  lemma ErasedTop(s: Sys, pid: nat, expired: nat, ok: bool)
    requires pid in s.procs && expired <= |Queue(s, s.procs[pid].key)|
    requires expired <= |Queue(Erased(s), s.procs[pid].key)|
    ensures Erased(LoopTop(s, pid, expired, ok)) == Erased(LoopTop(Erased(s), pid, expired, ok))
  {
    hide Exited, WithProc, Deleted;
    ErasedQueues(s);
    var p := s.procs[pid];
    var q := Queue(s, p.key);
    assert q != [] ==> p.key in s.queueOf;
    hide Queue;
    ErasedEnds(s, pid, p.key);
    if q != [] {
      var ids, ref := set x | x in q[..expired] :: x.id, s.queueOf[p.key];
      var removed := Deleted(s, ids, ok);
      var rest := removed.(deques := s.deques[ref := q[expired..]]);
      ErasedRows(s, ids, ok);
      ErasedEnds(rest, pid, p.key);
      ErasedProc(rest, pid, p.(phase := Capturing, queue := ref));
    }
  }

  lemma ErasedClear(s: Sys, pid: nat, ok: bool)
    requires pid in s.procs && pid in Erased(s).procs
    ensures Erased(Cleared(s, pid, ok)) == Erased(Cleared(Erased(s), pid, ok))
  {
    hide Exited, DeleteTarget;
    var p := s.procs[pid];
    var t := s.(table := if ok then DeleteTarget(s.table, p.key) else s.table,
                deques := if p.queue in s.deques then s.deques[p.queue := []] else s.deques);
    ErasedEnds(t, pid, p.key);
  }

  lemma ErasedHandler(s: Sys, e: Event)
    requires Enabled(s, e) && FaultFree(s, e) && Enabled(Erased(s), e) && !OfDrainer(e) && !e.Restart? && !e.Settle?
    ensures Erased(Step(s, e)) == Erased(Step(Erased(s), e))
  {
    hide Queue, Deque, RouteHasDrain, RouteHasQueue, HasRoom, LockFree, Enqueued, Mapped, Inserted, EnteredImmediate,
      LookedImmediate, Compared, Dropped, Discarded, Cancelled, Ended, EnteredNative;
    match e
    case Interrupt(key, text, room) => ErasedEnqueued(s, key, text);
    case EnterImmediate(pid, room, busy) => ErasedEntered(s, pid, room, busy);
    case EnterNative(pid, room, busy) => ErasedNative(s, pid, room, busy);
    case LookImmediate(pid, sight, ok) => ErasedLook(s, pid, sight, ok);
    case Cas(pid, raises, applied, ok) => ErasedCas(s, pid, applied);
    case DiscardDrop(_, key, ok) => ErasedDrop(s, key, ok);
    case DiscardCancel(_, key) => ErasedCancel(s, key);
    case DiscardFinish(pid, ok) => ErasedDiscard(s, pid, ok);
    case Defer(pid) => ErasedEnds(s, pid, s.procs[pid].key);
    case Abort(pid) => ErasedEnds(s, pid, s.procs[pid].key);
    case _ =>
  }

  lemma ErasedNative(s: Sys, pid: nat, room: bool, busy: bool)
    requires pid in s.procs
    ensures Erased(EnteredNative(s, pid, room, busy)) == Erased(EnteredNative(Erased(s), pid, room, busy))
  {
    hide Inserted, Ended;
    ErasedEnqueued(s, s.procs[pid].key, s.procs[pid].text);
    ErasedEnds(s, pid, s.procs[pid].key);
  }

  lemma ErasedCas(s: Sys, pid: nat, applied: bool)
    requires pid in s.procs
    ensures Erased(Compared(s, pid, false, applied, true)) == Erased(Compared(Erased(s), pid, false, applied, true))
  {
    hide Compared;
    if IsQueued(s.table, s.procs[pid].item.id) {
      ErasedWin(s, pid, applied);
    } else {
      ErasedLose(s, pid, applied);
    }
  }

  lemma ErasedWin(s: Sys, pid: nat, applied: bool)
    requires pid in s.procs && IsQueued(s.table, s.procs[pid].item.id)
    ensures Erased(Compared(s, pid, false, applied, true)) == Erased(Compared(Erased(s), pid, false, applied, true))
  {
    var p := s.procs[pid];
    ErasedProc(s.(table := Submit(s.table, p.item.id)), pid, p.(phase := Won));
    hide Ended, Deleted, Submit, IsQueued, WithProc;
  }

  lemma ErasedLose(s: Sys, pid: nat, applied: bool)
    requires pid in s.procs && !IsQueued(s.table, s.procs[pid].item.id)
    ensures Erased(Compared(s, pid, false, applied, true)) == Erased(Compared(Erased(s), pid, false, applied, true))
  {
    ErasedLost(s, pid, s.procs[pid], true);
    ErasedFields(s);
    hide Ended, Deleted, Submit, IsQueued, WithProc, Erased;
  }

  lemma ErasedLost(s: Sys, pid: nat, p: Proc, ok: bool)
    ensures Erased(WithProc(s, pid, p.(phase := Top))) == Erased(WithProc(Erased(s), pid, p.(phase := Top)))
    ensures Erased(Ended(s, pid, p.key.route)) == Erased(Ended(Erased(s), pid, p.key.route))
    ensures Erased(Ended(Deleted(s, {p.item.id}, ok), pid, p.key.route))
              == Erased(Ended(Deleted(Erased(s), {p.item.id}, ok), pid, p.key.route))
  {
    hide Ended, Deleted, WithProc, Exited;
    ErasedProc(s, pid, p.(phase := Top));
    ErasedRows(s, {p.item.id}, ok);
    ErasedEnds(s, pid, p.key);
    ErasedEnds(Deleted(s, {p.item.id}, ok), pid, p.key);
  }

  lemma ErasedDrop(s: Sys, key: Key, ok: bool)
    ensures Erased(Dropped(s, key, ok)) == Dropped(Erased(s), key, ok)
  {
    ErasedQueues(s);
    hide Queue, Delete;
  }

  lemma ErasedCancel(s: Sys, key: Key)
    ensures Erased(Cancelled(s, key)) == Cancelled(Erased(s), key)
  {
  }

  lemma ErasedDiscard(s: Sys, pid: nat, ok: bool)
    requires pid in s.procs
    ensures Erased(Discarded(s, pid, ok)) == Erased(Discarded(Erased(s), pid, ok))
  {
    hide Ended, DeleteRoute;
    var route := s.procs[pid].key.route;
    ErasedEnds(s.(table := if ok then DeleteRoute(s.table, route) else s.table), pid, s.procs[pid].key);
  }

  lemma ErasedEntered(s: Sys, pid: nat, room: bool, busy: bool)
    requires pid in s.procs
    ensures Erased(EnteredImmediate(s, pid, room, busy)) == Erased(EnteredImmediate(Erased(s), pid, room, busy))
  {
    hide Enqueued, Mapped, Ended, Exited, Queue, Deque;
    var p := s.procs[pid];
    ErasedEnqueued(s, p.key, p.text);
    ErasedQueues(Enqueued(s, p.key, p.text));
    ErasedEnds(Enqueued(s, p.key, p.text), pid, p.key);
    ErasedEnds(Mapped(s, p.key), pid, p.key);
  }

  lemma ErasedLook(s: Sys, pid: nat, sight: Sight, ok: bool)
    requires pid in s.procs
    ensures Erased(LookedImmediate(s, pid, sight, ok)) == Erased(LookedImmediate(Erased(s), pid, sight, ok))
  {
    hide Deleted, Popped, UnmappedIfEmpty, Ended, Deque, WithProc, Exited;
    var p := s.procs[pid];
    match sight
    case Go => ErasedProc(s, pid, p.(phase := Ready));
    case Later => ErasedEnds(s, pid, p.key);
    case Fail => ErasedFail(s, pid, p, ok);
  }

  lemma ErasedFail(s: Sys, pid: nat, p: Proc, ok: bool)
    ensures var d := if Deque(s, p.queue) != [] && Deque(s, p.queue)[0] == p.item
                     then Popped(Deleted(s, {p.item.id}, ok), p.queue) else s;
            var z := if Deque(Erased(s), p.queue) != [] && Deque(Erased(s), p.queue)[0] == p.item
                     then Popped(Deleted(Erased(s), {p.item.id}, ok), p.queue) else Erased(s);
            Erased(Ended(UnmappedIfEmpty(d, p.key, p.queue), pid, p.key.route))
              == Ended(UnmappedIfEmpty(z, p.key, p.queue), pid, p.key.route)
  {
    hide Deleted, Popped, UnmappedIfEmpty, Ended, Exited, Deque, Queue, Erased;
    var removed := Deleted(s, {p.item.id}, ok);
    var d := if Deque(s, p.queue) != [] && Deque(s, p.queue)[0] == p.item then Popped(removed, p.queue) else s;
    ErasedQueues(s);
    ErasedRows(s, {p.item.id}, ok);
    ErasedDeques(removed, p.queue, p.key, p.item);
    ErasedDeques(d, p.queue, p.key, p.item);
    ErasedEnds(UnmappedIfEmpty(d, p.key, p.queue), pid, p.key);
  }

  lemma ErasedSettle(s: Sys, pid: nat, outcome: Outcome, ok: bool)
    requires pid in s.procs
    ensures Erased(Settled(s, pid, outcome, ok)) == Erased(Settled(Erased(s), pid, outcome, ok))
  {
    hide Settled;
    if s.procs[pid].kind == Native {
      ErasedSettleNative(s, pid, outcome, ok);
    } else if s.procs[pid].kind == Drain {
      ErasedSettleDrain(s, pid, outcome, ok);
    } else {
      ErasedSettleImmediate(s, pid, outcome, ok);
    }
  }

  lemma ErasedSettleNative(s: Sys, pid: nat, outcome: Outcome, ok: bool)
    requires pid in s.procs && s.procs[pid].kind == Native
    ensures Erased(Settled(s, pid, outcome, ok)) == Erased(Settled(Erased(s), pid, outcome, ok))
  {
    hide Ended, Exited, Delete;
    var p := s.procs[pid];
    ErasedEnds(Deleted(s, {p.item.id}, ok), pid, p.key);
    ErasedEnds(Confirming(s, p.item.id), pid, p.key);
  }

  lemma ErasedSettleDrain(s: Sys, pid: nat, outcome: Outcome, ok: bool)
    requires pid in s.procs && s.procs[pid].kind == Drain
    ensures Erased(Settled(s, pid, outcome, ok)) == Erased(Settled(Erased(s), pid, outcome, ok))
  {
    hide Ended, Exited, Deleted, Popped, PoppedIfHead, Deque, Queue, Confirming;
    var p := s.procs[pid];
    ErasedQueues(s);
    ErasedEnds(s, pid, p.key);
    ErasedDeques(s, p.queue, p.key, p.item);
    ErasedEnds(Confirming(PoppedIfHead(s, p.queue, p.item), p.item.id), pid, p.key);
    ErasedConfirming(PoppedIfHead(s, p.queue, p.item), p.item.id);
    if Deque(s, p.queue) != [] {
      var removed := Deleted(s, {Deque(s, p.queue)[0].id}, ok);
      ErasedRows(s, {Deque(s, p.queue)[0].id}, ok);
      ErasedDeques(removed, p.queue, p.key, p.item);
    }
  }

  lemma ErasedSettleImmediate(s: Sys, pid: nat, outcome: Outcome, ok: bool)
    requires pid in s.procs && s.procs[pid].kind != Drain && s.procs[pid].kind != Native
    ensures Erased(Settled(s, pid, outcome, ok)) == Erased(Settled(Erased(s), pid, outcome, ok))
  {
    var p := s.procs[pid];
    ErasedQueues(s);
    ErasedEnds(s, pid, p.key);
    var removed := if outcome.Failure? then Deleted(s, {p.item.id}, ok) else s;
    ErasedRows(s, {p.item.id}, ok);
    ErasedDeques(s, p.queue, p.key, p.item);
    ErasedDeques(removed, p.queue, p.key, p.item);
    var popped := if outcome.Raised? then PoppedIfHead(s, p.queue, p.item) else Popped(removed, p.queue);
    ErasedPopped(popped, pid, p);
    hide Ended, Exited, Deleted, Popped, PoppedIfHead, UnmappedIfEmpty, Deque, Queue, Confirming;
  }

  lemma ErasedPopped(popped: Sys, pid: nat, p: Proc)
    ensures var unmapped := UnmappedIfEmpty(popped, p.key, p.queue);
            var erased := UnmappedIfEmpty(Erased(popped), p.key, p.queue);
            && Erased(Ended(unmapped, pid, p.key.route)) == Ended(erased, pid, p.key.route)
            && Erased(Ended(Confirming(unmapped, p.item.id), pid, p.key.route))
                 == Ended(Confirming(erased, p.item.id), pid, p.key.route)
  {
    hide Ended, Exited, UnmappedIfEmpty, Deque, Queue, Confirming, Popped, PoppedIfHead, Erased;
    var unmapped := UnmappedIfEmpty(popped, p.key, p.queue);
    ErasedDeques(popped, p.queue, p.key, p.item);
    ErasedConfirming(unmapped, p.item.id);
    ErasedEnds(unmapped, pid, p.key);
    ErasedEnds(Confirming(unmapped, p.item.id), pid, p.key);
  }

  lemma ErasedRestart(s: Sys)
    ensures Erased(Restarted(s, {})) == Erased(Restarted(Erased(s), {}))
  {
  }

  /** No event depends on the history. */
  lemma ErasedStep(s: Sys, e: Event)
    requires Enabled(s, e) && FaultFree(s, e)
    ensures Enabled(Erased(s), e) && FaultFree(Erased(s), e)
    ensures Erased(Step(s, e)) == Erased(Step(Erased(s), e))
  {
    ErasedEnabled(s, e);
    if e.Restart? {
      ErasedRestart(s);
    } else if e.Settle? {
      ErasedSettle(s, e.pid, e.outcome, e.ok);
    } else if OfDrainer(e) {
      ErasedDrainer(s, e);
    } else {
      ErasedHandler(s, e);
    }
    hide Restarted, Settled, OfDrainer;
  }

  lemma {:induction false} RunPlaced(states: seq<Sys>, events: seq<Event>, n: nat)
    requires FaultFreeRun(states, events) && Safe(states[0]) && Order(states[0]) && n < |states|
    ensures Safe(states[n]) && Order(Erased(states[n]))
  {
    if n == 0 {
      ErasedOrder(states[0]);
    } else {
      RunPlaced(states, events, n - 1);
      PlacedStep(states, events, n - 1);
      hide *;
    }
  }

  lemma PlacedStep(states: seq<Sys>, events: seq<Event>, n: nat)
    requires FaultFreeRun(states, events) && n < |events| && Safe(states[n]) && Order(Erased(states[n]))
    ensures n + 1 < |states| && Safe(states[n + 1]) && Order(Erased(states[n + 1]))
  {
    hide Safe, Order, RestartInOrder, Step, Enabled, FaultFree, Erased;
    var s, e := states[n], events[n];
    StepSafe(s, e);
    ErasedSafe(s);
    ErasedStep(s, e);
    OrderEvent(Erased(s), e);
    ErasedOrder(Step(Erased(s), e));
  }

  /** In every state of every fault-free run, however its restarts retarget, each deque in
      use is in id order, and no queued row is orphaned: it is in the deque of its own
      target, or a native sender is about to win it. */
  lemma NoRowOrphaned(states: seq<Sys>, events: seq<Event>, n: nat, limit: nat)
    requires FaultFreeRun(states, events) && n < |states| && states[0] == Initial(limit)
    ensures var s := states[n];
            && (forall key :: IdsAscend(Queue(s, key)))
            && (forall id :: IsQueued(s.table, id) ==>
                  Has(Queue(s, s.table.rows[id].key), id) || HeldByNative(s.procs, id))
  {
    RunPlaced(states, events, n);
    hide Order, Safe, Has, HeldByNative, IdsAscend;
    OwnedQueues(Erased(states[n]));
    ErasedQueues(states[n]);
    hide Queue, FaultFreeRun;
  }

  lemma OwnedQueues(s: Sys)
    requires Order(s)
    ensures forall key :: IdsAscend(Queue(s, key))
    ensures forall id :: IsQueued(s.table, id) ==>
              Has(Queue(s, s.table.rows[id].key), id) || HeldByNative(s.procs, id)
  {
    assert forall key :: Line(s.queueOf, s.deques, key) == Queue(s, key);
    hide HeldByNative, Has;
  }

  // --- The condition on restarts is exact ---

  /** A fault-free run without a restart, whose drainers start behind open gates. */
  ghost predicate Continues(s: Sys, states: seq<Sys>, events: seq<Event>) {
    && FaultFreeRun(states, events) && states[0] == s
    && forall i :: 0 <= i < |events| ==>
         !events[i].Restart? && (events[i].Wake? ==> !Gated(states[i], events[i].key))
  }

  ghost predicate Faultless(s: Sys, e: Event, t: Sys) {
    Enabled(s, e) && FaultFree(s, e) && t == Step(s, e)
  }

  /** A woken drainer drops the first `j` items of its line as expired and attaches. */
  lemma DrainAttaches(s: Sys, key: Key, j: nat) returns (a: Sys, t: Sys)
    requires !RouteHasDrain(s, key.route) && j < |Queue(s, key)|
    ensures Faultless(s, Wake(key), a) && Faultless(a, DrainTop(s.nextPid, j, true), t)
    ensures At(t, s.nextPid, Drain, Capturing) && t.procs[s.nextPid].key == key
    ensures Deque(t, t.procs[s.nextPid].queue) == Queue(s, key)[j..]
    ensures t.table == Delete(s.table, set x | x in Queue(s, key)[..j] :: x.id)
    ensures t.sent == s.sent && t.bound == s.bound
  {
    a := Woken(s, key);
    assert Queue(a, key) == Queue(s, key);
    t := LoopTop(a, s.nextPid, j, true);
  }

  /** An attached drainer hands over the head of its deque. */
  lemma DrainSubmits(s: Sys, pid: nat) returns (a: Sys, b: Sys, t: Sys)
    requires At(s, pid, Drain, Capturing) && Deque(s, s.procs[pid].queue) != []
    requires IsQueued(s.table, Deque(s, s.procs[pid].queue)[0].id)
    ensures Faultless(s, DrainLook(pid, Go), a) && Faultless(a, Cas(pid, false, false, true), b)
    ensures Faultless(b, Hand(pid), t)
    ensures var x := Deque(s, s.procs[pid].queue)[0];
            && t.table == Submit(s.table, x.id) && t.bound == s.bound
            && t.sent == s.sent + [Submission(x.id, s.procs[pid].key, x.text)]
            && At(t, pid, Drain, Sent) && t.procs[pid].item == x && t.procs[pid].queue == s.procs[pid].queue
            && Deque(t, t.procs[pid].queue) == Deque(s, s.procs[pid].queue)
  {
    a := LookedDrain(s, pid, Go);
    b := Compared(a, pid, false, false, true);
    t := HandedOver(b, pid);
  }

  /** The five events by which one drainer hands over item `j` of a line. */
  lemma DrainHands(s: Sys, key: Key, j: nat) returns (states: seq<Sys>, events: seq<Event>)
    requires !RouteHasDrain(s, key.route) && j < |Queue(s, key)|
    requires IsQueued(s.table, Queue(s, key)[j].id) && IdsAscend(Queue(s, key))
    ensures FaultFreeRun(states, events) && states[0] == s
    ensures var t := states[|states| - 1];
            && t.bound == s.bound
            && t.sent == s.sent + [Submission(Queue(s, key)[j].id, key, Queue(s, key)[j].text)]
            && t.table == Submit(Delete(s.table, set x | x in Queue(s, key)[..j] :: x.id), Queue(s, key)[j].id)
            && At(t, s.nextPid, Drain, Sent) && t.procs[s.nextPid].item == Queue(s, key)[j]
            && Deque(t, t.procs[s.nextPid].queue) == Queue(s, key)[j..]
    ensures events == [Wake(key), DrainTop(s.nextPid, j, true), DrainLook(s.nextPid, Go),
                       Cas(s.nextPid, false, false, true), Hand(s.nextPid)]
  {
    hide Queue, RouteHasDrain, Enabled, Step, FaultFree, IsQueued, Delete, Submit, IdsAscend, At, Deque;
    var pid := s.nextPid;
    var s1, s2 := DrainAttaches(s, key, j);
    NextQueued(s.table, Queue(s, key), j);
    var s3, s4, s5 := DrainSubmits(s2, pid);
    events := [Wake(key), DrainTop(pid, j, true), DrainLook(pid, Go), Cas(pid, false, false, true), Hand(pid)];
    states := [s, s1, s2, s3, s4, s5];
  }

  lemma NextQueued(t: Table, q: seq<Item>, j: nat)
    requires j < |q| && IdsAscend(q) && IsQueued(t, q[j].id)
    ensures IsQueued(Delete(t, set x | x in q[..j] :: x.id), q[j..][0].id)
  {
    forall x | x in q[..j]
      ensures x.id != q[j].id
    {
      var i :| 0 <= i < j && q[..j][i] == x;
      assert q[i] == x;
    }
  }

  /** The spool once the submissions `ids` are confirmed. */
  ghost function Confirmed(t: Table, ids: set<nat>): Table {
    t.(rows := map id | id in t.rows && !(id in ids && t.rows[id].state.Submitted?) :: t.rows[id])
  }

  /** The confirmations of `ids` can all come at once. */
  lemma {:induction false} ConfirmsAll(s: Sys, ids: set<nat>) returns (states: seq<Sys>, events: seq<Event>)
    requires ids <= s.confirming
    ensures Continues(s, states, events)
    ensures states[|events|] == s.(table := Confirmed(s.table, ids), confirming := s.confirming - ids)
    decreases |ids|
  {
    if ids == {} {
      states, events := [s], [];
      assert Confirmed(s.table, ids) == s.table && s.confirming - ids == s.confirming;
    } else {
      var id :| id in ids;
      var t := ConfirmFinished(s, id, true);
      OneConfirmed(s.table, ids, id);
      assert s.confirming - {id} - (ids - {id}) == s.confirming - ids;
      assert Faultless(s, ConfirmDone(id, true, true), t);
      hide Enabled, Step, FaultFree, Confirmed;
      var rest, later := ConfirmsAll(t, ids - {id});
      states, events := [s] + rest, [ConfirmDone(id, true, true)] + later;
      After(s, ConfirmDone(id, true, true), rest, later);
    }
  }

  lemma OneConfirmed(t: Table, ids: set<nat>, id: nat)
    requires id in ids
    ensures Confirmed(ConfirmRow(t, id), ids - {id}) == Confirmed(t, ids)
  {
  }

  lemma After(s: Sys, e: Event, states: seq<Sys>, events: seq<Event>)
    requires |states| > 0 && Continues(states[0], states, events) && Faultless(s, e, states[0]) && e.ConfirmDone?
    ensures Continues(s, [s] + states, [e] + events)
  {
    hide Enabled, Step, FaultFree, Gated;
    var ss, es := [s] + states, [e] + events;
    forall i | 0 <= i < |es|
      ensures Faultless(ss[i], es[i], ss[i + 1]) && !es[i].Restart? && (es[i].Wake? ==> !Gated(ss[i], es[i].key))
    {
      if i > 0 {
        assert Faultless(states[i - 1], events[i - 1], states[i]);
      }
    }
  }

  lemma Joined(s: Sys, a: seq<Sys>, ea: seq<Event>, b: seq<Sys>, eb: seq<Event>)
    requires Continues(s, a, ea) && Continues(a[|ea|], b, eb)
    ensures Continues(s, a + b[1..], ea + eb) && (a + b[1..])[|ea + eb|] == b[|eb|]
  {
    hide Enabled, Step, FaultFree, Gated;
    var ss, es := a + b[1..], ea + eb;
    forall i | 0 <= i < |es|
      ensures Faultless(ss[i], es[i], ss[i + 1]) && !es[i].Restart? && (es[i].Wake? ==> !Gated(ss[i], es[i].key))
    {
      if i < |ea| {
        assert Faultless(a[i], ea[i], a[i + 1]);
      } else {
        assert Faultless(b[i - |ea|], eb[i - |ea|], b[i - |ea| + 1]);
      }
    }
  }

  lemma DrainHandsOpen(s: Sys, key: Key, j: nat) returns (states: seq<Sys>, events: seq<Event>)
    requires !Gated(s, key) && !RouteHasDrain(s, key.route) && j < |Queue(s, key)|
    requires IsQueued(s.table, Queue(s, key)[j].id) && IdsAscend(Queue(s, key))
    ensures Continues(s, states, events)
    ensures states[|events|].sent == s.sent + [Submission(Queue(s, key)[j].id, key, Queue(s, key)[j].text)]
  {
    hide Queue, RouteHasDrain, Enabled, Step, FaultFree, IsQueued, Delete, Submit, IdsAscend, At, Deque, Gated;
    states, events := DrainHands(s, key, j);
  }

  /** A restarted system once every submission is confirmed: all gates are open. */
  lemma GatesOpen(s: Sys)
    requires WellFormed(s.table)
    ensures var t := Restarted(s, {});
            var u := t.(table := Confirmed(t.table, t.confirming), confirming := {});
            && (forall key :: !Gated(u, key)) && !(exists route :: RouteHasDrain(u, route))
            && (forall key :: Queue(u, key) == Queue(t, key) && IdsAscend(Queue(u, key)))
            && (forall id :: IsQueued(u.table, id) <==> IsQueued(t.table, id))
  {
    RestartOwners(s);
    hide Restarted, IdsAscend, Has;
  }

  /** A row that a restart puts behind a newer submission can be handed over next: when
      all submissions are confirmed a drainer may start for its target. */
  lemma OutOfOrder(s: Sys) returns (states: seq<Sys>, events: seq<Event>)
    requires Safe(s) && !RestartInOrder(s)
    ensures Continues(Restarted(s, {}), states, events) && !InOrder(states[|events|].sent)
  {
    var id, i, j := Overtaken(s);
    var t, key := Restarted(s, {}), ResolvedKey(s, id);
    GatesOpen(s);
    hide *;
    var a, ea := ConfirmsAll(t, t.confirming);
    var u := t.(table := Confirmed(t.table, t.confirming), confirming := {});
    assert a[|ea|] == u by { assert t.confirming - t.confirming == {}; }
    var b, eb := DrainHandsOpen(u, key, j);
    Joined(t, a, ea, b, eb);
    states, events := a + b[1..], ea + eb;
    SentBehind(s.sent, Submission(id, key, Queue(u, key)[j].text), i);
  }

  lemma SentBehind(sent: seq<Submission>, x: Submission, i: nat)
    requires i < |sent| && sent[i].key == x.key && sent[i].id >= x.id
    ensures !InOrder(sent + [x])
  {
    assert (sent + [x])[i] == sent[i] && (sent + [x])[|sent|] == x;
  }

  lemma Overtaken(s: Sys) returns (id: nat, i: nat, j: nat)
    requires Safe(s) && !RestartInOrder(s)
    ensures id in s.table.rows
    ensures var t, key := Restarted(s, {}), ResolvedKey(s, id);
            && t.sent == s.sent && IsQueued(t.table, id)
            && i < |s.sent| && s.sent[i].key == key && s.sent[i].id >= id
            && j < |Queue(t, key)| && Queue(t, key)[j].id == id
  {
    var t := Restarted(s, {});
    id :| Moves(s.table, s.bound, id) && !AllSentBelow(s.sent, ResolvedKey(s, id), id);
    i :| 0 <= i < |s.sent| && s.sent[i].key == ResolvedKey(s, id) && s.sent[i].id >= id;
    var q := Queue(t, ResolvedKey(s, id));
    RestartOwners(s);
    assert t.sent == s.sent && IsQueued(t.table, id);
    hide AllSentBelow, Pending, RetargetMoved, Restorable, IdsAscend;
    j :| 0 <= j < |q| && q[j].id == id;
  }

  /** Exactness: a restart is safe for the order of every fault-free continuation whose
      drainers start behind open gates if and only if no row older than a submission is
      retargeted onto its target. */
  lemma RestartOrderExact(s: Sys)
    requires Safe(s) && Order(s)
    ensures RestartInOrder(s) <==>
            forall states: seq<Sys>, events ::
              Continues(Restarted(s, {}), states, events) ==> InOrder(states[|events|].sent)
  {
    if RestartInOrder(s) {
      RestartOrder(s);
      RestartSafe(s, {});
      hide Safe, Order, RestartInOrder, Restarted, Run;
      forall states: seq<Sys>, events | Continues(Restarted(s, {}), states, events)
        ensures InOrder(states[|events|].sent)
      {
        LastOrdered(states, events);
      }
    } else {
      var states, events := OutOfOrder(s);
    }
  }

  lemma LastOrdered(states: seq<Sys>, events: seq<Event>)
    requires FaultFreeRun(states, events) && Safe(states[0]) && Order(states[0])
    requires forall i :: 0 <= i < |events| ==> !events[i].Restart?
    ensures InOrder(states[|events|].sent)
  {
    RunOrdered(states, events, |events|);
  }
}
