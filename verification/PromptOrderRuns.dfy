/** Every fault-free event of the three senders keeps the order of each target. */
module PromptOrderRuns {
  import opened PromptTable
  import opened PromptLifecycle
  import opened PromptAtMostOnce
  import opened PromptOrder
  import opened PromptOrderTasks
  import opened PromptOrderSteps

  // --- A handler leaves with its item decided ---

  lemma ImmediateLeaves(s: Sys, pid: nat)
    requires Safe(s) && Order(s) && pid in s.procs && InsideImmediate(s.procs[pid])
    requires !IsQueued(s.table, s.procs[pid].item.id)
    ensures var p := s.procs[pid];
            Order(UnmappedIfEmpty(PoppedIfHead(s, p.queue, p.item), p.key, p.queue))
    ensures Deque(s, s.procs[pid].queue) != [] ==>
              Popped(s, s.procs[pid].queue) == PoppedIfHead(s, s.procs[pid].queue, s.procs[pid].item)
  {
    var p := s.procs[pid];
    LeavesLine(s, pid);
    OrderUnmap(s, p.key);
    if Deque(s, p.queue) != [] {
      UnmappedHolders(s, pid);
      OrderTrim(Unmapped(s, p.key), p.queue, 1);
    }
    hide Order, Safe;
  }

  lemma LeavesLine(s: Sys, pid: nat)
    requires Order(s) && pid in s.procs && InsideImmediate(s.procs[pid])
    requires !IsQueued(s.table, s.procs[pid].item.id)
    ensures Decided(s.table, Queue(s, s.procs[pid].key))
    ensures Deque(s, s.procs[pid].queue) == [] || Deque(s, s.procs[pid].queue) == [s.procs[pid].item]
  {
    var p := s.procs[pid];
    assert Alone(s.queueOf, s.deques, p);
    assert Queue(s, p.key) == Line(s.queueOf, s.deques, p.key);
  }

  /** Whoever still works on the deque of an unmapped key sees it as dropped. */
  lemma UnmappedHolders(s: Sys, pid: nat)
    requires Safe(s) && pid in s.procs
    ensures forall o :: o in s.procs && s.procs[o].queue == s.procs[pid].queue ==> s.procs[o].key == s.procs[pid].key
  {
    QueueKeys(s);
  }

  lemma OrderLookImmediate(s: Sys, pid: nat, sight: Sight)
    requires Safe(s) && Order(s) && At(s, pid, Immediate, Capturing)
    ensures Order(LookedImmediate(s, pid, sight, true))
  {
    hide Safe, Order, Ended, Popped, Deleted, UnmappedIfEmpty, WithProc;
    var p := s.procs[pid];
    match sight
    case Go => OrderReady(s, pid);
    case Later => OrderEnd(s, pid, p.key);
    case Fail =>
      if Deque(s, p.queue) != [] && Deque(s, p.queue)[0] == p.item {
        ImmediateFails(s, pid);
      } else {
        FailLeaves(s, pid);
      }
  }

  /** The sender's deque was already emptied; its key may be unmapped. */
  lemma FailLeaves(s: Sys, pid: nat)
    requires Safe(s) && Order(s) && At(s, pid, Immediate, Capturing)
    requires Deque(s, s.procs[pid].queue) == [] || Deque(s, s.procs[pid].queue)[0] != s.procs[pid].item
    ensures var p := s.procs[pid]; Order(Ended(UnmappedIfEmpty(s, p.key, p.queue), pid, p.key.route))
  {
    var p := s.procs[pid];
    EmptyMeansDecided(s, pid);
    assert !IsQueued(s.table, p.item.id);
    LeavesLine(s, pid);
    OrderUnmap(s, p.key);
    var u := UnmappedIfEmpty(s, p.key, p.queue);
    assert u.procs == s.procs;
    hide Order, Safe;
    OrderEnd(u, pid, p.key);
  }

  lemma EmptyMeansDecided(s: Sys, pid: nat)
    requires Order(s) && pid in s.procs && Choosing(s.procs[pid])
    requires Deque(s, s.procs[pid].queue) == [] || Deque(s, s.procs[pid].queue)[0] != s.procs[pid].item
    ensures !IsQueued(s.table, s.procs[pid].item.id)
  {
    assert IsQueued(s.table, s.procs[pid].item.id) ==> MayWin(s.queueOf, s.deques, s.procs[pid]);
  }

  lemma OrderCas(s: Sys, pid: nat)
    requires Safe(s) && Order(s) && InPhase(s, pid, Ready)
    ensures Order(Compared(s, pid, false, false, true))
  {
    hide Safe, Order, Ended, Deleted, WithProc;
    var p := s.procs[pid];
    if IsQueued(s.table, p.item.id) {
      OrderWin(s, pid);
    } else if p.kind == Drain {
      OrderPhase(s, pid, Top);
    } else {
      OrderEnd(s, pid, p.key);
      CasLosesNative(s, pid);
    }
  }

  lemma CasLosesNative(s: Sys, pid: nat)
    requires Order(s) && InPhase(s, pid, Ready)
    ensures Order(Ended(Deleted(s, {s.procs[pid].item.id}, true), pid, s.procs[pid].key.route))
  {
    var p := s.procs[pid];
    var d := Deleted(s, {p.item.id}, true);
    OrderDelete(s, {p.item.id});
    assert d.procs == s.procs && !IsQueued(d.table, p.item.id);
    hide Order;
    OrderEnd(d, pid, p.key);
  }

  // --- A send settles ---

  lemma OrderConfirming(s: Sys, id: nat)
    requires Order(s)
    ensures Order(Confirming(s, id))
  {
  }

  lemma OrderSettleNative(s: Sys, pid: nat, outcome: Outcome)
    requires Order(s) && pid in s.procs && s.procs[pid].kind == Native && Claims(s.procs[pid])
    ensures Order(Settled(s, pid, outcome, true))
  {
    hide Order, Ended, Deleted, Confirming;
    var p := s.procs[pid];
    if outcome.Failure? {
      OrderDelete(s, {p.item.id});
      DeletedProcs(s, {p.item.id});
      OrderEnd(Deleted(s, {p.item.id}, true), pid, p.key);
    } else {
      OrderConfirming(s, p.item.id);
      ConfirmingProcs(s, p.item.id);
      OrderEnd(Confirming(s, p.item.id), pid, p.key);
    }
  }

  lemma DeletedProcs(s: Sys, ids: set<nat>)
    ensures Deleted(s, ids, true).procs == s.procs && Deleted(s, ids, true).deques == s.deques
    ensures forall id :: id in ids ==> !IsQueued(Deleted(s, ids, true).table, id)
  {
  }

  lemma ConfirmingProcs(s: Sys, id: nat)
    ensures Confirming(s, id).procs == s.procs
  {
  }

  lemma OrderSettleImmediate(s: Sys, pid: nat, outcome: Outcome)
    requires Safe(s) && Order(s) && pid in s.procs && s.procs[pid].kind == Immediate && Claims(s.procs[pid])
    ensures Order(Settled(s, pid, outcome, true))
  {
    var p := s.procs[pid];
    assert !IsQueued(s.table, p.item.id);
    hide Order, Safe, Ended, Deleted, Confirming, Popped, PoppedIfHead, UnmappedIfEmpty;
    if !outcome.Raised? && Deque(s, p.queue) == [] {
      OrderEnd(s, pid, p.key);
    } else if outcome.Failure? {
      ImmediateFails(s, pid);
    } else {
      ImmediateLeaves(s, pid);
      var u := UnmappedIfEmpty(PoppedIfHead(s, p.queue, p.item), p.key, p.queue);
      LeavesProcs(s, p);
      OrderConfirming(u, p.item.id);
      ConfirmingProcs(u, p.item.id);
      OrderEnd(Confirming(u, p.item.id), pid, p.key);
    }
  }

  lemma LeavesProcs(s: Sys, p: Proc)
    ensures UnmappedIfEmpty(PoppedIfHead(s, p.queue, p.item), p.key, p.queue).procs == s.procs
  {
    PoppedProcs(s, p.queue);
    hide Popped, Deque;
  }

  lemma PoppedProcs(s: Sys, ref: Ref)
    ensures Popped(s, ref).procs == s.procs
  {
  }

  lemma ImmediateFails(s: Sys, pid: nat)
    requires Safe(s) && Order(s) && pid in s.procs && InsideImmediate(s.procs[pid])
    requires Deque(s, s.procs[pid].queue) != []
    ensures var p := s.procs[pid];
            var popped := Popped(Deleted(s, {p.item.id}, true), p.queue);
            Order(Ended(UnmappedIfEmpty(popped, p.key, p.queue), pid, p.key.route))
  {
    var p := s.procs[pid];
    var d := Deleted(s, {p.item.id}, true);
    DeletedProcs(s, {p.item.id});
    RowSafe(s, d.table);
    OrderDelete(s, {p.item.id});
    ImmediateLeaves(d, pid);
    LeavesProcs(d, p);
    hide Order, Safe, UnmappedIfEmpty, Popped, PoppedIfHead, Deleted;
    OrderEnd(UnmappedIfEmpty(Popped(d, p.queue), p.key, p.queue), pid, p.key);
  }

  /** A drainer takes its decided item off its deque and moves on. */
  lemma DrainPops(s: Sys, pid: nat, phase: Phase)
    requires Safe(s) && Order(s) && pid in s.procs && s.procs[pid].kind == Drain && Claims(s.procs[pid])
    requires phase in {Top, After}
    requires Deque(s, s.procs[pid].queue) != [] && Deque(s, s.procs[pid].queue)[0] == s.procs[pid].item
    requires !IsQueued(s.table, s.procs[pid].item.id)
    ensures Order(WithProc(Popped(s, s.procs[pid].queue), pid, s.procs[pid].(phase := phase)))
  {
    var p := s.procs[pid];
    var t := WithProc(s, pid, p.(phase := phase));
    OrderPhase(s, pid, phase);
    NoOtherClaim(s, pid, phase);
    assert t.deques == s.deques && t.table == s.table && t.queueOf == s.queueOf;
    hide Order, Safe;
    OrderTrim(t, p.queue, 1);
  }

  lemma NoOtherClaim(s: Sys, pid: nat, phase: Phase)
    requires Safe(s) && Order(s) && pid in s.procs && Claims(s.procs[pid]) && phase in {Top, After}
    requires Deque(s, s.procs[pid].queue) != [] && Deque(s, s.procs[pid].queue)[0] == s.procs[pid].item
    ensures var t := WithProc(s, pid, s.procs[pid].(phase := phase));
            forall o :: o in t.procs && ActiveDrain(t.procs[o]) && Claims(t.procs[o]) ==>
              t.procs[o].queue != s.procs[pid].queue
  {
    var t := WithProc(s, pid, s.procs[pid].(phase := phase));
    forall o | o in t.procs && ActiveDrain(t.procs[o]) && Claims(t.procs[o])
      ensures t.procs[o].queue != s.procs[pid].queue
    {
      assert HeadOrDropped(s.queueOf, s.deques, s.procs[o]);
    }
  }

  lemma OrderSettleDrain(s: Sys, pid: nat, outcome: Outcome)
    requires Safe(s) && Order(s) && pid in s.procs && s.procs[pid].kind == Drain && Claims(s.procs[pid])
    requires s.procs[pid].cancelled ==> outcome.Raised?
    ensures Order(Settled(s, pid, outcome, true))
  {
    var p := s.procs[pid];
    assert !IsQueued(s.table, p.item.id);
    assert !p.cancelled ==> HeadOrDropped(s.queueOf, s.deques, p);
    hide Order, Safe, Exited, Deleted, Confirming, Popped, PoppedIfHead, UnmappedIfEmpty, WithProc;
    if outcome.Raised? {
      DrainRaises(s, pid);
    } else if Deque(s, p.queue) == [] {
      OrderEnd(s, pid, p.key);
    } else if outcome.Success? {
      DrainPops(s, pid, After);
    } else {
      var d := Deleted(s, {p.item.id}, true);
      DeletedProcs(s, {p.item.id});
      DeleteSafe(s, {p.item.id});
      OrderDelete(s, {p.item.id});
      DrainPops(d, pid, Top);
    }
  }

  lemma DeleteSafe(s: Sys, ids: set<nat>)
    requires Safe(s)
    ensures Safe(Deleted(s, ids, true))
  {
    RowSafe(s, Delete(s.table, ids));
  }

  lemma DrainRaises(s: Sys, pid: nat)
    requires Safe(s) && Order(s) && pid in s.procs && s.procs[pid].kind == Drain && Claims(s.procs[pid])
    requires !IsQueued(s.table, s.procs[pid].item.id)
    ensures var p := s.procs[pid];
            Order(Exited(Confirming(PoppedIfHead(s, p.queue, p.item), p.item.id), pid, p.key))
  {
    var p := s.procs[pid];
    var popped := PoppedIfHead(s, p.queue, p.item);
    hide Order, Safe, Exited, Confirming;
    if Deque(s, p.queue) != [] && Deque(s, p.queue)[0] == p.item {
      DrainPops(s, pid, Top);
      var t := WithProc(popped, pid, p.(phase := Top));
      OrderConfirming(t, p.item.id);
      ConfirmingProcs(t, p.item.id);
      OrderEnd(Confirming(t, p.item.id), pid, p.key);
      ExitForgets(popped, pid, p.(phase := Top), p.item.id, p.key);
    } else {
      OrderConfirming(s, p.item.id);
      ConfirmingProcs(s, p.item.id);
      OrderEnd(Confirming(s, p.item.id), pid, p.key);
    }
  }

  lemma ExitForgets(s: Sys, pid: nat, p: Proc, id: nat, key: Key)
    ensures Exited(Confirming(WithProc(s, pid, p), id), pid, key) == Exited(Confirming(s, id), pid, key)
  {
    assert s.procs[pid := p] - {pid} == s.procs - {pid};
  }

  // --- The drainer's loop ---

  lemma OrderLookDrain(s: Sys, pid: nat, sight: Sight)
    requires Safe(s) && Order(s) && At(s, pid, Drain, Capturing)
    ensures Order(LookedDrain(s, pid, sight))
  {
    var p := s.procs[pid];
    QueueKeys(s);
    hide Order, Safe, Exited, WithProc;
    if sight.Fail? {
      OrderPhase(s, pid, Notifying);
    } else if Deque(s, p.queue) == [] {
      OrderEnd(s, pid, p.key);
    } else if sight.Later? {
      OrderPhase(s, pid, Top);
    } else {
      OrderPick(s, pid);
    }
  }

  lemma OrderResume(s: Sys, pid: nat, confirmed: bool)
    requires Order(s) && At(s, pid, Drain, After)
    ensures Order(Resumed(s, pid, confirmed, true))
  {
    var p := s.procs[pid];
    if confirmed {
      var t := s.(table := ConfirmRow(s.table, p.item.id));
      OrderTable(s, ConfirmRow(s.table, p.item.id));
      hide Order;
      OrderPhase(t, pid, Top);
    } else {
      OrderConfirming(s, p.item.id);
      hide Order, Exited;
      OrderEnd(Confirming(s, p.item.id), pid, p.key);
    }
  }

  lemma NoClaimOn(s: Sys, pid: nat, ref: Ref)
    requires Safe(s) && Order(s) && pid in s.procs && ActiveDrain(s.procs[pid]) && !Claims(s.procs[pid])
    requires ref.key == s.procs[pid].key
    ensures forall o :: o in s.procs && ActiveDrain(s.procs[o]) && Claims(s.procs[o]) ==> s.procs[o].queue != ref
  {
    QueueKeys(s);
    forall o | o in s.procs && ActiveDrain(s.procs[o]) && s.procs[o].queue == ref
      ensures o == pid
    {
      OneDrain(s.procs, s.tasks, o, pid);
    }
  }

  lemma OrderLoopTop(s: Sys, pid: nat, expired: nat)
    requires Safe(s) && Order(s) && At(s, pid, Drain, Top) && expired <= |Queue(s, s.procs[pid].key)|
    ensures Order(LoopTop(s, pid, expired, true))
  {
    var p := s.procs[pid];
    var q := Queue(s, p.key);
    if q == [] {
      OrderEnd(s, pid, p.key);
    } else {
      var ref := s.queueOf[p.key];
      var ids := set x | x in q[..expired] :: x.id;
      OrderMapOk(s);
      NoClaimOn(s, pid, ref);
      DeletedProcs(s, ids);
      OrderDelete(s, ids);
      var d := Deleted(s, ids, true);
      assert d.queueOf == s.queueOf;
      PrefixDecided(d.table, q, expired, ids);
      hide Order, Safe, Deleted, Exited, WithProc;
      OrderTrim(d, ref, expired);
      var t := d.(deques := d.deques[ref := d.deques[ref][expired..]]);
      if expired == |q| {
        OrderEnd(t, pid, p.key);
      } else {
        OrderAttach(t, pid, ref);
      }
    }
  }

  lemma PrefixDecided(table: Table, q: seq<Item>, n: nat, ids: set<nat>)
    requires n <= |q| && ids == (set x | x in q[..n] :: x.id)
    requires forall id :: id in ids ==> !IsQueued(table, id)
    ensures Decided(table, q[..n])
  {
    forall i | 0 <= i < n
      ensures !IsQueued(table, q[..n][i].id)
    {
      assert q[..n][i] in q[..n];
      assert q[..n][i].id in ids;
    }
  }

  lemma OrderClear(s: Sys, pid: nat)
    requires Safe(s) && Order(s) && At(s, pid, Drain, Notifying)
    ensures Order(Cleared(s, pid, true))
  {
    var p := s.procs[pid];
    var t := s.(table := DeleteTarget(s.table, p.key));
    QueueKeys(s);
    OrderTable(s, DeleteTarget(s.table, p.key));
    if p.queue in s.deques {
      ClearedDecided(s, pid);
      NoClaimOn(s, pid, p.queue);
      hide Order, Safe, Exited;
      OrderTrim(t, p.queue, |t.deques[p.queue]|);
      assert t.deques[p.queue][|t.deques[p.queue]|..] == [];
      OrderEnd(t.(deques := t.deques[p.queue := []]), pid, p.key);
    } else {
      hide Order, Safe, Exited;
      OrderEnd(t, pid, p.key);
    }
  }

  lemma ClearedDecided(s: Sys, pid: nat)
    requires Order(s) && pid in s.procs && s.procs[pid].queue in s.deques && s.procs[pid].queue.key == s.procs[pid].key
    ensures Decided(DeleteTarget(s.table, s.procs[pid].key),
                    s.deques[s.procs[pid].queue][..|s.deques[s.procs[pid].queue]|])
  {
    var q := s.deques[s.procs[pid].queue];
    assert q[..|q|] == q;
    forall i | 0 <= i < |q|
      ensures !IsQueued(DeleteTarget(s.table, s.procs[pid].key), q[i].id)
    {
      assert q[i] in q;
    }
  }

  // --- A discard ---

  lemma OrderDrop(s: Sys, key: Key)
    requires Order(s)
    ensures Order(Dropped(s, key, true))
  {
    var q := Queue(s, key);
    var ids := set x | x in q :: x.id;
    OrderDelete(s, ids);
    DeletedProcs(s, ids);
    var d := Deleted(s, ids, true);
    assert q[..|q|] == q;
    PrefixDecided(d.table, q, |q|, ids);
    assert Queue(d, key) == q;
    hide Order, Deleted, Unmapped;
    OrderUnmap(d, key);
  }

  lemma OrderDiscard(s: Sys, pid: nat)
    requires Order(s) && Discarding(s, pid)
    ensures Order(Discarded(s, pid, true))
  {
    var route := s.procs[pid].key.route;
    OrderTable(s, DeleteRoute(s.table, route));
    hide Order, Ended;
    OrderEnd(s.(table := DeleteRoute(s.table, route)), pid, s.procs[pid].key);
  }

  lemma OrderConfirmFinished(s: Sys, id: nat, removed: bool)
    requires Order(s)
    ensures Order(ConfirmFinished(s, id, removed)) && Order(s.(confirming := s.confirming - {id}))
  {
    OrderTable(s, ConfirmRow(s.table, id));
  }

  lemma OrderRebind(s: Sys, route: Route, window: string)
    requires Order(s)
    ensures Order(s.(bound := s.bound[route := window]))
  {
  }

  lemma OrderEntered(s: Sys, pid: nat, room: bool, busy: bool)
    requires Safe(s) && Order(s) && At(s, pid, Immediate, Waiting) && LockFree(s, s.procs[pid].key.route)
    requires RouteHasQueue(s, s.procs[pid].key.route) || RouteHasDrain(s, s.procs[pid].key.route) ==> busy
    ensures Order(EnteredImmediate(s, pid, room, busy))
  {
    var p := s.procs[pid];
    OrderMap(s, p.key);
    OrderEnqueue(s, p.key, p.text);
    EnqueuedProcs(s, p.key, p.text);
    hide Order, Safe, Enqueued, Mapped, Ended;
    if !room {
      OrderEnd(Mapped(s, p.key), pid, p.key);
    } else if busy {
      OrderEnd(Enqueued(s, p.key, p.text), pid, p.key);
    } else {
      OrderEnterImmediate(s, pid);
    }
  }

  lemma EnqueuedProcs(s: Sys, key: Key, text: string)
    ensures Enqueued(s, key, text).procs == s.procs && Mapped(s, key).procs == s.procs
  {
  }

  lemma OrderEnteredNative(s: Sys, pid: nat, room: bool, busy: bool)
    requires Safe(s) && Order(s) && At(s, pid, Native, Waiting) && LockFree(s, s.procs[pid].key.route)
    requires RouteHasQueue(s, s.procs[pid].key.route) || RouteHasDrain(s, s.procs[pid].key.route) ==> busy
    ensures Order(EnteredNative(s, pid, room, busy))
  {
    hide Order, Safe, Ended;
    if !room || busy {
      OrderEnd(s, pid, s.procs[pid].key);
    } else {
      OrderEnterNative(s, pid);
    }
  }

  // --- Every fault-free event ---

  /** The store did what the event asked of it, and no handler was cancelled between
      inserting a native row and winning it. */
  ghost predicate FaultFree(s: Sys, e: Event)
    requires Enabled(s, e)
  {
    match e
    case LookImmediate(_, _, ok) => ok
    case Cas(_, raises, _, ok) => !raises && ok
    case Settle(_, _, ok) => ok
    case DrainTop(_, _, ok) => ok
    case DrainClear(_, ok) => ok
    case DrainAfter(_, _, ok) => ok
    case ConfirmDone(_, _, ok) => ok
    case DiscardDrop(_, _, ok) => ok
    case DiscardFinish(_, ok) => ok
    case Abort(pid) => !NativeReady(s.procs[pid], s.procs[pid].item.id)
    case Restart(failed) => failed == {}
    case _ => true
  }

  /** A handler cancelled at any of its awaits leaves every queued row with an owner, unless
      it had inserted a native row and that row is still queued: then nobody has it. */
  lemma AbortExact(s: Sys, pid: nat)
    requires Safe(s) && Order(s) && Enabled(s, Abort(pid))
    ensures var p, n := s.procs[pid], Step(s, Abort(pid));
            && (Order(n) <==> !(NativeReady(p, p.item.id) && IsQueued(s.table, p.item.id)))
            && (Order(n) <==> OwnedOk(n.table, n.queueOf, n.deques, n.procs))
  {
    hide Order, Safe, Ended, OwnedOk, IsQueued;
    var p := s.procs[pid];
    if NativeReady(p, p.item.id) && IsQueued(s.table, p.item.id) {
      AbortOrphans(s, pid);
    } else {
      OrderEnd(s, pid, p.key);
      OrderOwned(Ended(s, pid, p.key.route));
    }
  }

  lemma OrderOwned(s: Sys)
    requires Order(s)
    ensures OwnedOk(s.table, s.queueOf, s.deques, s.procs)
  {
  }

  lemma AbortOrphans(s: Sys, pid: nat)
    requires Safe(s) && Order(s) && Enabled(s, Abort(pid))
    requires NativeReady(s.procs[pid], s.procs[pid].item.id) && IsQueued(s.table, s.procs[pid].item.id)
    ensures var n := Step(s, Abort(pid)); !OwnedOk(n.table, n.queueOf, n.deques, n.procs) && !Order(n)
  {
    var p, n := s.procs[pid], Step(s, Abort(pid));
    var id := p.item.id;
    NativeHolds(s, pid);
    AbortedIs(s, pid);
    hide Order, Safe, Step, Enabled, Ended;
    assert Line(n.queueOf, n.deques, p.key) == [] && !HeldByNative(n.procs, id);
    assert !Has([], id);
    OrphanUnowned(n, id, p.key);
    if Order(n) {
      OrderOwned(n);
    }
  }

  lemma AbortedIs(s: Sys, pid: nat)
    requires Enabled(s, Abort(pid))
    ensures var n := Step(s, Abort(pid));
            n.table == s.table && n.queueOf == s.queueOf && n.deques == s.deques && n.procs == s.procs - {pid}
  {
  }

  lemma OrphanUnowned(s: Sys, id: nat, key: Key)
    requires IsQueued(s.table, id) && s.table.rows[id].key == key
    requires Line(s.queueOf, s.deques, key) == [] && !HeldByNative(s.procs, id)
    ensures !OwnedOk(s.table, s.queueOf, s.deques, s.procs)
  {
    hide HeldByNative, Line;
  }

  /** A native sender that has inserted its row is alone with it. */
  lemma NativeHolds(s: Sys, pid: nat)
    requires Order(s) && pid in s.procs && NativeReady(s.procs[pid], s.procs[pid].item.id)
    requires IsQueued(s.table, s.procs[pid].item.id)
    ensures var p := s.procs[pid];
            && s.table.rows[p.item.id].key == p.key && Line(s.queueOf, s.deques, p.key) == []
            && !HeldByNative(s.procs - {pid}, p.item.id)
  {
    var p := s.procs[pid];
    RowKeys(s);
    NativeAlone(s, pid);
    hide RowsOk, LinesOk, Line;
    forall o | o in s.procs && NativeReady(s.procs[o], p.item.id) ensures o == pid {
      assert s.procs[o].key == p.key && InsideNative(s.procs[o]) && InsideNative(p);
      assert LocksOk(s.procs, s.locks);
    }
  }

  lemma RowKeys(s: Sys)
    requires Order(s)
    ensures KeyOk(s.table, s.deques, s.procs)
  {
  }

  lemma NativeAlone(s: Sys, pid: nat)
    requires Order(s) && pid in s.procs && InsideNative(s.procs[pid])
    ensures Line(s.queueOf, s.deques, s.procs[pid].key) == []
  {
    hide RowsOk, TasksOk;
    assert NoQueue(s.queueOf, s.deques, s.procs[pid].key.route);
  }

  /** Every fault-free event but a restart keeps the order invariant. */
  lemma OrderStep(s: Sys, e: Event)
    requires Safe(s) && Order(s) && Enabled(s, e) && FaultFree(s, e) && !e.Restart?
    ensures Order(Step(s, e))
  {
    if OfDrainer(e) {
      OrderDrainer(s, e);
    } else {
      OrderHandler(s, e);
    }
    hide Safe, Order, Step, Enabled, OfDrainer, FaultFree;
  }

  lemma OrderDrainer(s: Sys, e: Event)
    requires Safe(s) && Order(s) && Enabled(s, e) && FaultFree(s, e) && OfDrainer(e)
    ensures Order(Step(s, e))
  {
    hide EnteredImmediate, EnteredNative, LookedImmediate, Compared, HandedOver, Settled, LoopTop, LookedDrain,
      Cleared, Restarted, Enqueued, Mapped, Resumed, Passed, Exited, Ended, Woken, Arrived, Cancelled, Dropped,
      Discarded, ConfirmFinished, Safe, Order, WithProc, Locked, HasRoom;
    match e
    case DrainTop(pid, expired, ok) => OrderLoopTop(s, pid, expired);
    case DrainLook(pid, sight) => OrderLookDrain(s, pid, sight);
    case DrainRetry(pid) => OrderPhase(s, pid, Top);
    case DrainClear(pid, ok) => OrderClear(s, pid);
    case DrainAfter(pid, confirmed, ok) => OrderResume(s, pid, confirmed);
    case DrainPass(pid) => OrderPass(s, pid);
    case DrainDie(pid) => OrderEnd(s, pid, s.procs[pid].key);
    case Wake(key) => OrderWake(s, key);
    case ConfirmDone(id, confirmed, ok) => OrderConfirmFinished(s, id, confirmed && ok);
  }

  lemma OrderHandler(s: Sys, e: Event)
    requires Safe(s) && Order(s) && Enabled(s, e) && FaultFree(s, e) && !OfDrainer(e) && !e.Restart?
    ensures Order(Step(s, e))
  {
    hide EnteredImmediate, EnteredNative, LookedImmediate, Compared, HandedOver, Settled, LoopTop, LookedDrain,
      Cleared, Restarted, Enqueued, Mapped, Resumed, Passed, Exited, Ended, Woken, Arrived, Cancelled, Dropped,
      Discarded, ConfirmFinished, Safe, Order, WithProc, Locked, HasRoom;
    match e
    case Arrive(kind, key, text) => OrderArrive(s, kind, key, text);
    case Interrupt(key, text, room) => OrderMap(s, key); OrderEnqueue(s, key, text);
    case EnterImmediate(pid, room, busy) => OrderEntered(s, pid, room, busy);
    case EnterNative(pid, room, busy) => OrderEnteredNative(s, pid, room, busy);
    case EnterDiscard(pid) => OrderEnterDiscard(s, pid);
    case LookImmediate(pid, sight, ok) => OrderLookImmediate(s, pid, sight);
    case Defer(pid) => OrderEnd(s, pid, s.procs[pid].key);
    case Cas(pid, raises, applied, ok) => CasIgnores(s, pid, applied); OrderCas(s, pid);
    case Hand(pid) => OrderHand(s, pid);
    case Settle(pid, outcome, ok) => OrderSettle(s, pid, outcome);
    case DiscardCancel(pid, key) => OrderCancel(s, key);
    case DiscardConfirm(pid, id) => OrderConfirmFinished(s, id, true);
    case DiscardDrop(pid, key, ok) => OrderDrop(s, key);
    case DiscardFinish(pid, ok) => OrderDiscard(s, pid);
    case Abort(pid) => OrderEnd(s, pid, s.procs[pid].key);
    case Rebind(route, window) => OrderRebind(s, route, window);
  }

  lemma OrderPass(s: Sys, pid: nat)
    requires Order(s) && At(s, pid, Drain, After)
    ensures Order(Passed(s, pid))
  {
    OrderPhase(s, pid, Top);
    hide RowsOk, TasksOk, LinesOk;
  }

  lemma CasIgnores(s: Sys, pid: nat, applied: bool)
    requires pid in s.procs
    ensures Compared(s, pid, false, applied, true) == Compared(s, pid, false, false, true)
  {
  }

  lemma OrderSettle(s: Sys, pid: nat, outcome: Outcome)
    requires Safe(s) && Order(s) && pid in s.procs && Claims(s.procs[pid])
    requires s.procs[pid].cancelled ==> outcome.Raised?
    ensures Order(Settled(s, pid, outcome, true))
  {
    assert Fits(s.procs[pid].kind, s.procs[pid].phase);
    hide Order, Safe, Settled;
    match s.procs[pid].kind
    case Native => OrderSettleNative(s, pid, outcome);
    case Immediate => OrderSettleImmediate(s, pid, outcome);
    case Drain => OrderSettleDrain(s, pid, outcome);
    case Discard =>
  }
}
