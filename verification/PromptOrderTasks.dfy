/** What starting, advancing and feeding a task keeps of the order invariant. */
module PromptOrderTasks {
  import opened PromptTable
  import opened PromptLifecycle
  import opened PromptAtMostOnce
  import opened PromptOrder

  // --- A task changes phase, keeping its item and deque ---

  lemma PhaseRows(table: Table, queueOf: map<Key, Ref>, deques: map<Ref, seq<Item>>, procs: map<nat, Proc>,
                  sent: seq<Submission>, pid: nat, phase: Phase)
    requires RowsOk(table, queueOf, deques, procs, sent) && pid in procs && phase != Won
    requires NativeReady(procs[pid], procs[pid].item.id) ==> !IsQueued(table, procs[pid].item.id)
    requires procs[pid].kind != Native && (phase in {Ready, Sent, After} ==> Holding(procs[pid]))
    requires phase in {Capturing, Ready} ==> Choosing(procs[pid])
    ensures RowsOk(table, queueOf, deques, procs[pid := procs[pid].(phase := phase)], sent)
  {
    var p := procs[pid := procs[pid].(phase := phase)];
    forall id | IsQueued(table, id) && HeldByNative(procs, id)
      ensures HeldByNative(p, id)
    {
      var q :| q in procs && NativeReady(procs[q], id);
      assert p[q] == procs[q];
    }
  }

  lemma PhaseTasks(procs: map<nat, Proc>, tasks: map<Key, nat>, locks: map<Route, nat>, nextPid: nat, pid: nat,
                   phase: Phase)
    requires TasksOk(procs, tasks, locks, nextPid) && pid in procs
    requires procs[pid].phase != Waiting && Fits(procs[pid].kind, phase)
    requires phase in {Capturing, Notifying} ==> procs[pid].phase in {Capturing, Notifying, Ready, Won, Sent}
    requires phase in {Ready, Won, Sent} ==>
               procs[pid].phase in {Ready, Won, Sent} || (procs[pid].kind != Drain && procs[pid].phase == Capturing)
    ensures TasksOk(procs[pid := procs[pid].(phase := phase)], tasks, locks, nextPid)
  {
    PhaseShared(procs, pid, phase);
    hide SharedOk, Shares;
    var after := procs[pid := procs[pid].(phase := phase)];
    assert NoDrainOk(after) by { hide PidsOk, DrainsOk, LocksOk; }
    assert PidsOk(after, tasks, nextPid) by { hide DrainsOk, LocksOk, NoDrainOk; }
    assert DrainsOk(after, tasks) by { hide PidsOk, LocksOk, NoDrainOk; }
    assert LocksOk(after, locks) by { hide PidsOk, DrainsOk, NoDrainOk; }
  }

  lemma PhaseShared(procs: map<nat, Proc>, pid: nat, phase: Phase)
    requires SharedOk(procs) && pid in procs && procs[pid].phase != Waiting
    requires phase in {Capturing, Notifying} ==> procs[pid].phase in {Capturing, Notifying, Ready, Won, Sent}
    requires phase in {Ready, Won, Sent} ==>
               procs[pid].phase in {Ready, Won, Sent} || (procs[pid].kind != Drain && procs[pid].phase == Capturing)
    ensures SharedOk(procs[pid := procs[pid].(phase := phase)])
  {
    var p := procs[pid := procs[pid].(phase := phase)];
    forall a, b | a in p && b in p && InsideImmediate(p[a]) && ActiveDrain(p[b])
      ensures Shares(p[a], p[b])
    {
      assert InsideImmediate(procs[a]) && ActiveDrain(procs[b]);
      assert Shares(procs[a], procs[b]);
    }
  }

  lemma PhaseLines(queueOf: map<Key, Ref>, deques: map<Ref, seq<Item>>, serial: nat, procs: map<nat, Proc>, pid: nat,
                   phase: Phase)
    requires LinesOk(queueOf, deques, serial, procs) && pid in procs && procs[pid].phase != Waiting
    requires phase in {Won, Sent} ==>
               Claims(procs[pid]) || procs[pid].kind != Drain || HeadOrDropped(queueOf, deques, procs[pid])
    ensures LinesOk(queueOf, deques, serial, procs[pid := procs[pid].(phase := phase)])
  {
  }

  lemma OrderPhase(s: Sys, pid: nat, phase: Phase)
    requires Order(s) && pid in s.procs && s.procs[pid].kind == Drain && phase in {Top, Notifying, After}
    requires s.procs[pid].phase != Waiting && (phase == After ==> Holding(s.procs[pid]))
    requires phase == Notifying ==> s.procs[pid].phase == Capturing
    ensures Order(WithProc(s, pid, s.procs[pid].(phase := phase)))
  {
    PhaseRows(s.table, s.queueOf, s.deques, s.procs, s.sent, pid, phase);
    PhaseTasks(s.procs, s.tasks, s.locks, s.nextPid, pid, phase);
    PhaseLines(s.queueOf, s.deques, s.serial, s.procs, pid, phase);
    hide RowsOk, TasksOk, LinesOk;
  }

  lemma OrderReady(s: Sys, pid: nat)
    requires Order(s) && At(s, pid, Immediate, Capturing)
    ensures Order(WithProc(s, pid, s.procs[pid].(phase := Ready)))
  {
    PhaseRows(s.table, s.queueOf, s.deques, s.procs, s.sent, pid, Ready);
    PhaseTasks(s.procs, s.tasks, s.locks, s.nextPid, pid, Ready);
    PhaseLines(s.queueOf, s.deques, s.serial, s.procs, pid, Ready);
    hide RowsOk, TasksOk, LinesOk;
  }

  // --- A drainer takes the head of its deque ---

  lemma PickRows(table: Table, queueOf: map<Key, Ref>, deques: map<Ref, seq<Item>>, procs: map<nat, Proc>,
                 sent: seq<Submission>, pid: nat)
    requires RowsOk(table, queueOf, deques, procs, sent) && pid in procs && procs[pid].kind == Drain
    requires procs[pid].queue in deques && deques[procs[pid].queue] != [] && procs[pid].queue.key == procs[pid].key
    ensures RowsOk(table, queueOf, deques,
                   procs[pid := procs[pid].(phase := Ready, item := deques[procs[pid].queue][0])], sent)
  {
    var q := deques[procs[pid].queue];
    var p := procs[pid := procs[pid].(phase := Ready, item := q[0])];
    assert q[0] in q;
    assert IsQueued(table, q[0].id) ==> MappedRef(queueOf, procs[pid].queue);
    forall id | IsQueued(table, id) && HeldByNative(procs, id)
      ensures HeldByNative(p, id)
    {
      var o :| o in procs && NativeReady(procs[o], id);
      assert p[o] == procs[o];
    }
    assert HeadOk(table, queueOf, deques, p);
    assert KeyOk(table, deques, p);
  }

  lemma PickTasks(procs: map<nat, Proc>, tasks: map<Key, nat>, locks: map<Route, nat>, nextPid: nat, pid: nat,
                  queueOf: map<Key, Ref>, deques: map<Ref, seq<Item>>)
    requires TasksOk(procs, tasks, locks, nextPid) && AloneOk(queueOf, deques, procs)
    requires pid in procs && procs[pid].kind == Drain && procs[pid].phase == Capturing
    requires procs[pid].queue in deques && deques[procs[pid].queue] != []
    ensures TasksOk(procs[pid := procs[pid].(phase := Ready, item := deques[procs[pid].queue][0])],
                    tasks, locks, nextPid)
  {
    var p := procs[pid := procs[pid].(phase := Ready, item := deques[procs[pid].queue][0])];
    forall a, b | a in p && b in p && InsideImmediate(p[a]) && ActiveDrain(p[b])
      ensures Shares(p[a], p[b])
    {
      assert Shares(procs[a], procs[b]);
      assert Alone(queueOf, deques, procs[a]);
    }
  }

  lemma PickLines(queueOf: map<Key, Ref>, deques: map<Ref, seq<Item>>, serial: nat, procs: map<nat, Proc>, pid: nat)
    requires LinesOk(queueOf, deques, serial, procs) && pid in procs && procs[pid].kind == Drain
    requires procs[pid].queue in deques && deques[procs[pid].queue] != []
    ensures LinesOk(queueOf, deques, serial,
                    procs[pid := procs[pid].(phase := Ready, item := deques[procs[pid].queue][0])])
  {
  }

  lemma OrderPick(s: Sys, pid: nat)
    requires Order(s) && At(s, pid, Drain, Capturing) && s.procs[pid].queue.key == s.procs[pid].key
    requires Deque(s, s.procs[pid].queue) != []
    ensures Order(WithProc(s, pid, s.procs[pid].(phase := Ready, item := Deque(s, s.procs[pid].queue)[0])))
  {
    PickRows(s.table, s.queueOf, s.deques, s.procs, s.sent, pid);
    PickTasks(s.procs, s.tasks, s.locks, s.nextPid, pid, s.queueOf, s.deques);
    PickLines(s.queueOf, s.deques, s.serial, s.procs, pid);
    hide RowsOk, TasksOk, LinesOk;
  }

  /** Two live drainers of one route are the same task. */
  lemma OneDrain(procs: map<nat, Proc>, tasks: map<Key, nat>, a: nat, b: nat)
    requires DrainsOk(procs, tasks) && a in procs && b in procs && ActiveDrain(procs[a]) && ActiveDrain(procs[b])
    requires procs[a].key.route == procs[b].key.route
    ensures a == b
  {
  }

  // --- A drainer attaches to the deque of its key ---

  lemma OrderAttach(s: Sys, pid: nat, ref: Ref)
    requires Order(s) && At(s, pid, Drain, Top) && s.procs[pid].key in s.queueOf
    requires ref == s.queueOf[s.procs[pid].key] && Deque(s, ref) != []
    ensures Order(WithProc(s, pid, s.procs[pid].(phase := Capturing, queue := ref)))
  {
    AttachRows(s.table, s.queueOf, s.deques, s.procs, s.sent, pid, ref);
    AttachTasks(s.procs, s.tasks, s.locks, s.nextPid, pid, s.queueOf, s.deques, ref);
    AttachLines(s.queueOf, s.deques, s.serial, s.procs, pid, ref);
    hide RowsOk, TasksOk, LinesOk;
  }

  lemma AttachRows(table: Table, queueOf: map<Key, Ref>, deques: map<Ref, seq<Item>>, procs: map<nat, Proc>,
                   sent: seq<Submission>, pid: nat, ref: Ref)
    requires RowsOk(table, queueOf, deques, procs, sent) && pid in procs && procs[pid].kind == Drain
    ensures RowsOk(table, queueOf, deques, procs[pid := procs[pid].(phase := Capturing, queue := ref)], sent)
  {
    var p := procs[pid := procs[pid].(phase := Capturing, queue := ref)];
    forall id | IsQueued(table, id) && HeldByNative(procs, id)
      ensures HeldByNative(p, id)
    {
      var o :| o in procs && NativeReady(procs[o], id);
      assert p[o] == procs[o];
    }
  }

  lemma AttachTasks(procs: map<nat, Proc>, tasks: map<Key, nat>, locks: map<Route, nat>, nextPid: nat, pid: nat,
                    queueOf: map<Key, Ref>, deques: map<Ref, seq<Item>>, ref: Ref)
    requires TasksOk(procs, tasks, locks, nextPid) && AloneOk(queueOf, deques, procs)
    requires pid in procs && ActiveDrain(procs[pid]) && procs[pid].key in queueOf && queueOf[procs[pid].key] == ref
    requires Under(deques, ref) != []
    ensures TasksOk(procs[pid := procs[pid].(phase := Capturing, queue := ref)], tasks, locks, nextPid)
  {
    var p := procs[pid := procs[pid].(phase := Capturing, queue := ref)];
    forall a, b | a in p && b in p && InsideImmediate(p[a]) && ActiveDrain(p[b])
      ensures Shares(p[a], p[b])
    {
      assert Shares(procs[a], procs[b]);
      assert Alone(queueOf, deques, procs[a]);
      assert Line(queueOf, deques, procs[pid].key) != [];
    }
  }

  lemma AttachLines(queueOf: map<Key, Ref>, deques: map<Ref, seq<Item>>, serial: nat, procs: map<nat, Proc>, pid: nat,
                    ref: Ref)
    requires LinesOk(queueOf, deques, serial, procs) && pid in procs && procs[pid].kind == Drain
    ensures LinesOk(queueOf, deques, serial, procs[pid := procs[pid].(phase := Capturing, queue := ref)])
  {
  }

  // --- A task starts ---

  lemma StartRows(table: Table, queueOf: map<Key, Ref>, deques: map<Ref, seq<Item>>, procs: map<nat, Proc>,
                  sent: seq<Submission>, pid: nat, p: Proc)
    requires RowsOk(table, queueOf, deques, procs, sent) && !Holding(p)
    requires pid in procs ==> procs[pid].kind != Native
    ensures RowsOk(table, queueOf, deques, procs[pid := p], sent)
  {
    forall id | IsQueued(table, id) && HeldByNative(procs, id)
      ensures HeldByNative(procs[pid := p], id)
    {
      var o :| o in procs && NativeReady(procs[o], id);
      assert procs[pid := p][o] == procs[o];
    }
  }

  lemma OrderArrive(s: Sys, kind: Kind, key: Key, text: string)
    requires Order(s) && kind != Drain
    ensures Order(Arrived(s, kind, key, text))
  {
    var p := Proc(kind, key, text, Waiting, Ref(key, 0), Item(0, text), false);
    StartRows(s.table, s.queueOf, s.deques, s.procs, s.sent, s.nextPid, p);
    ArriveTasks(s.procs, s.tasks, s.locks, s.nextPid, p);
    ArriveLines(s.queueOf, s.deques, s.serial, s.procs, s.nextPid, p);
    hide RowsOk, TasksOk, LinesOk;
  }

  lemma ArriveTasks(procs: map<nat, Proc>, tasks: map<Key, nat>, locks: map<Route, nat>, nextPid: nat, p: Proc)
    requires TasksOk(procs, tasks, locks, nextPid) && p.kind != Drain && p.phase == Waiting
    ensures TasksOk(procs[nextPid := p], tasks, locks, nextPid + 1)
  {
  }

  lemma ArriveLines(queueOf: map<Key, Ref>, deques: map<Ref, seq<Item>>, serial: nat, procs: map<nat, Proc>, pid: nat,
                    p: Proc)
    requires LinesOk(queueOf, deques, serial, procs) && (p.kind == Drain ==> p.phase == Top)
    requires p.kind != Drain ==> p.phase == Waiting || p.kind == Discard
    ensures LinesOk(queueOf, deques, serial, procs[pid := p])
  {
  }

  lemma OrderWake(s: Sys, key: Key)
    requires Order(s) && Enabled(s, Wake(key))
    ensures Order(Woken(s, key))
  {
    var p := Proc(Drain, key, "", Top, Ref(key, 0), Item(0, ""), false);
    StartRows(s.table, s.queueOf, s.deques, s.procs, s.sent, s.nextPid, p);
    NoNativeAtWake(s, key);
    WakeTasks(s.procs, s.tasks, s.locks, s.nextPid, key, p);
    ArriveLines(s.queueOf, s.deques, s.serial, s.procs, s.nextPid, p);
    hide RowsOk, TasksOk, LinesOk;
  }

  /** A native sender inside leaves nothing on its route to wake a drainer for. */
  lemma NoNativeAtWake(s: Sys, key: Key)
    requires LocksOk(s.procs, s.locks) && NativeOk(s.queueOf, s.deques, s.procs)
    requires Queue(s, key) == [] ==> LockFree(s, key.route)
    ensures forall pid :: pid in s.procs && InsideNative(s.procs[pid]) ==> s.procs[pid].key.route != key.route
  {
    forall pid | pid in s.procs && InsideNative(s.procs[pid])
      ensures s.procs[pid].key.route != key.route
    {
      assert NoQueue(s.queueOf, s.deques, s.procs[pid].key.route);
      assert Line(s.queueOf, s.deques, key) == Queue(s, key);
    }
  }

  lemma WakeTasks(procs: map<nat, Proc>, tasks: map<Key, nat>, locks: map<Route, nat>, nextPid: nat, key: Key, p: Proc)
    requires TasksOk(procs, tasks, locks, nextPid)
    requires ActiveDrain(p) && p.phase == Top && p.key == key
    requires forall k :: k in tasks && k.route == key.route ==> tasks[k] !in procs
    requires forall pid :: pid in procs && InsideNative(procs[pid]) ==> procs[pid].key.route != key.route
    ensures TasksOk(procs[nextPid := p], tasks[key := nextPid], locks, nextPid + 1)
  {
    WakeShared(procs, nextPid, p);
    hide SharedOk, NoDrainOk, Shares;
  }

  lemma WakeShared(procs: map<nat, Proc>, pid: nat, p: Proc)
    requires SharedOk(procs) && NoDrainOk(procs) && pid !in procs && ActiveDrain(p) && p.phase == Top
    requires forall o :: o in procs && InsideNative(procs[o]) ==> procs[o].key.route != p.key.route
    ensures SharedOk(procs[pid := p]) && NoDrainOk(procs[pid := p])
  {
    var q := procs[pid := p];
    forall a, b | a in q && b in q && InsideImmediate(q[a]) && ActiveDrain(q[b])
      ensures Shares(q[a], q[b])
    {
      if b != pid { assert Shares(procs[a], procs[b]); }
    }
  }

  lemma OrderCancel(s: Sys, key: Key)
    requires Order(s)
    ensures Order(Cancelled(s, key))
  {
    if key in s.tasks && s.tasks[key] in s.procs {
      CancelRows(s.table, s.queueOf, s.deques, s.procs, s.sent, s.tasks, key);
      CancelTasks(s.procs, s.tasks, s.locks, s.nextPid, key);
      CancelLines(s.queueOf, s.deques, s.serial, s.procs, s.tasks[key]);
    }
    hide RowsOk, TasksOk, LinesOk;
  }

  lemma CancelRows(table: Table, queueOf: map<Key, Ref>, deques: map<Ref, seq<Item>>, procs: map<nat, Proc>,
                   sent: seq<Submission>, tasks: map<Key, nat>, key: Key)
    requires RowsOk(table, queueOf, deques, procs, sent) && key in tasks && tasks[key] in procs
    ensures RowsOk(table, queueOf, deques, procs[tasks[key] := procs[tasks[key]].(cancelled := true)], sent)
  {
    var p := procs[tasks[key] := procs[tasks[key]].(cancelled := true)];
    forall id | IsQueued(table, id) && HeldByNative(procs, id)
      ensures HeldByNative(p, id)
    {
      var o :| o in procs && NativeReady(procs[o], id);
      assert NativeReady(p[o], id);
    }
  }

  lemma CancelTasks(procs: map<nat, Proc>, tasks: map<Key, nat>, locks: map<Route, nat>, nextPid: nat, key: Key)
    requires TasksOk(procs, tasks, locks, nextPid) && key in tasks && tasks[key] in procs
    ensures TasksOk(procs[tasks[key] := procs[tasks[key]].(cancelled := true)], tasks - {key}, locks, nextPid)
  {
    var p := procs[tasks[key] := procs[tasks[key]].(cancelled := true)];
    forall a, b | a in p && b in p && InsideImmediate(p[a]) && ActiveDrain(p[b])
      ensures Shares(p[a], p[b])
    {
      assert Shares(procs[a], procs[b]);
    }
  }

  lemma CancelLines(queueOf: map<Key, Ref>, deques: map<Ref, seq<Item>>, serial: nat, procs: map<nat, Proc>, pid: nat)
    requires LinesOk(queueOf, deques, serial, procs) && pid in procs
    ensures LinesOk(queueOf, deques, serial, procs[pid := procs[pid].(cancelled := true)])
  {
  }

  lemma OrderEnterDiscard(s: Sys, pid: nat)
    requires Order(s) && Enabled(s, EnterDiscard(pid))
    ensures Order(Locked(WithProc(s, pid, s.procs[pid].(phase := Capturing)), pid, s.procs[pid].key.route))
  {
    var p := s.procs[pid].(phase := Capturing);
    StartRows(s.table, s.queueOf, s.deques, s.procs, s.sent, pid, p);
    ArriveLines(s.queueOf, s.deques, s.serial, s.procs, pid, p);
    EnterDiscardTasks(s.procs, s.tasks, s.locks, s.nextPid, pid);
    hide RowsOk, TasksOk, LinesOk;
  }

  lemma EnterDiscardTasks(procs: map<nat, Proc>, tasks: map<Key, nat>, locks: map<Route, nat>, nextPid: nat, pid: nat)
    requires TasksOk(procs, tasks, locks, nextPid) && pid in procs && procs[pid].kind == Discard
    requires procs[pid].key.route !in locks
    ensures TasksOk(procs[pid := procs[pid].(phase := Capturing)], tasks, locks[procs[pid].key.route := pid], nextPid)
  {
    var p := procs[pid := procs[pid].(phase := Capturing)];
    forall a, b | a in p && b in p && InsideImmediate(p[a]) && ActiveDrain(p[b])
      ensures Shares(p[a], p[b])
    {
      assert Shares(procs[a], procs[b]);
    }
  }
}
