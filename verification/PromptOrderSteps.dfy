/** Accepting, winning and handing over keep the order invariant; with them every
    fault-free event does, and a restart exactly when it is in order. */
module PromptOrderSteps {
  import opened PromptTable
  import opened PromptLifecycle
  import opened PromptAtMostOnce
  import opened PromptOrder
  import opened PromptOrderTasks

  // --- Accepting a prompt under a free route lock ---

  /** The id about to be given out is newer than everything in sight. */
  ghost predicate Fresh(id: nat, table: Table, deques: map<Ref, seq<Item>>, procs: map<nat, Proc>,
                        sent: seq<Submission>) {
    && (forall o :: o in table.rows ==> o < id)
    && (forall ref, x :: ref in deques && x in deques[ref] ==> x.id < id)
    && (forall pid :: pid in procs && Holding(procs[pid]) ==> procs[pid].item.id < id)
    && (forall i :: 0 <= i < |sent| ==> sent[i].id < id)
  }

  lemma NextIdFresh(s: Sys)
    requires Safe(s)
    ensures Fresh(s.table.nextId, s.table, s.deques, s.procs, s.sent)
  {
    forall ref, x | ref in s.deques && x in s.deques[ref]
      ensures x.id < s.table.nextId
    {
      assert ItemsOk(s.accepted, s.deques[ref], ref.key.route);
    }
    forall pid | pid in s.procs && Holding(s.procs[pid])
      ensures s.procs[pid].item.id < s.table.nextId
    {
      assert ProcOk(s.accepted, s.procs[pid]);
    }
  }

  lemma OrderMap(s: Sys, key: Key)
    requires Order(s)
    ensures Order(Mapped(s, key))
  {
    if key !in s.queueOf {
      MapRows(s.table, s.queueOf, s.deques, s.procs, s.sent, key, s.serial);
      MapLines(s.queueOf, s.deques, s.serial, s.procs, key);
      hide RowsOk, TasksOk, LinesOk;
    }
  }

  lemma MapRows(table: Table, queueOf: map<Key, Ref>, deques: map<Ref, seq<Item>>, procs: map<nat, Proc>,
                sent: seq<Submission>, key: Key, serial: nat)
    requires RowsOk(table, queueOf, deques, procs, sent) && key !in queueOf && MapOk(queueOf, deques, serial)
    ensures RowsOk(table, queueOf[key := Ref(key, serial)], deques[Ref(key, serial) := []], procs, sent)
  {
    var q := queueOf[key := Ref(key, serial)];
    var d := deques[Ref(key, serial) := []];
    assert Ref(key, serial) !in deques;
    assert forall k :: Line(q, d, k) == Line(queueOf, deques, k);
    assert KeyOk(table, d, procs);
    assert HeadOk(table, q, d, procs);
    assert DetachedOk(table, q, d);
  }

  lemma MapLines(queueOf: map<Key, Ref>, deques: map<Ref, seq<Item>>, serial: nat, procs: map<nat, Proc>, key: Key)
    requires LinesOk(queueOf, deques, serial, procs) && key !in queueOf
    ensures LinesOk(queueOf[key := Ref(key, serial)], deques[Ref(key, serial) := []], serial + 1, procs)
  {
    var q := queueOf[key := Ref(key, serial)];
    var d := deques[Ref(key, serial) := []];
    assert Ref(key, serial) !in deques;
    assert forall k :: Line(q, d, k) == Line(queueOf, deques, k);
    forall pid | pid in procs && InsideImmediate(procs[pid])
      ensures Alone(q, d, procs[pid])
    {
      assert Alone(queueOf, deques, procs[pid]);
    }
    forall pid | pid in procs && InsideNative(procs[pid])
      ensures NoQueue(q, d, procs[pid].key.route)
    {
      assert NoQueue(queueOf, deques, procs[pid].key.route);
    }
  }

  lemma AppendRows(table: Table, queueOf: map<Key, Ref>, deques: map<Ref, seq<Item>>, procs: map<nat, Proc>,
                   sent: seq<Submission>, key: Key, text: string)
    requires RowsOk(table, queueOf, deques, procs, sent) && Fresh(table.nextId, table, deques, procs, sent)
    requires key in queueOf && queueOf[key] in deques && queueOf[key].key == key
    ensures RowsOk(Insert(table, key, text), queueOf,
                   deques[queueOf[key] := deques[queueOf[key]] + [Item(table.nextId, text)]], procs, sent)
  {
    var id := table.nextId;
    var q := deques[queueOf[key]];
    var t := Insert(table, key, text);
    var d := deques[queueOf[key] := q + [Item(id, text)]];
    assert forall k :: Line(queueOf, d, k) == Line(queueOf, deques, k)
                       || (Line(queueOf, deques, k) == q && Line(queueOf, d, k) == q + [Item(id, text)]);
    forall o | IsQueued(t, o)
      ensures Has(Line(queueOf, d, t.rows[o].key), o) || HeldByNative(procs, o)
    {
      if o == id {
        assert Line(queueOf, d, key)[|q|].id == id;
      } else if Has(Line(queueOf, deques, t.rows[o].key), o) {
        var i :| 0 <= i < |Line(queueOf, deques, t.rows[o].key)| && Line(queueOf, deques, t.rows[o].key)[i].id == o;
        assert Line(queueOf, d, t.rows[o].key)[i].id == o;
      }
    }
    assert KeyOk(t, d, procs);
    AppendHeads(table, queueOf, deques, procs, key, text);
    assert DetachedOk(t, queueOf, d);
    assert FrontOk(t, procs, sent);
  }

  lemma AppendHeads(table: Table, queueOf: map<Key, Ref>, deques: map<Ref, seq<Item>>, procs: map<nat, Proc>, key: Key,
                    text: string)
    requires HeadOk(table, queueOf, deques, procs) && key in queueOf && queueOf[key] in deques
    requires forall pid :: pid in procs && Holding(procs[pid]) ==> procs[pid].item.id < table.nextId
    ensures HeadOk(Insert(table, key, text), queueOf,
                   deques[queueOf[key] := deques[queueOf[key]] + [Item(table.nextId, text)]], procs)
  {
    var d := deques[queueOf[key] := deques[queueOf[key]] + [Item(table.nextId, text)]];
    forall pid | pid in procs && Choosing(procs[pid]) && IsQueued(Insert(table, key, text), procs[pid].item.id)
      ensures MayWin(queueOf, d, procs[pid])
    {
      assert MayWin(queueOf, deques, procs[pid]);
    }
  }

  lemma AppendLines(queueOf: map<Key, Ref>, deques: map<Ref, seq<Item>>, serial: nat, procs: map<nat, Proc>, key: Key,
                    x: Item)
    requires LinesOk(queueOf, deques, serial, procs) && key in queueOf
    requires forall y :: y in deques[queueOf[key]] ==> y.id < x.id
    requires forall pid :: pid in procs ==> procs[pid].queue.key == procs[pid].key
    requires forall pid :: pid in procs && Inside(procs[pid]) ==> procs[pid].key.route != key.route
    ensures LinesOk(queueOf, deques[queueOf[key] := deques[queueOf[key]] + [x]], serial, procs)
  {
    var q := deques[queueOf[key]];
    var d := deques[queueOf[key] := q + [x]];
    assert forall i :: 0 <= i < |q| ==> q[i] in q;
    assert forall k: Key :: k.route != key.route ==> Line(queueOf, d, k) == Line(queueOf, deques, k);
    forall pid | pid in procs && InsideImmediate(procs[pid])
      ensures Alone(queueOf, d, procs[pid])
    {
      assert Alone(queueOf, deques, procs[pid]);
    }
    forall pid | pid in procs && InsideNative(procs[pid])
      ensures NoQueue(queueOf, d, procs[pid].key.route)
    {
      assert NoQueue(queueOf, deques, procs[pid].key.route);
    }
    assert DrainHeadOk(queueOf, d, procs);
    assert SortedOk(d);
  }

  /** Nobody is inside a route whose lock is free. */
  lemma FreeMeansEmpty(s: Sys, route: Route)
    requires Order(s) && LockFree(s, route)
    ensures forall pid :: pid in s.procs && Inside(s.procs[pid]) ==> s.procs[pid].key.route != route
  {
  }

  lemma OrderEnqueue(s: Sys, key: Key, text: string)
    requires Safe(s) && Order(s) && LockFree(s, key.route)
    ensures Order(Enqueued(s, key, text))
  {
    var m := Mapped(s, key);
    MappedSafe(s, key);
    OrderMap(s, key);
    NextIdFresh(m);
    FreeMeansEmpty(m, key.route);
    QueueKeys(m);
    OrderAppend(m, key, text);
  }

  lemma QueueKeys(s: Sys)
    requires Safe(s)
    ensures forall pid :: pid in s.procs ==> s.procs[pid].queue.key == s.procs[pid].key
  {
    forall pid | pid in s.procs
      ensures s.procs[pid].queue.key == s.procs[pid].key
    {
      assert ProcOk(s.accepted, s.procs[pid]);
    }
  }

  lemma OrderAppend(m: Sys, key: Key, text: string)
    requires Order(m) && key in m.queueOf && Fresh(m.table.nextId, m.table, m.deques, m.procs, m.sent)
    requires forall pid :: pid in m.procs ==> m.procs[pid].queue.key == m.procs[pid].key
    requires forall pid :: pid in m.procs && Inside(m.procs[pid]) ==> m.procs[pid].key.route != key.route
    ensures Order(Inserted(m, key, text).(
                    deques := m.deques[m.queueOf[key] := Deque(m, m.queueOf[key]) + [Item(m.table.nextId, text)]]))
  {
    AppendRows(m.table, m.queueOf, m.deques, m.procs, m.sent, key, text);
    AppendLines(m.queueOf, m.deques, m.serial, m.procs, key, Item(m.table.nextId, text));
    hide RowsOk, TasksOk, LinesOk;
  }

  // --- A handler enters ---

  /** Replacing a task that held nothing by a chooser of the head of its line. */
  lemma EnterRows(table: Table, queueOf: map<Key, Ref>, deques: map<Ref, seq<Item>>, procs: map<nat, Proc>,
                  sent: seq<Submission>, pid: nat, p: Proc)
    requires RowsOk(table, queueOf, deques, procs, sent) && (pid in procs ==> procs[pid].phase == Waiting)
    requires p.phase == Capturing && p.kind == Immediate
    requires p.item.id in table.rows ==> table.rows[p.item.id].key == p.key
    requires MayWin(queueOf, deques, p)
    ensures RowsOk(table, queueOf, deques, procs[pid := p], sent)
  {
    KeepNatives(table, procs, pid, p);
  }

  lemma KeepNatives(table: Table, procs: map<nat, Proc>, pid: nat, p: Proc)
    requires pid in procs && NativeReady(procs[pid], procs[pid].item.id) ==> !IsQueued(table, procs[pid].item.id)
    ensures forall id :: IsQueued(table, id) && HeldByNative(procs, id) ==> HeldByNative(procs[pid := p], id)
  {
    forall id | IsQueued(table, id) && HeldByNative(procs, id)
      ensures HeldByNative(procs[pid := p], id)
    {
      var o :| o in procs && NativeReady(procs[o], id);
      assert procs[pid := p][o] == procs[o];
    }
  }

  lemma EnterTasks(procs: map<nat, Proc>, tasks: map<Key, nat>, locks: map<Route, nat>, nextPid: nat, pid: nat, p: Proc)
    requires TasksOk(procs, tasks, locks, nextPid) && pid in procs && procs[pid].phase == Waiting && Inside(p)
    requires Fits(p.kind, p.phase)
    requires p.kind == procs[pid].kind && p.key == procs[pid].key
    requires p.key.route !in locks
    requires forall k :: k in tasks && k.route == p.key.route ==> tasks[k] !in procs
    ensures TasksOk(procs[pid := p], tasks, locks[p.key.route := pid], nextPid)
  {
    assert forall o :: o in procs && ActiveDrain(procs[o]) ==> procs[o].key.route != p.key.route;
    EnterShared(procs, pid, p);
    hide SharedOk, NoDrainOk, Shares;
  }

  lemma EnterShared(procs: map<nat, Proc>, pid: nat, p: Proc)
    requires SharedOk(procs) && NoDrainOk(procs) && pid in procs && Inside(p)
    requires forall o :: o in procs && ActiveDrain(procs[o]) ==> procs[o].key.route != p.key.route
    ensures SharedOk(procs[pid := p]) && NoDrainOk(procs[pid := p])
  {
    var q := procs[pid := p];
    forall a, b | a in q && b in q && InsideImmediate(q[a]) && ActiveDrain(q[b])
      ensures Shares(q[a], q[b])
    {
      if a != pid { assert Shares(procs[a], procs[b]); }
    }
  }

  lemma EnterLines(queueOf: map<Key, Ref>, deques: map<Ref, seq<Item>>, serial: nat, procs: map<nat, Proc>, pid: nat,
                   p: Proc)
    requires LinesOk(queueOf, deques, serial, procs) && Inside(p)
    requires InsideImmediate(p) ==> Alone(queueOf, deques, p)
    requires InsideNative(p) ==> NoQueue(queueOf, deques, p.key.route)
    ensures LinesOk(queueOf, deques, serial, procs[pid := p])
  {
  }

  lemma MappedAlone(s: Sys, key: Key)
    requires MapOk(s.queueOf, s.deques, s.serial) && !RouteHasQueue(s, key.route)
    ensures var m := Mapped(s, key);
            && key in m.queueOf && m.queueOf[key].key == key && m.queueOf[key] in m.deques
            && forall k: Key :: k.route == key.route ==> Line(m.queueOf, m.deques, k) == []
  {
    forall k: Key | k.route == key.route
      ensures Line(s.queueOf, s.deques, k) == []
    {
      assert k in s.queueOf ==> Queue(s, k) == [];
    }
  }

  /** The only item on the route is the one just appended. */
  lemma EnqueuedAlone(s: Sys, key: Key, text: string, m: Sys)
    requires MapOk(s.queueOf, s.deques, s.serial) && !RouteHasQueue(s, key.route) && m == Enqueued(s, key, text)
    requires MapOk(m.queueOf, m.deques, m.serial)
    ensures m.procs == s.procs && m.tasks == s.tasks && m.locks == s.locks && m.table == Insert(s.table, key, text)
    ensures key in m.queueOf && m.queueOf[key].key == key && Queue(m, key) == [Item(s.table.nextId, text)]
    ensures forall k: Key :: k.route == key.route && k != key ==> Line(m.queueOf, m.deques, k) == []
  {
    MappedAlone(s, key);
    var a := Mapped(s, key);
    assert Line(a.queueOf, a.deques, key) == [];
    assert a.procs == s.procs && a.tasks == s.tasks && a.locks == s.locks && a.table == s.table;
    hide Mapped, RouteHasQueue;
  }

  ghost predicate RouteFree(s: Sys, route: Route) {
    LockFree(s, route) && !RouteHasQueue(s, route) && !RouteHasDrain(s, route)
  }

  lemma OrderMapOk(s: Sys)
    requires Order(s)
    ensures MapOk(s.queueOf, s.deques, s.serial)
  {
  }

  lemma NoLiveDrain(s: Sys, route: Route)
    requires !RouteHasDrain(s, route)
    ensures forall k :: k in s.tasks && k.route == route ==> s.tasks[k] !in s.procs
  {
  }

  lemma OrderEnterImmediate(s: Sys, pid: nat)
    requires Safe(s) && Order(s) && At(s, pid, Immediate, Waiting) && RouteFree(s, s.procs[pid].key.route)
    ensures Order(EnteredImmediate(s, pid, true, false))
  {
    hide Enqueued, Safe, Order, RouteHasQueue, RouteHasDrain, MapOk;
    var p := s.procs[pid];
    var m := Enqueued(s, p.key, p.text);
    OrderEnqueue(s, p.key, p.text);
    OrderMapOk(s);
    OrderMapOk(m);
    EnqueuedAlone(s, p.key, p.text, m);
    NoLiveDrain(s, p.key.route);
    var n := p.(phase := Capturing, queue := m.queueOf[p.key], item := Queue(m, p.key)[0]);
    EnterProc(m, pid, n);
  }

  lemma EnterProc(m: Sys, pid: nat, n: Proc)
    requires Order(m) && pid in m.procs && m.procs[pid].phase == Waiting && m.procs[pid].kind == Immediate
    requires n.key == m.procs[pid].key && n.kind == Immediate && n.phase == Capturing
    requires n.key.route !in m.locks
    requires forall k :: k in m.tasks && k.route == n.key.route ==> m.tasks[k] !in m.procs
    requires n.item.id in m.table.rows ==> m.table.rows[n.item.id].key == n.key
    requires MayWin(m.queueOf, m.deques, n) && Alone(m.queueOf, m.deques, n)
    ensures Order(Locked(WithProc(m, pid, n), pid, n.key.route))
  {
    EnterRows(m.table, m.queueOf, m.deques, m.procs, m.sent, pid, n);
    EnterTasks(m.procs, m.tasks, m.locks, m.nextPid, pid, n);
    EnterLines(m.queueOf, m.deques, m.serial, m.procs, pid, n);
    hide RowsOk, TasksOk, LinesOk;
  }

  lemma NativeRows(table: Table, queueOf: map<Key, Ref>, deques: map<Ref, seq<Item>>, procs: map<nat, Proc>,
                   sent: seq<Submission>, pid: nat, p: Proc, text: string)
    requires RowsOk(table, queueOf, deques, procs, sent) && Fresh(table.nextId, table, deques, procs, sent)
    requires (pid in procs ==> procs[pid].phase == Waiting) && NativeReady(p, table.nextId)
    ensures RowsOk(Insert(table, p.key, text), queueOf, deques, procs[pid := p], sent)
  {
    var t := Insert(table, p.key, text);
    KeepNatives(table, procs, pid, p);
    assert HeldByNative(procs[pid := p], table.nextId) by { assert NativeReady(procs[pid := p][pid], table.nextId); }
    assert KeyOk(t, deques, procs[pid := p]);
    assert HeadOk(t, queueOf, deques, procs[pid := p]);
    assert FrontOk(t, procs[pid := p], sent);
  }

  lemma OrderEnterNative(s: Sys, pid: nat)
    requires Safe(s) && Order(s) && At(s, pid, Native, Waiting) && RouteFree(s, s.procs[pid].key.route)
    ensures Order(EnteredNative(s, pid, true, false))
  {
    var p := s.procs[pid];
    var n := p.(phase := Ready, item := Item(s.table.nextId, p.text));
    NextIdFresh(s);
    assert NoQueue(s.queueOf, s.deques, p.key.route) by {
      forall key | key in s.queueOf && key.route == p.key.route
        ensures Line(s.queueOf, s.deques, key) == []
      {
        assert Queue(s, key) == [];
      }
    }
    NoLiveDrain(s, p.key.route);
    NativeRows(s.table, s.queueOf, s.deques, s.procs, s.sent, pid, n, p.text);
    EnterTasks(s.procs, s.tasks, s.locks, s.nextPid, pid, n);
    EnterLines(s.queueOf, s.deques, s.serial, s.procs, pid, n);
    hide RowsOk, TasksOk, LinesOk, Safe;
  }

  // --- The compare-and-set and the hand-over ---

  /** A native sender holding a queued row of this target is this task, or the
      target's line is empty. */
  lemma NativeHolder(s: Sys, pid: nat, o: nat)
    requires Order(s) && InPhase(s, pid, Ready) && IsQueued(s.table, o) && s.table.rows[o].key == s.procs[pid].key
    requires HeldByNative(s.procs, o)
    ensures if s.procs[pid].kind == Native then o == s.procs[pid].item.id
            else Line(s.queueOf, s.deques, s.procs[pid].key) == []
  {
    var n :| n in s.procs && NativeReady(s.procs[n], o);
    assert NoQueue(s.queueOf, s.deques, s.procs[n].key.route);
  }

  lemma NativeLineEmpty(s: Sys, pid: nat)
    requires Order(s) && InPhase(s, pid, Ready) && s.procs[pid].kind == Native
    ensures Line(s.queueOf, s.deques, s.procs[pid].key) == []
  {
    assert NoQueue(s.queueOf, s.deques, s.procs[pid].key.route);
  }

  /** At the moment it wins, a row is older than every other queued row of its target. */
  lemma WinnerFirst(s: Sys, pid: nat)
    requires Order(s) && InPhase(s, pid, Ready) && IsQueued(s.table, s.procs[pid].item.id)
    ensures forall o :: IsQueued(s.table, o) && s.table.rows[o].key == s.procs[pid].key && o != s.procs[pid].item.id ==>
              s.procs[pid].item.id < o
  {
    var p := s.procs[pid];
    var q := Line(s.queueOf, s.deques, p.key);
    if p.kind == Native {
      NativeLineEmpty(s, pid);
    } else {
      assert MayWin(s.queueOf, s.deques, p);
    }
    forall o | IsQueued(s.table, o) && s.table.rows[o].key == p.key && o != p.item.id
      ensures p.item.id < o
    {
      assert Has(q, o) || HeldByNative(s.procs, o);
      if HeldByNative(s.procs, o) {
        NativeHolder(s, pid, o);
      }
    }
  }

  lemma WinRows(table: Table, queueOf: map<Key, Ref>, deques: map<Ref, seq<Item>>, procs: map<nat, Proc>,
                sent: seq<Submission>, pid: nat)
    requires RowsOk(table, queueOf, deques, procs, sent) && pid in procs && procs[pid].phase == Ready
    requires IsQueued(table, procs[pid].item.id)
    requires forall o :: IsQueued(table, o) && table.rows[o].key == procs[pid].key && o != procs[pid].item.id ==>
               procs[pid].item.id < o
    ensures RowsOk(Submit(table, procs[pid].item.id), queueOf, deques, procs[pid := procs[pid].(phase := Won)], sent)
  {
    var t := Submit(table, procs[pid].item.id);
    var p := procs[pid := procs[pid].(phase := Won)];
    KeepNatives(t, procs, pid, p[pid]);
    assert forall id :: IsQueued(t, id) ==> IsQueued(table, id) && id != procs[pid].item.id;
    assert OwnedOk(t, queueOf, deques, p);
    assert FrontOk(t, p, sent);
    assert HeadOk(t, queueOf, deques, p);
  }

  lemma WinnerHeads(s: Sys, pid: nat)
    requires Order(s) && InPhase(s, pid, Ready) && IsQueued(s.table, s.procs[pid].item.id)
    ensures s.procs[pid].kind == Drain ==> HeadOrDropped(s.queueOf, s.deques, s.procs[pid])
  {
    assert s.procs[pid].kind == Drain ==> MayWin(s.queueOf, s.deques, s.procs[pid]);
  }

  lemma OrderWin(s: Sys, pid: nat)
    requires Order(s) && InPhase(s, pid, Ready) && IsQueued(s.table, s.procs[pid].item.id)
    ensures Order(WithProc(s.(table := Submit(s.table, s.procs[pid].item.id)), pid, s.procs[pid].(phase := Won)))
  {
    WinnerFirst(s, pid);
    WinnerHeads(s, pid);
    WinRows(s.table, s.queueOf, s.deques, s.procs, s.sent, pid);
    PhaseTasks(s.procs, s.tasks, s.locks, s.nextPid, pid, Won);
    PhaseLines(s.queueOf, s.deques, s.serial, s.procs, pid, Won);
    hide RowsOk, TasksOk, LinesOk;
  }

  /** No two live tasks are between winning and handing over on one route. */
  lemma OneWinner(s: Sys, a: nat, b: nat)
    requires Safe(s) && TasksOk(s.procs, s.tasks, s.locks, s.nextPid)
    requires InPhase(s, a, Won) && InPhase(s, b, Won) && s.procs[a].key.route == s.procs[b].key.route
    ensures a == b
  {
    var p, q := s.procs[a], s.procs[b];
    assert InsideImmediate(p) && ActiveDrain(q) ==> Shares(p, q);
    assert InsideImmediate(q) && ActiveDrain(p) ==> Shares(q, p);
    if p.kind == Drain && q.kind == Drain {
      OneDrain(s.procs, s.tasks, a, b);
    }
  }

  lemma HandRows(table: Table, queueOf: map<Key, Ref>, deques: map<Ref, seq<Item>>, procs: map<nat, Proc>,
                 sent: seq<Submission>, pid: nat, text: string)
    requires RowsOk(table, queueOf, deques, procs, sent)
    requires pid in procs && procs[pid].phase == Won && !procs[pid].cancelled
    requires forall o :: o in procs && procs[o].phase == Won && !procs[o].cancelled
                         && procs[o].key == procs[pid].key ==>
               o == pid
    ensures RowsOk(table, queueOf, deques, procs[pid := procs[pid].(phase := Sent)],
                   sent + [Submission(procs[pid].item.id, procs[pid].key, text)])
  {
    var p := procs[pid := procs[pid].(phase := Sent)];
    KeepNatives(table, procs, pid, p[pid]);
  }

  lemma OrderHand(s: Sys, pid: nat)
    requires Safe(s) && Order(s) && InPhase(s, pid, Won)
    ensures Order(HandedOver(s, pid))
  {
    forall o | o in s.procs && s.procs[o].phase == Won && !s.procs[o].cancelled && s.procs[o].key == s.procs[pid].key
      ensures o == pid
    {
      OneWinner(s, o, pid);
    }
    HandRows(s.table, s.queueOf, s.deques, s.procs, s.sent, pid, HandedOver(s, pid).sent[|s.sent|].text);
    PhaseTasks(s.procs, s.tasks, s.locks, s.nextPid, pid, Sent);
    PhaseLines(s.queueOf, s.deques, s.serial, s.procs, pid, Sent);
    hide RowsOk, TasksOk, LinesOk, Safe;
  }
}
