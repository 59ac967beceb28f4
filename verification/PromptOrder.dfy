/** Prompts reach a target in the order they were accepted.

    With a fault-free spool every deque stays ascending, a queued row has one owner,
    and the submissions to one target have increasing row ids. A restart keeps this
    exactly when no row older than a submission is retargeted onto its target. */
module PromptOrder {
  import opened PromptTable
  import opened PromptLifecycle
  import opened PromptAtMostOnce

  // --- The invariant, one predicate per concern ---

  ghost predicate Has(q: seq<Item>, id: nat) {
    exists i :: 0 <= i < |q| && q[i].id == id
  }

  function Line(queueOf: map<Key, Ref>, deques: map<Ref, seq<Item>>, key: Key): seq<Item> {
    if key in queueOf && queueOf[key] in deques then deques[queueOf[key]] else []
  }

  function Under(deques: map<Ref, seq<Item>>, ref: Ref): seq<Item> {
    if ref in deques then deques[ref] else []
  }

  /** A handler that holds its route lock. */
  predicate Inside(p: Proc) {
    InsideImmediate(p) || InsideNative(p)
  }

  predicate InsideImmediate(p: Proc) {
    p.kind == Immediate && p.phase != Waiting
  }

  predicate InsideNative(p: Proc) {
    p.kind == Native && p.phase != Waiting
  }

  predicate ActiveDrain(p: Proc) {
    p.kind == Drain && !p.cancelled
  }

  ghost predicate MapOk(queueOf: map<Key, Ref>, deques: map<Ref, seq<Item>>, serial: nat) {
    && (forall key :: key in queueOf ==> queueOf[key] in deques && queueOf[key].key == key)
    && (forall ref :: ref in deques ==> ref.serial < serial)
  }

  ghost predicate PidsOk(procs: map<nat, Proc>, tasks: map<Key, nat>, nextPid: nat) {
    && (forall pid :: pid in procs ==> pid < nextPid && Fits(procs[pid].kind, procs[pid].phase))
    && (forall key :: key in tasks ==> tasks[key] < nextPid)
  }

  /** The phases each kind of task goes through. */
  predicate Fits(kind: Kind, phase: Phase) {
    match kind
    case Discard => phase in {Waiting, Capturing}
    case Native => phase in {Waiting, Ready, Won, Sent}
    case Immediate => phase in {Waiting, Capturing, Ready, Won, Sent}
    case Drain => phase != Waiting
  }

  ghost predicate SortedOk(deques: map<Ref, seq<Item>>) {
    forall ref :: ref in deques ==> IdsAscend(deques[ref])
  }

  /** A deque and the tasks of a key only hold rows of that key. */
  ghost predicate KeyOk(table: Table, deques: map<Ref, seq<Item>>, procs: map<nat, Proc>) {
    && (forall ref, x :: ref in deques && x in deques[ref] && x.id in table.rows ==> table.rows[x.id].key == ref.key)
    && (forall pid :: pid in procs && Holding(procs[pid]) && procs[pid].item.id in table.rows ==>
          table.rows[procs[pid].item.id].key == procs[pid].key)
  }

  predicate NativeReady(p: Proc, id: nat) {
    p.kind == Native && p.phase == Ready && p.item.id == id
  }

  /** Every queued row is in the deque of its target, or is the row a native sender
      has just inserted. */
  ghost predicate OwnedOk(table: Table, queueOf: map<Key, Ref>, deques: map<Ref, seq<Item>>, procs: map<nat, Proc>) {
    forall id :: IsQueued(table, id) ==>
      Has(Line(queueOf, deques, table.rows[id].key), id) || HeldByNative(procs, id)
  }

  ghost predicate HeldByNative(procs: map<nat, Proc>, id: nat) {
    exists pid :: pid in procs && NativeReady(procs[pid], id)
  }

  /** What a sender may still win is the head of its target's deque. */
  ghost predicate HeadOk(table: Table, queueOf: map<Key, Ref>, deques: map<Ref, seq<Item>>, procs: map<nat, Proc>) {
    forall pid :: pid in procs && Choosing(procs[pid]) && IsQueued(table, procs[pid].item.id) ==>
      MayWin(queueOf, deques, procs[pid])
  }

  ghost predicate MayWin(queueOf: map<Key, Ref>, deques: map<Ref, seq<Item>>, p: Proc) {
    Heads(Line(queueOf, deques, p.key), p.item) && queueOf[p.key] == p.queue
  }

  predicate Heads(q: seq<Item>, x: Item) {
    q != [] && q[0] == x
  }

  /** Holding an item taken from a deque, the compare-and-set still ahead. */
  predicate Choosing(p: Proc) {
    p.kind != Native && Holding(p) && (p.phase == Capturing || p.phase == Ready)
  }

  /** A drainer's own deque still starts with its item, or was emptied and dropped. */
  ghost predicate DrainHeadOk(queueOf: map<Key, Ref>, deques: map<Ref, seq<Item>>, procs: map<nat, Proc>) {
    forall pid :: pid in procs && ActiveDrain(procs[pid]) && Claims(procs[pid]) ==>
      HeadOrDropped(queueOf, deques, procs[pid])
  }

  ghost predicate HeadOrDropped(queueOf: map<Key, Ref>, deques: map<Ref, seq<Item>>, p: Proc) {
    && p.queue in deques
    && if deques[p.queue] == [] then p.key in queueOf ==> queueOf[p.key] != p.queue
       else deques[p.queue][0] == p.item
  }

  /** A line whose items are all decided may be unmapped. */
  ghost predicate Decided(table: Table, q: seq<Item>) {
    forall i :: 0 <= i < |q| ==> !IsQueued(table, q[i].id)
  }

  predicate MappedRef(queueOf: map<Key, Ref>, ref: Ref) {
    ref.key in queueOf && queueOf[ref.key] == ref
  }

  /** A deque no key maps to any more holds nothing that could still be sent. */
  ghost predicate DetachedOk(table: Table, queueOf: map<Key, Ref>, deques: map<Ref, seq<Item>>) {
    forall ref :: ref in deques && !MappedRef(queueOf, ref) ==> Decided(table, deques[ref])
  }

  ghost predicate AllSentBelow(sent: seq<Submission>, key: Key, id: nat) {
    forall i :: 0 <= i < |sent| && sent[i].key == key ==> sent[i].id < id
  }

  ghost predicate AllQueuedAbove(table: Table, key: Key, id: nat) {
    forall o :: IsQueued(table, o) && table.rows[o].key == key ==> id < o
  }

  /** A winner lies between what its target was sent and what is still queued. */
  ghost predicate FrontOk(table: Table, procs: map<nat, Proc>, sent: seq<Submission>) {
    forall pid :: pid in procs && procs[pid].phase == Won && !procs[pid].cancelled ==>
      && AllSentBelow(sent, procs[pid].key, procs[pid].item.id)
      && AllQueuedAbove(table, procs[pid].key, procs[pid].item.id)
  }

  ghost predicate Frontier(table: Table, sent: seq<Submission>) {
    forall id :: IsQueued(table, id) ==> AllSentBelow(sent, table.rows[id].key, id)
  }

  /** Per target, the history has increasing ids. */
  ghost predicate InOrder(sent: seq<Submission>) {
    forall i, j :: 0 <= i < j < |sent| && sent[i].key == sent[j].key ==> sent[i].id < sent[j].id
  }

  /** One registered drainer per route; only cancelled ones are unregistered. */
  ghost predicate DrainsOk(procs: map<nat, Proc>, tasks: map<Key, nat>) {
    && (forall pid :: pid in procs && ActiveDrain(procs[pid]) ==>
          procs[pid].key in tasks && tasks[procs[pid].key] == pid)
    && (forall key :: key in tasks && tasks[key] in procs ==>
          ActiveDrain(procs[tasks[key]]) && procs[tasks[key]].key == key)
    && (forall a, b :: a in tasks && b in tasks && a.route == b.route && tasks[a] in procs && tasks[b] in procs ==>
          a == b)
  }

  ghost predicate LocksOk(procs: map<nat, Proc>, locks: map<Route, nat>) {
    forall pid :: pid in procs && Inside(procs[pid]) ==>
      procs[pid].key.route in locks && locks[procs[pid].key.route] == pid
  }

  /** While an immediate sender is inside, its item is alone on the route. */
  ghost predicate AloneOk(queueOf: map<Key, Ref>, deques: map<Ref, seq<Item>>, procs: map<nat, Proc>) {
    forall pid :: pid in procs && InsideImmediate(procs[pid]) ==> Alone(queueOf, deques, procs[pid])
  }

  ghost predicate Alone(queueOf: map<Key, Ref>, deques: map<Ref, seq<Item>>, p: Proc) {
    && (Under(deques, p.queue) == [] || Under(deques, p.queue) == [p.item])
    && (forall key :: key in queueOf && key.route == p.key.route && queueOf[key] != p.queue ==>
          Line(queueOf, deques, key) == [])
  }

  /** A drainer started meanwhile works on the same deque and item. */
  ghost predicate SharedOk(procs: map<nat, Proc>) {
    forall a, b :: a in procs && b in procs && InsideImmediate(procs[a]) && ActiveDrain(procs[b]) ==>
      Shares(procs[a], procs[b])
  }

  predicate Shares(p: Proc, d: Proc) {
    d.key.route == p.key.route ==>
      && (d.phase in {Capturing, Notifying, Ready, Won, Sent} ==> d.queue == p.queue)
      && (d.phase in {Ready, Won, Sent} ==> d.item == p.item)
  }

  /** A native sender inside has the route to itself. */
  ghost predicate NativeOk(queueOf: map<Key, Ref>, deques: map<Ref, seq<Item>>, procs: map<nat, Proc>) {
    forall pid :: pid in procs && InsideNative(procs[pid]) ==> NoQueue(queueOf, deques, procs[pid].key.route)
  }

  ghost predicate NoQueue(queueOf: map<Key, Ref>, deques: map<Ref, seq<Item>>, route: Route) {
    forall key :: key in queueOf && key.route == route ==> Line(queueOf, deques, key) == []
  }

  ghost predicate NoDrainOk(procs: map<nat, Proc>) {
    forall a, b :: a in procs && b in procs && InsideNative(procs[a]) && ActiveDrain(procs[b]) ==>
      procs[b].key.route != procs[a].key.route
  }

  ghost predicate RowsOk(table: Table, queueOf: map<Key, Ref>, deques: map<Ref, seq<Item>>, procs: map<nat, Proc>,
                         sent: seq<Submission>) {
    && KeyOk(table, deques, procs) && OwnedOk(table, queueOf, deques, procs) && HeadOk(table, queueOf, deques, procs)
    && DetachedOk(table, queueOf, deques)
    && FrontOk(table, procs, sent) && Frontier(table, sent) && InOrder(sent)
  }

  ghost predicate TasksOk(procs: map<nat, Proc>, tasks: map<Key, nat>, locks: map<Route, nat>, nextPid: nat) {
    && PidsOk(procs, tasks, nextPid) && DrainsOk(procs, tasks) && LocksOk(procs, locks)
    && SharedOk(procs) && NoDrainOk(procs)
  }

  ghost predicate LinesOk(queueOf: map<Key, Ref>, deques: map<Ref, seq<Item>>, serial: nat, procs: map<nat, Proc>) {
    && MapOk(queueOf, deques, serial) && SortedOk(deques) && DrainHeadOk(queueOf, deques, procs)
    && AloneOk(queueOf, deques, procs) && NativeOk(queueOf, deques, procs)
  }

  ghost predicate Order(s: Sys) {
    && RowsOk(s.table, s.queueOf, s.deques, s.procs, s.sent)
    && TasksOk(s.procs, s.tasks, s.locks, s.nextPid)
    && LinesOk(s.queueOf, s.deques, s.serial, s.procs)
  }

  // --- What the small updates keep ---

  ghost predicate KeepsKeys(before: Table, after: Table) {
    Shrinks(before, after) && forall id :: id in after.rows ==> after.rows[id].key == before.rows[id].key
  }

  lemma OrderTable(s: Sys, table: Table)
    requires Order(s) && KeepsKeys(s.table, table)
    ensures Order(s.(table := table))
  {
    assert forall id :: IsQueued(table, id) ==> IsQueued(s.table, id);
    hide TasksOk, LinesOk;
  }

  lemma OrderDelete(s: Sys, ids: set<nat>)
    requires Order(s)
    ensures Order(Deleted(s, ids, true))
  {
    OrderTable(s, Delete(s.table, ids));
  }

  lemma UnmapRows(table: Table, queueOf: map<Key, Ref>, deques: map<Ref, seq<Item>>, procs: map<nat, Proc>,
                  sent: seq<Submission>, key: Key)
    requires RowsOk(table, queueOf, deques, procs, sent) && Decided(table, Line(queueOf, deques, key))
    ensures RowsOk(table, queueOf - {key}, deques, procs, sent)
  {
    assert forall k :: k != key ==> Line(queueOf - {key}, deques, k) == Line(queueOf, deques, k);
  }

  lemma UnmapLines(queueOf: map<Key, Ref>, deques: map<Ref, seq<Item>>, serial: nat, procs: map<nat, Proc>, key: Key)
    requires LinesOk(queueOf, deques, serial, procs)
    ensures LinesOk(queueOf - {key}, deques, serial, procs)
  {
    assert forall k :: k != key ==> Line(queueOf - {key}, deques, k) == Line(queueOf, deques, k);
  }

  lemma OrderUnmap(s: Sys, key: Key)
    requires Order(s) && Decided(s.table, Queue(s, key))
    ensures Order(Unmapped(s, key))
  {
    UnmapRows(s.table, s.queueOf, s.deques, s.procs, s.sent, key);
    UnmapLines(s.queueOf, s.deques, s.serial, s.procs, key);
    hide RowsOk, TasksOk, LinesOk;
  }

  // A deque loses a decided prefix.

  lemma TailHas(q: seq<Item>, n: nat, id: nat)
    requires n <= |q| && Has(q, id)
    requires forall i :: 0 <= i < n ==> q[i].id != id
    ensures Has(q[n..], id)
  {
    var i :| 0 <= i < |q| && q[i].id == id;
    assert q[n..][i - n].id == id;
  }

  lemma TrimRows(table: Table, queueOf: map<Key, Ref>, deques: map<Ref, seq<Item>>, procs: map<nat, Proc>,
                 sent: seq<Submission>, ref: Ref, n: nat)
    requires RowsOk(table, queueOf, deques, procs, sent)
    requires ref in deques && n <= |deques[ref]| && Decided(table, deques[ref][..n])
    ensures RowsOk(table, queueOf, deques[ref := deques[ref][n..]], procs, sent)
  {
    var q := deques[ref];
    var d := deques[ref := q[n..]];
    assert forall i :: 0 <= i < n ==> q[i] == q[..n][i];
    assert forall key :: Line(queueOf, d, key) == Line(queueOf, deques, key)
                         || (Line(queueOf, deques, key) == q && Line(queueOf, d, key) == q[n..]);
    assert forall x :: x in q[n..] ==> x in q;
    forall id | IsQueued(table, id)
      ensures Has(Line(queueOf, d, table.rows[id].key), id) || HeldByNative(procs, id)
    {
      if Has(Line(queueOf, deques, table.rows[id].key), id) && Line(queueOf, deques, table.rows[id].key) == q {
        TailHas(q, n, id);
      }
    }
    assert KeyOk(table, d, procs);
    assert HeadOk(table, queueOf, d, procs) by {
      forall pid | pid in procs && Choosing(procs[pid]) && IsQueued(table, procs[pid].item.id)
        ensures MayWin(queueOf, d, procs[pid])
      {
        assert MayWin(queueOf, deques, procs[pid]);
      }
    }
    assert DetachedOk(table, queueOf, d);
  }

  lemma TrimLines(queueOf: map<Key, Ref>, deques: map<Ref, seq<Item>>, serial: nat, procs: map<nat, Proc>, ref: Ref,
                  n: nat)
    requires LinesOk(queueOf, deques, serial, procs)
    requires ref in deques && n <= |deques[ref]|
    requires forall pid :: pid in procs && ActiveDrain(procs[pid]) && Claims(procs[pid]) && procs[pid].queue == ref ==>
               |deques[ref]| == 1 && n == 1 && (procs[pid].key in queueOf ==> queueOf[procs[pid].key] != ref)
    ensures LinesOk(queueOf, deques[ref := deques[ref][n..]], serial, procs)
  {
    var q := deques[ref];
    var d := deques[ref := q[n..]];
    assert forall key :: Line(queueOf, d, key) == Line(queueOf, deques, key)
                         || (Line(queueOf, deques, key) == q && Line(queueOf, d, key) == q[n..]);
    assert q == [] ==> q[n..] == [];
    forall pid | pid in procs && InsideImmediate(procs[pid])
      ensures Alone(queueOf, d, procs[pid])
    {
      assert Alone(queueOf, deques, procs[pid]);
    }
    forall pid | pid in procs && InsideNative(procs[pid])
      ensures NoQueue(queueOf, d, procs[pid].key.route)
    {
      assert NoQueue(queueOf, deques, procs[pid].key.route);
    }
    assert DrainHeadOk(queueOf, d, procs);
    assert SortedOk(d);
  }

  lemma OrderTrim(s: Sys, ref: Ref, n: nat)
    requires Order(s) && ref in s.deques && n <= |s.deques[ref]| && Decided(s.table, s.deques[ref][..n])
    requires forall pid ::
               pid in s.procs && ActiveDrain(s.procs[pid]) && Claims(s.procs[pid]) && s.procs[pid].queue == ref ==>
               |s.deques[ref]| == 1 && n == 1 && (s.procs[pid].key in s.queueOf ==> s.queueOf[s.procs[pid].key] != ref)
    ensures Order(s.(deques := s.deques[ref := s.deques[ref][n..]]))
  {
    TrimRows(s.table, s.queueOf, s.deques, s.procs, s.sent, ref, n);
    TrimLines(s.queueOf, s.deques, s.serial, s.procs, ref, n);
    hide RowsOk, TasksOk, LinesOk;
  }

  // A task ends.

  lemma EndRows(table: Table, queueOf: map<Key, Ref>, deques: map<Ref, seq<Item>>, procs: map<nat, Proc>,
                sent: seq<Submission>, pid: nat)
    requires RowsOk(table, queueOf, deques, procs, sent)
    requires pid in procs && NativeReady(procs[pid], procs[pid].item.id) ==> !IsQueued(table, procs[pid].item.id)
    ensures RowsOk(table, queueOf, deques, procs - {pid}, sent)
  {
    forall id | IsQueued(table, id)
      ensures Has(Line(queueOf, deques, table.rows[id].key), id) || HeldByNative(procs - {pid}, id)
    {
      if HeldByNative(procs, id) {
        var q :| q in procs && NativeReady(procs[q], id);
        assert q != pid;
        assert q in procs - {pid};
      }
    }
  }

  lemma EndTasks(procs: map<nat, Proc>, tasks: map<Key, nat>, locks: map<Route, nat>, nextPid: nat, pid: nat, key: Key)
    requires TasksOk(procs, tasks, locks, nextPid)
    ensures TasksOk(procs - {pid}, tasks, Released(locks, pid, key.route), nextPid)
    ensures TasksOk(procs - {pid}, Unregistered(tasks, pid, key), Released(locks, pid, key.route), nextPid)
  {
  }

  lemma EndLines(queueOf: map<Key, Ref>, deques: map<Ref, seq<Item>>, serial: nat, procs: map<nat, Proc>, pid: nat)
    requires LinesOk(queueOf, deques, serial, procs)
    ensures LinesOk(queueOf, deques, serial, procs - {pid})
  {
  }

  lemma OrderEnd(s: Sys, pid: nat, key: Key)
    requires Order(s)
    requires pid in s.procs && NativeReady(s.procs[pid], s.procs[pid].item.id) ==>
               !IsQueued(s.table, s.procs[pid].item.id)
    ensures Order(Ended(s, pid, key.route)) && Order(Exited(s, pid, key))
  {
    OrderEndOnly(s, pid, key);
    if Queue(s, key) == [] {
      OrderUnmap(s, key);
      OrderEndOnly(Unmapped(s, key), pid, key);
    }
    assert s.queueOf - {key} == Unmapped(s, key).queueOf;
    hide Order;
  }

  lemma OrderEndOnly(s: Sys, pid: nat, key: Key)
    requires Order(s)
    requires pid in s.procs && NativeReady(s.procs[pid], s.procs[pid].item.id) ==>
               !IsQueued(s.table, s.procs[pid].item.id)
    ensures Order(Ended(s, pid, key.route))
    ensures Order(Ended(s, pid, key.route).(tasks := Unregistered(s.tasks, pid, key)))
  {
    EndRows(s.table, s.queueOf, s.deques, s.procs, s.sent, pid);
    EndTasks(s.procs, s.tasks, s.locks, s.nextPid, pid, key);
    EndLines(s.queueOf, s.deques, s.serial, s.procs, pid);
    hide RowsOk, TasksOk, LinesOk;
  }
}
