/** The in-memory prompt queues of one process over the durable spool: appending a prompt,
    and rebuilding everything after a restart. */
module PromptQueues {
  import opened PromptTable
  import opened PromptLifecycle

  predicate HasDrainer(drained: set<Key>, route: Route) {
    exists key :: key in drained && key.route == route
  }

  /** One drainer for each topic that has a queue with an open gate, and no other. */
  ghost predicate Drainers(s: Sys, drained: set<Key>) {
    && (forall key :: key in drained ==> key in s.queueOf && !Gated(s, key))
    && (forall a, b :: a in drained && b in drained && a.route == b.route ==> a == b)
    && (forall key :: key in s.queueOf && !Gated(s, key) ==> HasDrainer(drained, key.route))
  }

  /** The prompts queued for a target, in order. */
  function QueueOf(queueOf: map<Key, Ref>, deques: map<Ref, seq<Item>>, key: Key): seq<Item> {
    if key in queueOf && queueOf[key] in deques then deques[queueOf[key]] else []
  }

  /** These items are put behind the queue of the target; no other queue changes, and no
      target gets another deque. */
  ghost predicate PutBehind(oldQueueOf: map<Key, Ref>, oldDeques: map<Ref, seq<Item>>,
                            queueOf: map<Key, Ref>, deques: map<Ref, seq<Item>>, key: Key, items: seq<Item>) {
    && QueueOf(queueOf, deques, key) == QueueOf(oldQueueOf, oldDeques, key) + items
    && (forall k :: k in oldQueueOf ==> k in queueOf && queueOf[k] == oldQueueOf[k])
    && (forall ref :: ref in oldDeques && !(key in queueOf && ref == queueOf[key]) ==>
          ref in deques && deques[ref] == oldDeques[ref])
  }

  class AgentInputQueues {
    const store: PromptStore
    var queueOf: map<Key, Ref>
    var deques: map<Ref, seq<Item>>
    var serial: nat
    var confirming: set<nat>

    /** Spool and memory are those of `s`. */
    ghost predicate Shows(s: Sys)
      reads this, store
    {
      store.Contents() == s.table && queueOf == s.queueOf && deques == s.deques && serial == s.serial
      && confirming == s.confirming
    }

    constructor (store: PromptStore, serial: nat)
      ensures this.store == store && this.serial == serial
      ensures queueOf == map[] && deques == map[] && confirming == {}
    {
      this.store, this.serial := store, serial;
      queueOf, deques, confirming := map[], map[], {};
    }

    method DequeFor(ghost s: Sys, key: Key) returns (ref: Ref)
      requires Shows(s)
      modifies this
      ensures Shows(Mapped(s, key)) && key in queueOf && ref == queueOf[key]
      ensures PutBehind(old(queueOf), old(deques), queueOf, deques, key, [])
      ensures QueueOf(queueOf, deques, key) == QueueOf(old(queueOf), old(deques), key)
    {
      if key !in queueOf {
        ref := Ref(key, serial);
        queueOf, deques, serial := queueOf[key := ref], deques[ref := []], serial + 1;
      }
      ref := queueOf[key];
    }

    /** A prompt is accepted while queue and spool have room: the row first, then the item
        behind the deque of its target. A store that raises accepts nothing. */
    method QueueAgentInput(ghost s: Sys, key: Key, text: string, limit: nat, raises: bool) returns (accepted: bool)
      requires Shows(s) && limit == s.limit
      modifies this, store
      ensures accepted <==> HasRoom(Mapped(s, key), key) && !raises
      ensures Shows(if accepted then Enqueued(s, key, text) else Mapped(s, key))
      ensures accepted <==>
                && !raises && |QueueOf(old(queueOf), old(deques), key)| < limit
                && |set o | o in old(store.rows) && old(store.rows)[o].key == key| < limit
      ensures store.rows == if accepted then old(store.rows)[old(store.nextId) := Row(key, text, Queued)]
                            else old(store.rows)
      ensures PutBehind(old(queueOf), old(deques), queueOf, deques, key,
                        if accepted then [Item(old(store.nextId), text)] else [])
    {
      hide Advances, PutBehind, HasRoom, Enqueued, Mapped, Insert;
      MappedRoom(s, key);
      EnqueuedIs(s, key, text);
      var ref := DequeFor(s, key);
      ghost var before := deques;
      var queue := if ref in deques then deques[ref] else [];
      if |queue| >= limit || raises {
        return false;
      }
      var id, stored := store.Enqueue(key, text, limit);
      if !stored {
        return false;
      }
      deques := deques[ref := queue + [Item(id, text)]];
      PutNext(old(queueOf), old(deques), queueOf, before, key, Item(id, text));
      accepted := true;
    }

    /** Startup, with empty memory: the spool is read in id order; queued rows are moved to
        the window their topic resolves to and queued there, submitted rows get a
        confirmation task. A row in `failed` is skipped when its move raises. In the end
        each topic with a queue whose gate is open gets one drainer. */
    method RestoreAgentInputQueues(ghost s: Sys, bound: map<Route, string>, failed: set<nat>)
      returns (drained: set<Key>)
      requires store.Contents() == s.table && bound == s.bound && serial == s.serial && WellFormed(s.table)
      requires queueOf == map[] && deques == map[] && confirming == {}
      modifies this, store
      ensures Shows(Restarted(s, failed))
      ensures Drainers(Restarted(s, failed), drained)
    {
      AtStart(s.table, bound, failed, serial);
      hide AtRow, Restarted, Appended;
      var id := 0;
      while id < store.nextId
        invariant 0 <= id <= store.nextId == s.table.nextId && serial == s.serial
        invariant AtRow(s.table, bound, failed, id, store.rows, confirming, queueOf, deques, serial)
      {
        NextRow(s.table, bound, failed, id, store.rows, confirming, queueOf, deques, serial);
        if id in store.rows {
          RestoreOne(s.table, bound, failed, id);
        }
        id := id + 1;
      }
      AtEnd(s, failed, store.rows, confirming, queueOf, deques);
      serial := serial + 1;
      RestartedBound(s, failed);
      drained := StartDrainers(Restarted(s, failed), bound);
    }

    method GateClosed(ghost s: Sys, bound: map<Route, string>, key: Key) returns (closed: bool)
      requires Shows(s) && bound == s.bound
      ensures closed <==> Gated(s, key)
      ensures closed <==> exists id :: && id in store.rows && store.rows[id].state.Submitted?
                                       && store.rows[id].key.route == key.route
                                       && (store.rows[id].key == key
                                           || !(key.route in bound && bound[key.route] == key.window))
    {
      var current := key.route in bound && bound[key.route] == key.window;
      closed := exists id | id in store.rows ::
        && store.rows[id].state.Submitted? && store.rows[id].key.route == key.route
        && (store.rows[id].key == key || !current);
    }

    /** A drainer for each target whose gate is open, unless its topic has one already. */
    method StartDrainers(ghost s: Sys, bound: map<Route, string>) returns (drained: set<Key>)
      requires Shows(s) && bound == s.bound
      ensures Drainers(s, drained)
    {
      hide Gated;
      drained := {};
      var todo := queueOf.Keys;
      while todo != {}
        invariant todo <= queueOf.Keys
        invariant forall key :: key in drained ==> key in queueOf && !Gated(s, key)
        invariant forall a, b :: a in drained && b in drained && a.route == b.route ==> a == b
        invariant forall key :: key in queueOf && key !in todo && !Gated(s, key) ==> HasDrainer(drained, key.route)
        decreases |todo|
      {
        var key :| key in todo;
        todo := todo - {key};
        var closed := GateClosed(s, bound, key);
        if !closed && !HasDrainer(drained, key.route) {
          ghost var before := drained;
          drained := drained + {key};
          assert forall k :: HasDrainer(before, k) ==> HasDrainer(drained, k);
        }
      }
    }

    method RestoreOne(ghost before: Table, bound: map<Route, string>, failed: set<nat>, id: nat)
      requires id in store.rows && id in before.rows && store.rows[id] == before.rows[id]
      modifies this, store
      ensures store.nextId == old(store.nextId) && serial == old(serial)
      ensures store.rows == old(store.rows)[id := MovedRow(before, bound, failed, id)]
      ensures confirming == if before.rows[id].state.Submitted? then old(confirming) + {id} else old(confirming)
      ensures var added := Appended(old(queueOf), old(deques), serial, MovedRow(before, bound, failed, id).key,
                                    Item(id, before.rows[id].text));
              var queued := IsQueued(Restorable(before, bound, failed), id);
              && queueOf == (if queued then added.0 else old(queueOf))
              && deques == (if queued then added.1 else old(deques))
    {
      RestorableRow(before, bound, failed, id);
      hide Restorable, MovedRow;
      var row := store.rows[id];
      var key := row.key;
      assert store.rows[id := row] == store.rows;
      if row.state.Queued? && key.route in bound && bound[key.route] != "" && bound[key.route] != key.window {
        if id in failed {
          return;
        }
        key := Key(key.route, bound[key.route]);
        store.RetargetInput(id, key.window);
      }
      if row.state.Submitted? {
        confirming := confirming + {id};
        return;
      }
      if key !in queueOf {
        queueOf, deques := queueOf[key := Ref(key, serial)], deques[Ref(key, serial) := []];
      }
      var ref := queueOf[key];
      deques := deques[ref := (if ref in deques then deques[ref] else []) + [Item(id, row.text)]];
      assert deques == Appended(old(queueOf), old(deques), serial, key, Item(id, row.text)).1;
    }
  }

  // --- Appending ---

  lemma MappedRoom(s: Sys, key: Key)
    ensures var m := Mapped(s, key);
            && m.table == s.table && key in m.queueOf
            && (HasRoom(m, key) <==>
                  |QueueOf(m.queueOf, m.deques, key)| < s.limit && PendingCount(s.table, key) < s.limit)
  {
    hide PendingCount;
  }

  lemma EnqueuedIs(s: Sys, key: Key, text: string)
    ensures var m, n := Mapped(s, key), Enqueued(s, key, text);
            && key in m.queueOf && n.table == Insert(s.table, key, text)
            && n.queueOf == m.queueOf && n.serial == m.serial && n.confirming == m.confirming
            && n.deques == m.deques[m.queueOf[key] :=
                                      QueueOf(m.queueOf, m.deques, key) + [Item(s.table.nextId, text)]]
  {
    hide Insert;
  }

  lemma PutNext(oldQueueOf: map<Key, Ref>, oldDeques: map<Ref, seq<Item>>, queueOf: map<Key, Ref>,
                deques: map<Ref, seq<Item>>, key: Key, x: Item)
    requires PutBehind(oldQueueOf, oldDeques, queueOf, deques, key, []) && key in queueOf
    ensures PutBehind(oldQueueOf, oldDeques, queueOf,
                      deques[queueOf[key] := QueueOf(queueOf, deques, key) + [x]], key, [x])
  {
  }

  // --- The restore loop ---

  ghost function MovedRow(t: Table, bound: map<Route, string>, failed: set<nat>, id: nat): Row
    requires id in t.rows
  {
    RetargetMoved(t, bound, failed).rows[id]
  }

  lemma RestorableRow(t: Table, bound: map<Route, string>, failed: set<nat>, id: nat)
    requires id in t.rows
    ensures MovedRow(t, bound, failed, id)
              == if Moves(t, bound, id) && id !in failed
                 then t.rows[id].(key := Key(t.rows[id].key.route, bound[t.rows[id].key.route])) else t.rows[id]
    ensures IsQueued(Restorable(t, bound, failed), id) <==>
              t.rows[id].state.Queued? && !(id in failed && Moves(t, bound, id))
    ensures id in Restorable(t, bound, failed).rows ==>
              Restorable(t, bound, failed).rows[id] == MovedRow(t, bound, failed, id)
  {
  }

  ghost function RowsUpTo(t: Table, bound: map<Route, string>, failed: set<nat>, n: nat): map<nat, Row> {
    map id | id in t.rows :: if id < n then MovedRow(t, bound, failed, id) else t.rows[id]
  }

  ghost function Appended(queueOf: map<Key, Ref>, deques: map<Ref, seq<Item>>, serial: nat, key: Key, x: Item):
    (map<Key, Ref>, map<Ref, seq<Item>>)
  {
    var known := if key in queueOf then queueOf else queueOf[key := Ref(key, serial)];
    var ref := known[key];
    (known, deques[ref := (if key in queueOf && ref in deques then deques[ref] else []) + [x]])
  }

  /** Memory after the rows below `n`: one deque for each target with a queued row, holding
      exactly its queued rows in order. */
  ghost predicate RestoredUpTo(q: Table, n: nat, queueOf: map<Key, Ref>, deques: map<Ref, seq<Item>>, serial: nat) {
    && (forall key :: key in queueOf <==> Pending(q, key, n) != [])
    && (forall key :: key in queueOf ==> queueOf[key] == Ref(key, serial))
    && (forall ref :: ref in deques <==> ref.serial == serial && ref.key in queueOf)
    && (forall ref :: ref in deques ==> deques[ref] == Pending(q, ref.key, n))
  }

  /** The state of the restore loop before row `n`. */
  ghost predicate AtRow(t: Table, bound: map<Route, string>, failed: set<nat>, n: nat, rows: map<nat, Row>,
                        confirming: set<nat>, queueOf: map<Key, Ref>, deques: map<Ref, seq<Item>>, serial: nat) {
    && rows == RowsUpTo(t, bound, failed, n)
    && confirming == (set i | i in t.rows && i < n && t.rows[i].state.Submitted?)
    && RestoredUpTo(Restorable(t, bound, failed), n, queueOf, deques, serial)
  }

  lemma AtStart(t: Table, bound: map<Route, string>, failed: set<nat>, serial: nat)
    ensures AtRow(t, bound, failed, 0, t.rows, {}, map[], map[], serial)
  {
  }

  lemma NextRow(t: Table, bound: map<Route, string>, failed: set<nat>, n: nat, rows: map<nat, Row>,
                confirming: set<nat>, queueOf: map<Key, Ref>, deques: map<Ref, seq<Item>>, serial: nat)
    requires AtRow(t, bound, failed, n, rows, confirming, queueOf, deques, serial)
    ensures n in rows <==> n in t.rows
    ensures n !in t.rows ==> AtRow(t, bound, failed, n + 1, rows, confirming, queueOf, deques, serial)
    ensures n in t.rows ==>
              && rows[n] == t.rows[n]
              && var moved := MovedRow(t, bound, failed, n);
                 var added := Appended(queueOf, deques, serial, moved.key, Item(n, t.rows[n].text));
                 var queued := IsQueued(Restorable(t, bound, failed), n);
                 AtRow(t, bound, failed, n + 1, rows[n := moved],
                       if t.rows[n].state.Submitted? then confirming + {n} else confirming,
                       if queued then added.0 else queueOf, if queued then added.1 else deques, serial)
  {
    if n in t.rows {
      RestorableRow(t, bound, failed, n);
    } else {
      NoSuchRow(t, bound, failed, n);
    }
    NextItem(Restorable(t, bound, failed), n, queueOf, deques, serial);
    hide RetargetMoved, Restorable, MovedRow, RestoredUpTo, Appended;
    assert RowsUpTo(t, bound, failed, n + 1)
             == if n in t.rows then RowsUpTo(t, bound, failed, n)[n := MovedRow(t, bound, failed, n)]
                else RowsUpTo(t, bound, failed, n);
  }

  lemma NextItem(q: Table, n: nat, queueOf: map<Key, Ref>, deques: map<Ref, seq<Item>>, serial: nat)
    requires RestoredUpTo(q, n, queueOf, deques, serial)
    ensures !IsQueued(q, n) ==> RestoredUpTo(q, n + 1, queueOf, deques, serial)
    ensures IsQueued(q, n) ==>
              var (m, d) := Appended(queueOf, deques, serial, q.rows[n].key, Item(n, q.rows[n].text));
              RestoredUpTo(q, n + 1, m, d, serial)
  {
    assert forall key :: Pending(q, key, n + 1)
             == if IsQueued(q, n) && q.rows[n].key == key then Pending(q, key, n) + [Item(n, q.rows[n].text)]
                else Pending(q, key, n);
  }

  lemma NoSuchRow(t: Table, bound: map<Route, string>, failed: set<nat>, id: nat)
    requires id !in t.rows
    ensures !IsQueued(Restorable(t, bound, failed), id)
  {
  }

  lemma AtEnd(s: Sys, failed: set<nat>, rows: map<nat, Row>, confirming: set<nat>, queueOf: map<Key, Ref>,
              deques: map<Ref, seq<Item>>)
    requires WellFormed(s.table)
    requires AtRow(s.table, s.bound, failed, s.table.nextId, rows, confirming, queueOf, deques, s.serial)
    ensures var n := Restarted(s, failed);
            && rows == n.table.rows && n.table.nextId == s.table.nextId && confirming == n.confirming
            && queueOf == n.queueOf && deques == n.deques && n.serial == s.serial + 1
  {
    AllRestored(s, failed, queueOf, deques);
    AllMoved(s, failed);
    hide Restarted, RestoredUpTo, RowsUpTo;
  }

  lemma AllMoved(s: Sys, failed: set<nat>)
    requires WellFormed(s.table)
    ensures var n := Restarted(s, failed);
            && RowsUpTo(s.table, s.bound, failed, s.table.nextId) == n.table.rows
            && n.table.nextId == s.table.nextId && n.serial == s.serial + 1
            && n.confirming == set i | i in s.table.rows && i < s.table.nextId && s.table.rows[i].state.Submitted?
  {
    hide Restorable, Pending;
    var n := Restarted(s, failed);
    assert RowsUpTo(s.table, s.bound, failed, s.table.nextId) == RetargetMoved(s.table, s.bound, failed).rows;
    assert forall i :: i in n.table.rows ==> n.table.rows[i].state == s.table.rows[i].state;
  }

  lemma RestartedBound(s: Sys, failed: set<nat>)
    ensures Restarted(s, failed).bound == s.bound
  {
  }

  ghost function QueuedKeys(q: Table): set<Key> {
    set id | id in q.rows && q.rows[id].state.Queued? :: q.rows[id].key
  }

  lemma QueuedKey(q: Table, key: Key)
    requires WellFormed(q)
    ensures key in QueuedKeys(q) <==> Pending(q, key, q.nextId) != []
  {
    var p := Pending(q, key, q.nextId);
    PendingExact(q, key, q.nextId);
    if key in QueuedKeys(q) {
      var id :| id in q.rows && q.rows[id].state.Queued? && q.rows[id].key == key;
      assert Item(id, q.rows[id].text) in p;
    }
    if p != [] {
      assert p[0] in p;
    }
  }

  lemma AllRestored(s: Sys, failed: set<nat>, queueOf: map<Key, Ref>, deques: map<Ref, seq<Item>>)
    requires WellFormed(s.table)
    requires RestoredUpTo(Restorable(s.table, s.bound, failed), s.table.nextId, queueOf, deques, s.serial)
    ensures queueOf == Restarted(s, failed).queueOf && deques == Restarted(s, failed).deques
  {
    var q := Restorable(s.table, s.bound, failed);
    assert WellFormed(q) && q.nextId == s.table.nextId;
    forall key ensures key in QueuedKeys(q) <==> key in queueOf {
      QueuedKey(q, key);
    }
    hide Pending, Restorable, RetargetMoved;
    var n := Restarted(s, failed);
    assert n.queueOf == map key | key in QueuedKeys(q) :: Ref(key, s.serial);
    assert n.queueOf == queueOf;
    assert forall ref :: ref in n.deques <==> ref.serial == s.serial && ref.key in QueuedKeys(q);
  }
}
