/** The prompt spool of the runtime database: one table of accepted prompts, each
    queued or submitted-unconfirmed, with row ids that are never reused.

    Every table operation is a function on `Table`; `PromptStore` is the object
    whose methods reassign the rows, each proved equal to its function. */
module PromptTable {

  datatype RowState = Queued | Submitted

  datatype Route = Route(user: int, thread: int)

  datatype Key = Key(route: Route, window: string)

  datatype Row = Row(key: Key, text: string, state: RowState)

  /** `nextId` is the autoincrement counter: larger than every id ever given out. */
  datatype Table = Table(rows: map<nat, Row>, nextId: nat)

  predicate IsQueued(t: Table, id: nat) {
    id in t.rows && t.rows[id].state.Queued?
  }

  ghost predicate WellFormed(t: Table) {
    forall id :: id in t.rows ==> id < t.nextId
  }

  function PendingIds(t: Table, key: Key): set<nat> {
    set id | id in t.rows && t.rows[id].key == key
  }

  function PendingCount(t: Table, key: Key): nat {
    |PendingIds(t, key)|
  }

  function Insert(t: Table, key: Key, text: string): Table {
    Table(t.rows[t.nextId := Row(key, text, Queued)], t.nextId + 1)
  }

  /** The compare-and-set: only a queued row can become submitted. */
  function Submit(t: Table, id: nat): Table {
    if IsQueued(t, id) then t.(rows := t.rows[id := t.rows[id].(state := Submitted)]) else t
  }

  function Delete(t: Table, ids: set<nat>): Table {
    t.(rows := t.rows - ids)
  }

  function ConfirmRow(t: Table, id: nat): Table {
    if id in t.rows && t.rows[id].state.Submitted? then Delete(t, {id}) else t
  }

  function DeleteTarget(t: Table, key: Key): Table {
    Delete(t, set id | id in t.rows && t.rows[id].key == key)
  }

  function DeleteRoute(t: Table, route: Route): Table {
    Delete(t, set id | id in t.rows && t.rows[id].key.route == route)
  }

  function Retarget(t: Table, id: nat, window: string): Table {
    if id in t.rows
    then t.(rows := t.rows[id := t.rows[id].(key := Key(t.rows[id].key.route, window))])
    else t
  }

  /** The lifecycle order of one row: nothing leads from submitted back to queued,
      and a removed id never comes back. */
  ghost predicate Advances(before: Table, after: Table) {
    && before.nextId <= after.nextId
    && (forall id :: id in after.rows && id < before.nextId ==>
          && id in before.rows
          && after.rows[id].text == before.rows[id].text
          && after.rows[id].key.route == before.rows[id].key.route
          && (before.rows[id].state.Submitted? ==> after.rows[id].state.Submitted?))
  }

  /** Exactly the rows with `gone` ids are taken out; the others are as they were. */
  ghost predicate Loses(before: Table, after: Table, gone: set<nat>) {
    && after.nextId == before.nextId
    && (forall id :: id in after.rows <==> id in before.rows && id !in gone)
    && (forall id :: id in after.rows ==> after.rows[id] == before.rows[id])
  }

  /** Row `id` alone may differ. */
  ghost predicate OnlyRow(before: Table, after: Table, id: nat) {
    && after.nextId == before.nextId && after.rows.Keys == before.rows.Keys
    && (forall o :: o in after.rows && o != id ==> after.rows[o] == before.rows[o])
  }

  /** The spool object. Each method is one short database transaction. */
  class PromptStore {
    var rows: map<nat, Row>
    var nextId: nat

    ghost function Contents(): Table
      reads this
    {
      Table(rows, nextId)
    }

    constructor ()
      ensures Contents() == Table(map[], 1)
    {
      rows, nextId := map[], 1;
    }

    method Enqueue(key: Key, text: string, maxPending: nat) returns (id: nat, accepted: bool)
      modifies this
      ensures accepted <==> PendingCount(old(Contents()), key) < maxPending
      ensures accepted <==> |set o | o in old(rows) && old(rows)[o].key == key| < maxPending
      ensures accepted ==> id == old(nextId) && Contents() == Insert(old(Contents()), key, text)
      ensures accepted ==> && nextId == id + 1 && rows.Keys == old(rows).Keys + {id}
                           && rows[id].key == key && rows[id].text == text && rows[id].state.Queued?
                           && forall o :: o in old(rows) && o != id ==> rows[o] == old(rows)[o]
      ensures !accepted ==> Contents() == old(Contents())
      ensures Advances(old(Contents()), Contents())
    {
      assert PendingIds(Contents(), key) == set o | o in rows && rows[o].key == key;
      id := nextId;
      var pending := |PendingIds(Table(rows, nextId), key)|;
      if pending >= maxPending {
        return id, false;
      }
      rows := rows[id := Row(key, text, Queued)];
      nextId := id + 1;
      accepted := true;
    }

    method MarkSubmitted(id: nat) returns (changed: bool)
      modifies this`rows
      ensures changed <==> IsQueued(old(Contents()), id)
      ensures Contents() == Submit(old(Contents()), id)
      ensures OnlyRow(old(Contents()), Contents(), id)
      ensures changed ==> && rows[id].state.Submitted? && rows[id].key == old(rows)[id].key
                          && rows[id].text == old(rows)[id].text
      ensures !changed ==> rows == old(rows)
      ensures Advances(old(Contents()), Contents())
    {
      changed := id in rows && rows[id].state.Queued?;
      if changed {
        rows := rows[id := rows[id].(state := Submitted)];
      }
    }

    method Confirm(id: nat)
      modifies this`rows
      ensures Contents() == ConfirmRow(old(Contents()), id)
      ensures Loses(old(Contents()), Contents(), if id in old(rows) && old(rows)[id].state.Submitted? then {id} else {})
      ensures Advances(old(Contents()), Contents())
    {
      if id in rows && rows[id].state.Submitted? {
        rows := rows - {id};
      }
    }

    method DeleteInputs(ids: set<nat>)
      modifies this`rows
      ensures Contents() == Delete(old(Contents()), ids)
      ensures Loses(old(Contents()), Contents(), ids)
      ensures Advances(old(Contents()), Contents())
    {
      rows := rows - ids;
    }

    method DeleteForTarget(key: Key)
      modifies this`rows
      ensures Contents() == DeleteTarget(old(Contents()), key)
      ensures forall id :: id in rows <==> id in old(rows) && old(rows)[id].key != key
      ensures forall id :: id in rows ==> rows[id] == old(rows)[id]
      ensures Advances(old(Contents()), Contents())
    {
      rows := rows - (set id | id in rows && rows[id].key == key);
    }

    method DeleteForRoute(route: Route)
      modifies this`rows
      ensures Contents() == DeleteRoute(old(Contents()), route)
      ensures forall id :: id in rows <==> id in old(rows) && old(rows)[id].key.route != route
      ensures forall id :: id in rows ==> rows[id] == old(rows)[id]
      ensures Advances(old(Contents()), Contents())
    {
      rows := rows - (set id | id in rows && rows[id].key.route == route);
    }

    method RetargetInput(id: nat, window: string)
      modifies this`rows
      ensures Contents() == Retarget(old(Contents()), id, window)
      ensures OnlyRow(old(Contents()), Contents(), id)
      ensures id in rows ==> && rows[id].key.window == window && rows[id].key.route == old(rows)[id].key.route
                             && rows[id].text == old(rows)[id].text && rows[id].state == old(rows)[id].state
      ensures Advances(old(Contents()), Contents())
    {
      if id in rows {
        rows := rows[id := rows[id].(key := Key(rows[id].key.route, window))];
      }
    }
  }

  // --- Reading the queued rows of one target back in id order ---

  /** A prompt as it sits in an in-memory queue. */
  datatype Item = Item(id: nat, text: string)

  /** The queued rows of `key` with ids below `n`, in ascending id. */
  function Pending(t: Table, key: Key, n: nat): seq<Item> {
    if n == 0 then []
    else if IsQueued(t, n - 1) && t.rows[n - 1].key == key
    then Pending(t, key, n - 1) + [Item(n - 1, t.rows[n - 1].text)]
    else Pending(t, key, n - 1)
  }

  ghost predicate IdsAscend(q: seq<Item>) {
    forall i, j :: 0 <= i < j < |q| ==> q[i].id < q[j].id
  }

  lemma {:induction false} PendingExact(t: Table, key: Key, n: nat)
    ensures IdsAscend(Pending(t, key, n))
    ensures forall x :: x in Pending(t, key, n) <==>
              x.id < n && IsQueued(t, x.id) && t.rows[x.id].key == key && t.rows[x.id].text == x.text
  {
    if n > 0 {
      PendingExact(t, key, n - 1);
      var p := Pending(t, key, n - 1);
      if IsQueued(t, n - 1) && t.rows[n - 1].key == key {
        var last := Item(n - 1, t.rows[n - 1].text);
        assert Pending(t, key, n) == p + [last];
        assert forall i :: 0 <= i < |p| ==> p[i] in p;
        forall x
          ensures x in p + [last] <==>
                  x.id < n && IsQueued(t, x.id) && t.rows[x.id].key == key && t.rows[x.id].text == x.text
        {
          assert x in p + [last] <==> x in p || x == last;
        }
      }
    }
  }
}
