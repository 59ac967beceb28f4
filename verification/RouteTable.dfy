/** The durable table of conversation routes. Every write replaces the whole table; a
    route keeps its generation for as long as it stays the same, and gets the next one
    when it changes, so that an equal generation can serve as a delivery fence. */
module RouteTable {

  type Topic = (int, int)              // user and thread

  type CursorKey = (int, string)       // user and window

  datatype RouteData = RouteData(backend: string, node: string, window: string, session: string)

  datatype Route = Route(topic: Topic, data: RouteData)

  datatype Stored = Stored(data: RouteData, generation: nat)

  datatype Cursor = Cursor(offset: int, session: string)

  datatype Offset = Offset(key: CursorKey, cursor: Cursor)

  type Table = map<Topic, Stored>

  function NextGeneration(existing: Table, topic: Topic, data: RouteData): nat {
    if topic !in existing then 1
    else if existing[topic].data == data then existing[topic].generation
    else existing[topic].generation + 1
  }

  /** The table after a write of exactly `routes`. */
  function Replace(existing: Table, routes: map<Topic, RouteData>): Table {
    map t | t in routes :: Stored(routes[t], NextGeneration(existing, t, routes[t]))
  }

  ghost predicate Distinct(routes: seq<Route>) {
    forall i, j :: 0 <= i < j < |routes| ==> routes[i].topic != routes[j].topic
  }

  ghost predicate DistinctOffsets(offsets: seq<Offset>) {
    forall i, j :: 0 <= i < j < |offsets| ==> offsets[i].key != offsets[j].key
  }

  function RouteMap(routes: seq<Route>): map<Topic, RouteData> {
    if routes == [] then map[]
    else RouteMap(routes[..|routes| - 1])[routes[|routes| - 1].topic := routes[|routes| - 1].data]
  }

  function OffsetMap(offsets: seq<Offset>): map<CursorKey, Cursor> {
    if offsets == [] then map[]
    else OffsetMap(offsets[..|offsets| - 1])[offsets[|offsets| - 1].key := offsets[|offsets| - 1].cursor]
  }

  lemma {:induction false} RouteMapHolds(routes: seq<Route>)
    ensures forall t :: t in RouteMap(routes) <==> exists k :: 0 <= k < |routes| && routes[k].topic == t
    ensures Distinct(routes) ==> forall k :: 0 <= k < |routes| ==>
              routes[k].topic in RouteMap(routes) && RouteMap(routes)[routes[k].topic] == routes[k].data
  {
    if routes != [] {
      var init := routes[..|routes| - 1];
      RouteMapHolds(init);
      forall t ensures t in RouteMap(routes) <==> exists k :: 0 <= k < |routes| && routes[k].topic == t {
        if t in RouteMap(init) {
          var k :| 0 <= k < |init| && init[k].topic == t;
          assert routes[k].topic == t;
        }
        if k :| 0 <= k < |routes| && routes[k].topic == t {
          assert k < |init| ==> init[k].topic == t;
        }
      }
    }
  }

  lemma {:induction false} OffsetMapHolds(offsets: seq<Offset>)
    ensures forall c :: c in OffsetMap(offsets) <==> exists k :: 0 <= k < |offsets| && offsets[k].key == c
    ensures DistinctOffsets(offsets) ==> forall k :: 0 <= k < |offsets| ==>
              offsets[k].key in OffsetMap(offsets) && OffsetMap(offsets)[offsets[k].key] == offsets[k].cursor
  {
    if offsets != [] {
      var init := offsets[..|offsets| - 1];
      OffsetMapHolds(init);
      forall c ensures c in OffsetMap(offsets) <==> exists k :: 0 <= k < |offsets| && offsets[k].key == c {
        if c in OffsetMap(init) {
          var k :| 0 <= k < |init| && init[k].key == c;
          assert offsets[k].key == c;
        }
        if k :| 0 <= k < |offsets| && offsets[k].key == c {
          assert k < |init| ==> init[k].key == c;
        }
      }
    }
  }

  lemma TableHolds(existing: Table, routes: seq<Route>, generations: seq<nat>)
    requires Distinct(routes) && |generations| == |routes|
    requires forall k :: 0 <= k < |routes| ==>
               generations[k] == NextGeneration(existing, routes[k].topic, routes[k].data)
    ensures var table := Replace(existing, RouteMap(routes));
            && (forall t :: t in table <==> t in RouteMap(routes))
            && forall k :: 0 <= k < |routes| ==>
                 routes[k].topic in table && table[routes[k].topic] == Stored(routes[k].data, generations[k])
  {
    RouteMapHolds(routes);
  }

  lemma ReplaceNothing(existing: Table, routes: seq<Route>)
    ensures Replace(existing, RouteMap(routes[..0])) == map[]
  {
  }

  lemma ReplaceNext(existing: Table, routes: seq<Route>, k: nat)
    requires k < |routes|
    ensures var r := routes[k];
            Replace(existing, RouteMap(routes[..k + 1]))
              == Replace(existing, RouteMap(routes[..k]))[
                   r.topic := Stored(r.data, NextGeneration(existing, r.topic, r.data))]
  {
    assert routes[..k + 1][..k] == routes[..k];
  }

  class ConversationStore {
    var routes: Table
    var offsets: map<CursorKey, Cursor>

    constructor ()
      ensures routes == map[] && offsets == map[]
    {
      routes, offsets := map[], map[];
    }

    /** One transaction: a list that names a topic or a cursor twice is refused and
        changes nothing. */
    method ReplaceConversationRegistry(newRoutes: seq<Route>, newOffsets: seq<Offset>)
      returns (accepted: bool, generations: seq<nat>)
      modifies this
      ensures accepted <==> Distinct(newRoutes) && DistinctOffsets(newOffsets)
      ensures accepted ==> routes == Replace(old(routes), RouteMap(newRoutes)) && offsets == OffsetMap(newOffsets)
      ensures accepted ==> forall t :: t in routes <==> exists k :: 0 <= k < |newRoutes| && newRoutes[k].topic == t
      ensures accepted ==> |generations| == |newRoutes| && forall k :: 0 <= k < |newRoutes| ==>
                var topic, data := newRoutes[k].topic, newRoutes[k].data;
                && topic in routes && routes[topic] == Stored(data, generations[k])
                && generations[k] == if topic !in old(routes) then 1
                                     else if old(routes)[topic].data == data then old(routes)[topic].generation
                                     else old(routes)[topic].generation + 1
      ensures accepted ==> forall c :: c in offsets <==> exists k :: 0 <= k < |newOffsets| && newOffsets[k].key == c
      ensures accepted ==> forall k :: 0 <= k < |newOffsets| ==>
                newOffsets[k].key in offsets && offsets[newOffsets[k].key] == newOffsets[k].cursor
      ensures accepted ==> |generations| == |newRoutes| && forall k :: 0 <= k < |newRoutes| ==>
                generations[k] == NextGeneration(old(routes), newRoutes[k].topic, newRoutes[k].data)
      ensures !accepted ==> routes == old(routes) && offsets == old(offsets)
    {
      generations := [];
      accepted := (forall i, j | 0 <= i < j < |newRoutes| :: newRoutes[i].topic != newRoutes[j].topic)
                  && (forall i, j | 0 <= i < j < |newOffsets| :: newOffsets[i].key != newOffsets[j].key);
      if !accepted {
        return;
      }
      hide Replace, RouteMap;
      var existing := routes;
      var table: Table := map[];
      ReplaceNothing(existing, newRoutes);
      for k := 0 to |newRoutes|
        invariant routes == existing && offsets == old(offsets)
        invariant table == Replace(existing, RouteMap(newRoutes[..k]))
        invariant |generations| == k && forall i :: 0 <= i < k ==>
                    generations[i] == NextGeneration(existing, newRoutes[i].topic, newRoutes[i].data)
      {
        var route := newRoutes[k];
        var generation := 1;
        if route.topic in existing {
          var previous := existing[route.topic];
          generation := if previous.data == route.data then previous.generation else previous.generation + 1;
        }
        ReplaceNext(existing, newRoutes, k);
        table := table[route.topic := Stored(route.data, generation)];
        generations := generations + [generation];
      }
      assert newRoutes[..|newRoutes|] == newRoutes;
      routes := table;
      offsets := map[];
      for k := 0 to |newOffsets|
        invariant routes == table && offsets == OffsetMap(newOffsets[..k])
      {
        assert newOffsets[..k + 1][..k] == newOffsets[..k];
        offsets := offsets[newOffsets[k].key := newOffsets[k].cursor];
      }
      assert newOffsets[..|newOffsets|] == newOffsets;
      OffsetMapHolds(newOffsets);
      RouteMapHolds(newRoutes);
      TableHolds(existing, newRoutes, generations);
    }
  }

  // --- Sequences of writes ---

  ghost function After(start: Table, writes: seq<map<Topic, RouteData>>): Table {
    if writes == [] then start
    else Replace(After(start, writes[..|writes| - 1]), writes[|writes| - 1])
  }

  /** The topic is in every write from number `i` up to number `j`. */
  ghost predicate Present(writes: seq<map<Topic, RouteData>>, topic: Topic, i: nat, j: nat) {
    j < |writes| && forall k :: i <= k <= j ==> topic in writes[k]
  }

  /** How often the topic's route changed between two writes. */
  ghost function Changes(writes: seq<map<Topic, RouteData>>, topic: Topic, i: nat, j: nat): nat
    requires i <= j && Present(writes, topic, i, j)
    decreases j
  {
    if i == j then 0
    else Changes(writes, topic, i, j - 1) + if writes[j][topic] == writes[j - 1][topic] then 0 else 1
  }

  ghost function GenerationAt(start: Table, writes: seq<map<Topic, RouteData>>, topic: Topic, i: nat): nat
    requires i < |writes| && topic in writes[i]
  {
    After(start, writes[..i + 1])[topic].generation
  }

  lemma AfterLast(start: Table, writes: seq<map<Topic, RouteData>>, i: nat)
    requires i < |writes|
    ensures After(start, writes[..i + 1]) == Replace(After(start, writes[..i]), writes[i])
  {
    assert writes[..i + 1][..i] == writes[..i];
  }

  lemma NextAt(start: Table, writes: seq<map<Topic, RouteData>>, topic: Topic, j: nat)
    requires 0 < j < |writes| && topic in writes[j - 1] && topic in writes[j]
    ensures GenerationAt(start, writes, topic, j)
              == GenerationAt(start, writes, topic, j - 1) + if writes[j][topic] == writes[j - 1][topic] then 0 else 1
  {
    AfterLast(start, writes, j);
    AfterLast(start, writes, j - 1);
    hide After;
  }

  /** Generations count the changes: while the topic stays in every write, its generation
      has grown by exactly the number of times its route changed. */
  lemma {:induction false} GenerationsCountChanges(
    start: Table, writes: seq<map<Topic, RouteData>>, topic: Topic, i: nat, j: nat)
    requires i <= j && Present(writes, topic, i, j)
    ensures GenerationAt(start, writes, topic, j)
              == GenerationAt(start, writes, topic, i) + Changes(writes, topic, i, j)
    decreases j
  {
    if i < j {
      GenerationsCountChanges(start, writes, topic, i, j - 1);
      NextAt(start, writes, topic, j);
      hide GenerationAt, After;
    }
  }

  lemma {:induction false} NoChangesSame(writes: seq<map<Topic, RouteData>>, topic: Topic, i: nat, j: nat)
    requires i <= j && Present(writes, topic, i, j)
    ensures Changes(writes, topic, i, j) == 0 <==> forall k :: i <= k <= j ==> writes[k][topic] == writes[i][topic]
    decreases j
  {
    if i < j {
      NoChangesSame(writes, topic, i, j - 1);
    }
  }

  /** No ABA: while a topic stays in every write its generation never goes down, and it
      is the same at two writes exactly when the route was the same at every write in
      between. A fence that still holds names one and the same persisted route. */
  lemma FenceHasNoAba(start: Table, writes: seq<map<Topic, RouteData>>, topic: Topic, i: nat, j: nat)
    requires i <= j && Present(writes, topic, i, j)
    ensures GenerationAt(start, writes, topic, i) <= GenerationAt(start, writes, topic, j)
    ensures GenerationAt(start, writes, topic, i) == GenerationAt(start, writes, topic, j)
       <==> forall k :: i <= k <= j ==> writes[k][topic] == writes[i][topic]
  {
    GenerationsCountChanges(start, writes, topic, i, j);
    NoChangesSame(writes, topic, i, j);
  }

  /** A write without the topic forgets its generation: two different routes can then
      carry generation 1. */
  lemma RemovalForgetsGeneration(topic: Topic, first: RouteData, second: RouteData)
    ensures var writes := [map[topic := first], map[], map[topic := second]];
            GenerationAt(map[], writes, topic, 0) == GenerationAt(map[], writes, topic, 2) == 1
  {
    var writes := [map[topic := first], map[], map[topic := second]];
    AfterLast(map[], writes, 0);
    AfterLast(map[], writes, 1);
    AfterLast(map[], writes, 2);
  }

  /** A removal in between is the only way to reuse a generation: the generation of a
      topic that is written again starts over at 1. */
  lemma GenerationRestarts(start: Table, writes: seq<map<Topic, RouteData>>, topic: Topic, i: nat)
    requires 0 < i < |writes| && topic in writes[i] && topic !in writes[i - 1]
    ensures GenerationAt(start, writes, topic, i) == 1
  {
    AfterLast(start, writes, i);
    AfterLast(start, writes, i - 1);
  }
}
