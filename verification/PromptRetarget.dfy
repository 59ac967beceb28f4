/** A run of the program in which retargeting at restore breaks the order of submissions. */
module PromptRetarget {
  import opened PromptTable
  import opened PromptLifecycle
  import opened PromptOrder
  import opened PromptOrderRuns
  import opened PromptRestart

  // --- When the program starts a drainer ---

  /** A handler that has queued its prompt starts a drainer for it at once, unless the gate
      is closed or the topic has a drainer. */
  ghost predicate Obliged(s: Sys, e: Event, t: Sys, key: Key) {
    && e.EnterImmediate? && e.busy && e.pid in s.procs && s.procs[e.pid].key == key
    && !Gated(t, key) && !RouteHasDrain(t, key.route)
  }

  ghost predicate Follows(s: Sys, e: Event, t: Sys, rest: seq<Event>) {
    forall key :: Obliged(s, e, t, key) ==> rest != [] && rest[0] == Wake(key)
  }

  ghost predicate Scheduled(s: Sys, e: Event, t: Sys, rest: seq<Event>) {
    (e.Wake? ==> !Gated(s, e.key)) && Follows(s, e, t, rest)
  }

  /** A fault-free run that starts drainers as the program does, `rest` coming after it. */
  ghost predicate Plausible(states: seq<Sys>, events: seq<Event>, rest: seq<Event>) {
    && FaultFreeRun(states, events)
    && forall i :: 0 <= i < |events| ==> Scheduled(states[i], events[i], states[i + 1], events[i + 1..] + rest)
  }

  lemma Append(a: seq<Sys>, ea: seq<Event>, b: seq<Sys>, eb: seq<Event>, rest: seq<Event>)
    requires Plausible(a, ea, eb + rest) && Plausible(b, eb, rest) && a[|ea|] == b[0]
    ensures Plausible(a + b[1..], ea + eb, rest) && |a + b[1..]| == |ea + eb| + 1
    ensures (a + b[1..])[0] == a[0] && (a + b[1..])[|ea + eb|] == b[|eb|]
  {
    hide Enabled, Step, FaultFree, Scheduled;
    var s, e := a + b[1..], ea + eb;
    forall i | 0 <= i < |e|
      ensures Faultless(s[i], e[i], s[i + 1]) && Scheduled(s[i], e[i], s[i + 1], e[i + 1..] + rest)
    {
      if i < |ea| {
        assert Faultless(a[i], ea[i], a[i + 1]);
        assert s[i] == a[i] && s[i + 1] == a[i + 1];
        assert e[i + 1..] + rest == ea[i + 1..] + (eb + rest);
      } else {
        var j := i - |ea|;
        assert Faultless(b[j], eb[j], b[j + 1]);
        assert s[i] == b[j] && s[i + 1] == b[j + 1];
        assert e[i + 1..] == eb[j + 1..];
      }
    }
  }

  /** Only the first event after a run matters to it. */
  lemma Rest(states: seq<Sys>, events: seq<Event>, some: seq<Event>, more: seq<Event>)
    requires Plausible(states, events, some) && (some == [] || (more != [] && some[0] == more[0]))
    ensures Plausible(states, events, more)
  {
    hide Enabled, Step, FaultFree, Gated, Obliged;
  }

  lemma Join(a: seq<Sys>, ea: seq<Event>, b: seq<Sys>, eb: seq<Event>)
    requires Plausible(a, ea, []) && Plausible(b, eb, []) && a[|ea|] == b[0]
    ensures Plausible(a + b[1..], ea + eb, []) && |a + b[1..]| == |ea + eb| + 1
    ensures (a + b[1..])[0] == a[0] && (a + b[1..])[|ea + eb|] == b[|eb|]
  {
    hide Plausible;
    Rest(a, ea, [], eb + []);
    Append(a, ea, b, eb, []);
  }

  lemma One(s: Sys, e: Event, t: Sys, rest: seq<Event>)
    requires Faultless(s, e, t) && Scheduled(s, e, t, rest)
    ensures Plausible([s, t], [e], rest)
  {
    hide Enabled, Step, FaultFree, Scheduled;
    assert [e][1..] + rest == rest;
  }

  /** Steps that neither queue a prompt nor start a drainer. */
  predicate Plain(e: Event) {
    !e.EnterImmediate? && !e.Wake?
  }

  lemma AllPlain(states: seq<Sys>, events: seq<Event>, rest: seq<Event>)
    requires FaultFreeRun(states, events)
    requires forall i :: 0 <= i < |events| ==> Plain(events[i]) || (events[i].EnterImmediate? && !events[i].busy)
    ensures Plausible(states, events, rest)
  {
  }

  // --- Blocks of the run ---

  /** Nothing is running, and the topic has room. */
  ghost predicate Calm(s: Sys) {
    s.procs == map[] && s.tasks == map[] && s.locks == map[]
  }

  /** One handler is at work, with its item alone in its deque. */
  ghost predicate Sole(s: Sys, pid: nat, p: Proc) {
    && s.procs == map[pid := p] && s.locks == map[p.key.route := pid] && s.tasks == map[]
    && s.queueOf == map[p.key := p.queue] && Deque(s, p.queue) == [p.item]
  }

  lemma Enters(s: Sys, key: Key, text: string) returns (s1: Sys, s2: Sys, p: Proc)
    requires Calm(s) && s.queueOf == map[] && HasRoom(s, key)
    ensures Faultless(s, Arrive(Immediate, key, text), s1)
    ensures Faultless(s1, EnterImmediate(s.nextPid, true, false), s2)
    ensures Sole(s2, s.nextPid, p) && p.kind == Immediate && p.phase == Capturing && !p.cancelled
    ensures p.key == key && p.text == text && p.item == Item(s.table.nextId, text)
    ensures s2.table == Insert(s.table, key, text) && s2.sent == s.sent && s2.bound == s.bound && s2.limit == s.limit
  {
    s1 := Arrived(s, Immediate, key, text);
    Arrives(s, key, text);
    s2 := EnteredImmediate(s1, s.nextPid, true, false);
    p := s2.procs[s.nextPid];
    hide HasRoom, RouteHasQueue, RouteHasDrain, Arrived;
    EntersQueue(s1, s.nextPid, key, text);
    hide EnteredImmediate, Enqueued, Insert;
  }

  /** One handler waits for the lock of its topic. */
  ghost predicate Arriving(s: Sys, pid: nat, key: Key, text: string) {
    && s.procs.Keys == {pid} && At(s, pid, Immediate, Waiting)
    && s.procs[pid].key == key && s.procs[pid].text == text
  }

  lemma Arrives(s: Sys, key: Key, text: string)
    requires Calm(s) && HasRoom(s, key)
    ensures var s1, pid := Arrived(s, Immediate, key, text), s.nextPid;
            && Faultless(s, Arrive(Immediate, key, text), s1)
            && Arriving(s1, pid, key, text)
            && s1 == s.(procs := s1.procs, nextPid := s1.nextPid)
            && s1.tasks == map[] && s1.locks == map[] && HasRoom(s1, key) && !RouteHasDrain(s1, key.route)
  {
    hide Insert;
    var s1 := Arrived(s, Immediate, key, text);
    assert Queue(s1, key) == Queue(s, key);
  }

  lemma EntersQueue(s: Sys, pid: nat, key: Key, text: string)
    requires Arriving(s, pid, key, text)
    requires s.tasks == map[] && s.locks == map[] && s.queueOf == map[] && HasRoom(s, key)
    ensures var t, e := EnteredImmediate(s, pid, true, false), EnterImmediate(pid, true, false);
            && Faultless(s, e, t) && pid in t.procs
            && var p := t.procs[pid];
               && Sole(t, pid, p) && p.kind == Immediate && p.phase == Capturing && !p.cancelled
               && p.key == key && p.text == text && p.item == Item(s.table.nextId, text)
               && t.table == Insert(s.table, key, text) && t.sent == s.sent && t.bound == s.bound && t.limit == s.limit
  {
    assert !RouteHasQueue(s, key.route) && !RouteHasDrain(s, key.route);
    hide HasRoom, RouteHasQueue, RouteHasDrain, Insert;
  }

  lemma Submits(s: Sys, pid: nat, p: Proc) returns (s1: Sys, s2: Sys, s3: Sys)
    requires Sole(s, pid, p) && p.kind == Immediate && p.phase == Capturing && !p.cancelled
    requires IsQueued(s.table, p.item.id)
    ensures Faultless(s, LookImmediate(pid, Go, true), s1)
    ensures Faultless(s1, Cas(pid, false, false, true), s2) && Faultless(s2, Hand(pid), s3)
    ensures Sole(s3, pid, p.(phase := Sent)) && s3.table == Submit(s.table, p.item.id)
    ensures s3.sent == s.sent + [Submission(p.item.id, p.key, p.text)] && s3.bound == s.bound && s3.limit == s.limit
  {
    hide Submit;
    s1 := LookedImmediate(s, pid, Go, true);
    s2 := Compared(s1, pid, false, false, true);
    s3 := HandedOver(s2, pid);
  }

  lemma Leaves(s: Sys, pid: nat, p: Proc) returns (t: Sys)
    requires Sole(s, pid, p) && p.kind == Immediate && p.phase == Sent && !p.cancelled
    ensures Faultless(s, Settle(pid, Success, true), t)
    ensures Calm(t) && t.queueOf == map[] && t.table == s.table && t.sent == s.sent && t.bound == s.bound
    ensures t.limit == s.limit
  {
    t := Settled(s, pid, Success, true);
  }

  /** A handler submits its prompt at once: the row stays unconfirmed. */
  lemma SendsAtOnce(s: Sys, key: Key, text: string, rest: seq<Event>) returns (states: seq<Sys>, events: seq<Event>)
    requires Calm(s) && s.queueOf == map[] && HasRoom(s, key)
    ensures Plausible(states, events, rest) && |states| == |events| + 1 && states[0] == s
    ensures var t, id := states[|events|], s.table.nextId;
            && Calm(t) && t.queueOf == map[] && t.bound == s.bound && t.limit == s.limit
            && t.table == Submit(Insert(s.table, key, text), id)
            && t.sent == s.sent + [Submission(id, key, text)]
  {
    hide Enabled, Step, FaultFree, HasRoom, Sole;
    var pid := s.nextPid;
    var s1, s2, p := Enters(s, key, text);
    var s3, s4, s5 := Submits(s2, pid, p);
    var s6 := Leaves(s5, pid, p.(phase := Sent));
    hide Calm, Insert, Submit;
    events := [Arrive(Immediate, key, text), EnterImmediate(pid, true, false), LookImmediate(pid, Go, true),
               Cas(pid, false, false, true), Hand(pid), Settle(pid, Success, true)];
    states := [s, s1, s2, s3, s4, s5, s6];
    AllPlain(states, events, rest);
  }

  /** A handler finds the topic busy and queues its prompt. */
  lemma QueuesBehind(s: Sys, key: Key, text: string, rest: seq<Event>) returns (states: seq<Sys>, events: seq<Event>)
    requires Calm(s) && HasRoom(s, key)
    requires var t := Enqueued(s, key, text); Gated(t, key) || (rest != [] && rest[0] == Wake(key))
    ensures Plausible(states, events, rest) && |states| == |events| + 1 && states[0] == s
    ensures var t, n := states[|events|], Enqueued(s, key, text);
            && Calm(t) && t.queueOf == n.queueOf && t.deques == n.deques && t.table == n.table && t.bound == s.bound
            && t.limit == s.limit && t.sent == s.sent
  {
    var pid := s.nextPid;
    var s1 := Arrived(s, Immediate, key, text);
    var s2 := EnteredImmediate(s1, pid, true, true);
    QueuesSteps(s, key, text);
    var e1, e2 := Arrive(Immediate, key, text), EnterImmediate(pid, true, true);
    hide Enabled, Step, FaultFree, EnteredImmediate, Arrived, Calm, HasRoom, Enqueued, RouteHasDrain;
    assert Gated(Enqueued(s, key, text), key) ==> Gated(s2, key);
    One(s, e1, s1, [e2] + rest);
    One(s1, e2, s2, rest);
    Append([s, s1], [e1], [s1, s2], [e2], rest);
    states, events := [s, s1] + [s1, s2][1..], [e1] + [e2];
  }

  lemma QueuesSteps(s: Sys, key: Key, text: string)
    requires Calm(s) && HasRoom(s, key)
    ensures var s1 := Arrived(s, Immediate, key, text);
            var s2, n := EnteredImmediate(s1, s.nextPid, true, true), Enqueued(s, key, text);
            && Faultless(s, Arrive(Immediate, key, text), s1)
            && Faultless(s1, EnterImmediate(s.nextPid, true, true), s2)
            && s1.procs.Keys == {s.nextPid} && s1.procs[s.nextPid].key == key
            && Calm(s2) && s2.queueOf == n.queueOf && s2.deques == n.deques && s2.table == n.table
            && s2.bound == s.bound == n.bound && s2.limit == s.limit && s2.sent == s.sent
  {
    var s1 := Arrived(s, Immediate, key, text);
    Arrives(s, key, text);
    hide HasRoom, RouteHasQueue, RouteHasDrain, Arrived;
    QueuesOne(s, s1, s.nextPid, key, text);
    hide EnteredImmediate, Enqueued, Insert;
  }

  lemma QueuesOne(s: Sys, s1: Sys, pid: nat, key: Key, text: string)
    requires Arriving(s1, pid, key, text)
    requires s1.tasks == map[] && s1.locks == map[] && HasRoom(s1, key)
    requires s1 == s.(procs := s1.procs, nextPid := s1.nextPid)
    ensures var s2, n := EnteredImmediate(s1, pid, true, true), Enqueued(s, key, text);
            && Faultless(s1, EnterImmediate(pid, true, true), s2)
            && Calm(s2) && s2.queueOf == n.queueOf && s2.deques == n.deques && s2.table == n.table
            && s2.bound == s.bound == n.bound && s2.limit == s.limit && s2.sent == s.sent
  {
    var q := Enqueued(s1, key, text);
    SameQueues(s, s1, key, text);
    hide HasRoom, RouteHasQueue, RouteHasDrain, Insert, Enqueued, Queue;
    LastLeaves(q, pid, key.route);
    hide Ended;
  }

  /** Queueing does not depend on the running tasks. */
  lemma SameQueues(s: Sys, s1: Sys, key: Key, text: string)
    requires s1 == s.(procs := s1.procs, nextPid := s1.nextPid)
    ensures var q, n := Enqueued(s1, key, text), Enqueued(s, key, text);
            && q == n.(procs := s1.procs, nextPid := s1.nextPid) && n.bound == s.bound && n.limit == s.limit
            && n.sent == s.sent && n.tasks == s.tasks && n.locks == s.locks
  {
    assert Mapped(s1, key) == Mapped(s, key).(procs := s1.procs, nextPid := s1.nextPid);
    hide Insert;
  }

  lemma LastLeaves(s: Sys, pid: nat, route: Route)
    requires s.procs.Keys == {pid} && s.tasks == map[] && s.locks == map[]
    ensures var t := Ended(s, pid, route);
            && Calm(t) && t.queueOf == s.queueOf && t.deques == s.deques && t.table == s.table
            && t.bound == s.bound && t.limit == s.limit && t.sent == s.sent
  {
    assert s.procs - {pid} == map[];
  }

  lemma DrainHandsOne(s: Sys, key: Key, x: Item) returns (states: seq<Sys>, events: seq<Event>, t: Sys)
    requires Calm(s) && Queue(s, key) == [x] && IsQueued(s.table, x.id)
    ensures FaultFreeRun(states, events) && |states| == |events| + 1 && states[0] == s && states[|events|] == t
    ensures events != [] && events[0] == Wake(key) && forall i :: 1 <= i < |events| ==> Plain(events[i])
    ensures At(t, s.nextPid, Drain, Sent) && t.procs[s.nextPid].item == x && Deque(t, t.procs[s.nextPid].queue) == [x]
    ensures t.bound == s.bound && t.sent == s.sent + [Submission(x.id, key, x.text)]
    ensures t.table == Submit(Delete(s.table, {}), x.id)
  {
    assert !RouteHasDrain(s, key.route);
    hide Calm, Enabled, Step, FaultFree, Queue, RouteHasDrain, Deque, At, Submit, Delete, IsQueued;
    states, events := DrainHands(s, key, 0);
    t := states[|states| - 1];
    assert Queue(s, key)[..0] == [] && Queue(s, key)[0..] == [x];
    assert (set y | y in Queue(s, key)[..0] :: y.id) == {};
  }

  /** A drainer starts, hands over the one prompt of its target and sees it confirmed. */
  lemma DrainsOne(s: Sys, key: Key, x: Item, rest: seq<Event>) returns (states: seq<Sys>, events: seq<Event>)
    requires Calm(s) && Queue(s, key) == [x] && IsQueued(s.table, x.id) && !Gated(s, key)
    ensures Plausible(states, events, rest) && |states| == |events| + 1 && states[0] == s
    ensures events != [] && events[0] == Wake(key)
    ensures var t := states[|events|];
            && t.bound == s.bound && t.sent == s.sent + [Submission(x.id, key, x.text)]
            && t.table.rows == s.table.rows - {x.id} && t.table.nextId == s.table.nextId
  {
    hide Calm, Queue, Gated, Enabled, Step, FaultFree, Deque, At, Submit, Delete, ConfirmRow;
    var pid := s.nextPid;
    var a, ea, m := DrainHandsOne(s, key, x);
    RowsAfterDrain(s.table, x.id);
    hide IsQueued;
    var t, u := DrainFinishes(m, pid, x);
    var b, eb := [m, t, u], [Settle(pid, Success, true), DrainAfter(pid, true, true)];
    OneWake(a, ea, eb + rest);
    TwoSteps(m, Settle(pid, Success, true), t, DrainAfter(pid, true, true), u, rest);
    hide Plausible;
    Append(a, ea, b, eb, rest);
    states, events := a + b[1..], ea + eb;
  }

  lemma TwoSteps(s: Sys, e: Event, t: Sys, f: Event, u: Sys, rest: seq<Event>)
    requires Faultless(s, e, t) && Faultless(t, f, u) && Plain(e) && Plain(f)
    ensures Plausible([s, t, u], [e, f], rest)
  {
    hide Enabled, Step, FaultFree;
    AllPlain([s, t, u], [e, f], rest);
  }

  lemma RowsAfterDrain(table: Table, id: nat)
    requires IsQueued(table, id)
    ensures ConfirmRow(Submit(Delete(table, {}), id), id) == Table(table.rows - {id}, table.nextId)
  {
  }

  lemma OneWake(states: seq<Sys>, events: seq<Event>, rest: seq<Event>)
    requires FaultFreeRun(states, events) && events != [] && events[0].Wake? && !Gated(states[0], events[0].key)
    requires forall i :: 1 <= i < |events| ==> Plain(events[i])
    ensures Plausible(states, events, rest)
  {
    hide Enabled, Step, FaultFree, Gated;
  }

  lemma DrainFinishes(s: Sys, pid: nat, x: Item) returns (t: Sys, u: Sys)
    requires At(s, pid, Drain, Sent) && s.procs[pid].item == x && Deque(s, s.procs[pid].queue) == [x]
    ensures Faultless(s, Settle(pid, Success, true), t) && Faultless(t, DrainAfter(pid, true, true), u)
    ensures u.table == ConfirmRow(s.table, x.id) && u.sent == s.sent && u.bound == s.bound
  {
    t := Settled(s, pid, Success, true);
    u := Resumed(t, pid, true, true);
  }

  // --- The run ---

  lemma Rebinds(s: Sys, route: Route, window: string)
    ensures Plausible([s, s.(bound := s.bound[route := window])], [Rebind(route, window)], [])
  {
    One(s, Rebind(route, window), s.(bound := s.bound[route := window]), []);
  }

  lemma NothingPending(t: Table, key: Key)
    requires forall id :: id in t.rows ==> t.rows[id].key != key
    ensures PendingCount(t, key) == 0
  {
    assert PendingIds(t, key) == {};
  }

  lemma OnePending(t: Table, key: Key, only: nat)
    requires only in t.rows && t.rows.Keys == {only}
    ensures PendingCount(t, key) <= 1
  {
    AtMostOne(PendingIds(t, key), only);
  }

  lemma AtMostOne(ids: set<nat>, only: nat)
    requires ids <= {only}
    ensures |ids| <= 1
  {
    assert ids == {} || ids == {only};
  }

  ghost function FirstSent(first: Key): Table {
    Table(map[1 := Row(first, "a", Submitted)], 2)
  }

  ghost function SecondQueued(first: Key): Table {
    Table(map[1 := Row(first, "a", Submitted), 2 := Row(first, "b", Queued)], 3)
  }

  ghost function ThirdQueued(first: Key, third: Key): Table {
    Table(map[1 := Row(first, "a", Submitted), 2 := Row(first, "b", Queued), 3 := Row(third, "c", Queued)], 4)
  }

  /** Prompt 1 is submitted to "@1", the window of the topic. */
  lemma SendsFirst(route: Route) returns (states: seq<Sys>, events: seq<Event>)
    ensures Plausible(states, events, []) && |states| == |events| + 1 && states[0] == Initial(3)
    ensures var t, first := states[|events|], Key(route, "@1");
            && Calm(t) && t.bound == map[route := "@1"] && t.limit == 3 && t.table == FirstSent(first)
            && t.queueOf == map[] && t.sent == [Submission(1, first, "a")]
  {
    var first := Key(route, "@1");
    var s0 := Initial(3);
    var s1 := s0.(bound := s0.bound[route := "@1"]);
    NothingPending(s1.table, first);
    assert HasRoom(s1, first);
    var a, ea := SendsAtOnce(s1, first, "a", []);
    assert Submit(Insert(s1.table, first, "a"), 1) == FirstSent(first);
    assert s1.bound == map[route := "@1"] && s1.sent + [Submission(1, first, "a")] == [Submission(1, first, "a")];
    hide Plausible, Calm;
    Rebinds(s0, route, "@1");
    Join([s0, s1], [Rebind(route, "@1")], a, ea);
    states, events := [s0, s1] + a[1..], [Rebind(route, "@1")] + ea;
  }

  /** Prompt 2 waits behind the closed gate of "@1". */
  lemma QueuesSecond(s: Sys, route: Route) returns (states: seq<Sys>, events: seq<Event>)
    requires var first := Key(route, "@1");
             && Calm(s) && s.bound == map[route := "@1"] && s.limit == 3 && s.table == FirstSent(first)
             && s.queueOf == map[]
    ensures Plausible(states, events, []) && |states| == |events| + 1 && states[0] == s
    ensures var t, first := states[|events|], Key(route, "@1");
            && Calm(t) && t.bound == s.bound && t.limit == 3 && t.sent == s.sent && t.table == SecondQueued(first)
            && t.queueOf.Keys == {first}
  {
    var first := Key(route, "@1");
    OnePending(s.table, first, 1);
    assert HasRoom(s, first);
    var n := Enqueued(s, first, "b");
    assert n.table == SecondQueued(first) && n.queueOf.Keys == {first};
    assert Closes(n, 1, first) && Gated(n, first);
    hide Calm, Enqueued, HasRoom, Plausible;
    states, events := QueuesBehind(s, first, "b", []);
  }

  /** The topic moves to "@2"; prompt 3 is sent there past the waiting one. */
  lemma SendsThird(s: Sys, route: Route) returns (states: seq<Sys>, events: seq<Event>)
    requires var first := Key(route, "@1");
             && Calm(s) && s.bound == map[route := "@2"] && s.limit == 3 && s.table == SecondQueued(first)
             && s.queueOf.Keys == {first}
    ensures Plausible(states, events, []) && |states| == |events| + 1 && states[0] == s
    ensures var t, first, third := states[|events|], Key(route, "@1"), Key(route, "@2");
            && t.bound == s.bound && t.table == SecondQueued(first).(nextId := 4)
            && t.sent == s.sent + [Submission(3, third, "c")]
  {
    hide Calm, Queue, Gated, HasRoom, Enqueued, Plausible;
    var first, third := Key(route, "@1"), Key(route, "@2");
    ThirdHasRoom(s, route);
    var a, ea := QueuesForDrain(s, third);
    var t := a[|ea|];
    ThirdInLine(s, t, route);
    var b, eb := DrainsOne(t, third, Item(3, "c"), []);
    assert eb + [] == eb;
    Rest(a, ea, [Wake(third)], eb);
    Append(a, ea, b, eb, []);
    assert ThirdQueued(first, third).rows - {3} == SecondQueued(first).rows;
    states, events := a + b[1..], ea + eb;
  }

  lemma ThirdHasRoom(s: Sys, route: Route)
    requires s.limit == 3 && s.table == SecondQueued(Key(route, "@1")) && s.queueOf.Keys == {Key(route, "@1")}
    ensures HasRoom(s, Key(route, "@2"))
  {
    NothingPending(s.table, Key(route, "@2"));
  }

  lemma ThirdInLine(s: Sys, t: Sys, route: Route)
    requires s.table == SecondQueued(Key(route, "@1")) && s.queueOf.Keys == {Key(route, "@1")}
    requires var n := Enqueued(s, Key(route, "@2"), "c");
             t.queueOf == n.queueOf && t.deques == n.deques && t.table == n.table
    requires t.bound == map[route := "@2"]
    ensures var first, third := Key(route, "@1"), Key(route, "@2");
            && t.table == ThirdQueued(first, third) && Queue(t, third) == [Item(3, "c")] && !Gated(t, third)
            && IsQueued(t.table, 3)
  {
    var first, third := Key(route, "@1"), Key(route, "@2");
    assert t.table == ThirdQueued(first, third);
  }

  lemma QueuesForDrain(s: Sys, key: Key) returns (states: seq<Sys>, events: seq<Event>)
    requires Calm(s) && HasRoom(s, key)
    ensures Plausible(states, events, [Wake(key)]) && |states| == |events| + 1 && states[0] == s
    ensures var t, n := states[|events|], Enqueued(s, key, "c");
            && Calm(t) && t.queueOf == n.queueOf && t.deques == n.deques && t.table == n.table && t.bound == s.bound
            && t.sent == s.sent
  {
    hide Calm, HasRoom, Enqueued, Plausible, Gated;
    states, events := QueuesBehind(s, key, "c", [Wake(key)]);
  }

  /** Prompt 3 was sent to the window that prompt 2 will move to. */
  lemma NewerSentFirst(route: Route) returns (states: seq<Sys>, events: seq<Event>)
    ensures Plausible(states, events, []) && |states| == |events| + 1 && states[0] == Initial(3)
    ensures var t, first, third := states[|events|], Key(route, "@1"), Key(route, "@2");
            && t.bound == map[route := "@2"] && t.table == SecondQueued(first).(nextId := 4)
            && t.sent == [Submission(1, first, "a"), Submission(3, third, "c")]
  {
    hide Plausible, Calm;
    var a, ea := SendsFirst(route);
    var b, eb := QueuesSecond(a[|ea|], route);
    var s := b[|eb|];
    var r := s.(bound := s.bound[route := "@2"]);
    assert r.bound == map[route := "@2"];
    assert Calm(r) by { CalmBound(s, r.bound); }
    Rebinds(s, route, "@2");
    var d, ed := SendsThird(r, route);
    Join(a, ea, b, eb);
    Join(a + b[1..], ea + eb, [s, r], [Rebind(route, "@2")]);
    Join(a + b[1..] + [s, r][1..], ea + eb + [Rebind(route, "@2")], d, ed);
    states := a + b[1..] + [s, r][1..] + d[1..];
    events := ea + eb + [Rebind(route, "@2")] + ed;
  }

  lemma CalmBound(s: Sys, bound: map<Route, string>)
    requires Calm(s)
    ensures Calm(s.(bound := bound))
  {
  }

  /** After the crash prompt 2 is retargeted to "@2" and sent there, behind prompt 3. */
  lemma OlderSentLast(s: Sys, route: Route) returns (states: seq<Sys>, events: seq<Event>)
    requires var first, third := Key(route, "@1"), Key(route, "@2");
             && s.bound == map[route := "@2"] && s.table == SecondQueued(first).(nextId := 4)
             && s.sent == [Submission(1, first, "a"), Submission(3, third, "c")]
    ensures Plausible(states, events, []) && |states| == |events| + 1 && states[0] == s
    ensures states[|events|].sent == s.sent + [Submission(2, Key(route, "@2"), "b")]
  {
    hide Restarted, Gated, Queue, Calm, Plausible;
    var third := Key(route, "@2");
    var r := Restarted(s, {});
    Retargeted(s, route);
    RestartCalm(s);
    var b, eb := DrainsOne(r, third, Item(2, "b"), []);
    One(s, Restart({}), r, []);
    Join([s, r], [Restart({})], b, eb);
    states, events := [s, r] + b[1..], [Restart({})] + eb;
  }

  lemma RestartCalm(s: Sys)
    ensures Calm(Restarted(s, {})) && Faultless(s, Restart({}), Restarted(s, {}))
    ensures Scheduled(s, Restart({}), Restarted(s, {}), [])
  {
  }

  lemma Retargeted(s: Sys, route: Route)
    requires s.bound == map[route := "@2"] && s.table == SecondQueued(Key(route, "@1")).(nextId := 4)
    ensures var r, first, third := Restarted(s, {}), Key(route, "@1"), Key(route, "@2");
            && r.table == Table(map[1 := Row(first, "a", Submitted), 2 := Row(third, "b", Queued)], 4)
            && r.bound == s.bound && r.sent == s.sent && Queue(r, third) == [Item(2, "b")] && !Gated(r, third)
  {
    var r, first, third := Restarted(s, {}), Key(route, "@1"), Key(route, "@2");
    RetargetedTable(s, route);
    RestartQueue(s, third);
    hide Restarted;
    assert Pending(r.table, third, 4) == Pending(r.table, third, 3);
    assert Pending(r.table, third, 2) == Pending(r.table, third, 1) == Pending(r.table, third, 0) == [];
  }

  lemma RetargetedTable(s: Sys, route: Route)
    requires s.bound == map[route := "@2"] && s.table == SecondQueued(Key(route, "@1")).(nextId := 4)
    ensures var r, first, third := Restarted(s, {}), Key(route, "@1"), Key(route, "@2");
            && r.table == Table(map[1 := Row(first, "a", Submitted), 2 := Row(third, "b", Queued)], 4)
            && r.bound == s.bound && r.sent == s.sent
  {
    var r, first, third := Restarted(s, {}), Key(route, "@1"), Key(route, "@2");
    assert Moves(s.table, s.bound, 2) && !Moves(s.table, s.bound, 1);
    assert r.table.rows == map[1 := Row(first, "a", Submitted), 2 := Row(third, "b", Queued)];
  }

  /** So the order over whole runs is not unconditional. The program has a fault-free run
      with one crash that hands a target prompt 3 before prompt 2: prompt 1 awaits its
      confirmation, prompt 2 waits behind it, the topic is bound to another window and
      prompt 3 sent there; the restart then retargets prompt 2. */
  lemma RetargetReorders(route: Route) returns (states: seq<Sys>, events: seq<Event>)
    ensures Plausible(states, events, []) && |states| == |events| + 1 && states[0] == Initial(3)
    ensures !InOrder(states[|events|].sent)
  {
    hide Plausible;
    var a, ea := NewerSentFirst(route);
    var b, eb := OlderSentLast(a[|ea|], route);
    Join(a, ea, b, eb);
    states, events := a + b[1..], ea + eb;
    var sent := states[|events|].sent;
    assert sent[1].key == sent[2].key && sent[1].id == 3 && sent[2].id == 2;
  }
}
