/** What each operation on the routing registry changes, and what it leaves alone. */
module RoutingFrames {
  import opened Basics
  import opened RouteTable
  import opened Routing

  /** Clearing a topic's group chat drops the mapping of its owner and of everyone mapped to
      the same chat in that thread; nothing else changes. */
  lemma ClearTouches(r: Registry, user: int, thread: int)
    ensures var owner, n := (OwnerId(r, user, thread), thread), ChatsCleared(r, user, thread);
            && n.(chats := r.chats) == r
            && (forall t :: t in n.chats <==>
                  && t in r.chats
                  && !(t.1 == thread && (t == owner || (owner in r.chats && r.chats[t] == r.chats[owner]))))
            && (forall t :: t in n.chats ==> n.chats[t] == r.chats[t])
  {
  }

  /** A topic resolves to the window of its owner, unless a second topic is bound to it. */
  lemma WindowForIs(r: Registry, user: int, thread: int, window: string)
    ensures var topic := (OwnerId(r, user, thread), thread);
            WindowFor(r, user, thread) == Some(window) <==>
              && topic in r.bindings && r.bindings[topic] == window
              && (window == "" || forall t :: t in r.bindings && r.bindings[t] == window ==> t == topic)
  {
    var topic := (OwnerId(r, user, thread), thread);
    hide OwnerId;
    if topic in r.bindings && r.bindings[topic] == window && window != "" {
      if t :| t in r.bindings && r.bindings[t] == window && t != topic {
        assert r.bindings[t] == r.bindings[topic];
        assert Ambiguous(r.bindings, window);
      }
    }
  }

  // --- Startup ---

  lemma {:induction false} MigratedIs(
    states: map<string, WindowState>, order: seq<string>, bound: set<string>, live: Live, i: nat)
    requires i < |order| && order[i] in states && Resolved(states, bound, live, order[i]).Some?
    requires forall j :: i < j < |order| && order[j] in states ==>
               Resolved(states, bound, live, order[j]) != Resolved(states, bound, live, order[i])
    ensures var window := Resolved(states, bound, live, order[i]).value;
            var n := Migrated(states, order, bound, live);
            window in n && n[window] == states[order[i]]
  {
    hide Resolved;
    if i < |order| - 1 {
      MigratedIs(states, order[..|order| - 1], bound, live, i);
    }
  }

  lemma {:induction false} MigratedFrom(
    states: map<string, WindowState>, order: seq<string>, bound: set<string>, live: Live, window: string)
    requires window in Migrated(states, order, bound, live)
    ensures exists i :: && 0 <= i < |order| && order[i] in states
                        && Resolved(states, bound, live, order[i]) == Some(window)
                        && Migrated(states, order, bound, live)[window] == states[order[i]]
  {
    hide Resolved;
    if order != [] {
      var init := order[..|order| - 1];
      if order[|order| - 1] in states && Resolved(states, bound, live, order[|order| - 1]) == Some(window) {
        assert Migrated(states, order, bound, live)[window] == states[order[|order| - 1]];
      } else {
        MigratedFrom(states, init, bound, live, window);
        var i :| && 0 <= i < |init| && init[i] in states && Resolved(states, bound, live, init[i]) == Some(window)
                 && Migrated(states, init, bound, live)[window] == states[init[i]];
        assert order[i] == init[i];
      }
    }
  }

  /** After startup targets of other machines are as they were, local ones are kept exactly
      when their window is, under its present id, and a chat is kept exactly while its topic
      still has something bound. */
  lemma StaleTargets(r: Registry, orders: Orders, live: Live, topic: Topic)
    ensures var n, bound := StaleResolved(r, orders, live), BoundIds(r);
            && (topic in n.targets ==> topic in r.targets)
            && (topic in r.targets && r.targets[topic].backend != "local" ==>
                  topic in n.targets && n.targets[topic] == r.targets[topic])
            && (topic in r.targets && r.targets[topic].backend == "local" ==>
                  var t, window := r.targets[topic], Resolved(Migrated(r.states, orders.windows, bound, live), bound,
                                                              live, r.targets[topic].window);
                  && (topic in n.targets <==> window.Some?)
                  && (topic in n.targets ==>
                        && n.targets[topic].window == window.value && n.targets[topic].backend == "local"
                        && n.targets[topic].node == t.node && n.targets[topic].session == t.session))
            && (topic in n.chats <==> topic in r.chats && (topic in n.bindings || topic in n.targets))
            && (topic in n.chats ==> n.chats[topic] == r.chats[topic])
  {
    hide Backfilled, MigratedCursors, MigratedSessions, Migrated, Resolved;
  }

  /** Of the cursors that move to one place the last in the dictionary's order stays, with
      its offset. */
  lemma {:induction false} CursorMoves(
    cursors: map<CursorKey, int>, order: seq<CursorKey>, states: map<string, WindowState>, live: Live, i: nat)
    requires i < |order| && order[i] in cursors && CursorWindow(states, live, order[i].1).Some?
    requires forall j :: i < j < |order| && order[j] in cursors ==>
               || order[j].0 != order[i].0
               || CursorWindow(states, live, order[j].1) != CursorWindow(states, live, order[i].1)
    ensures var k := (order[i].0, CursorWindow(states, live, order[i].1).value);
            var n := MigratedCursors(cursors, order, states, live);
            k in n && n[k] == cursors[order[i]]
  {
    hide CursorWindow;
    if i < |order| - 1 {
      CursorMoves(cursors, order[..|order| - 1], states, live, i);
    }
  }

  /** And so does the session beside it; one taken from the window is that of its state. */
  lemma {:induction false} SessionMoves(
    sessions: map<CursorKey, string>, order: seq<CursorKey>, cursors: map<CursorKey, int>,
    migrated: map<CursorKey, int>, states: map<string, WindowState>, live: Live, i: nat)
    requires i < |order| && order[i] in sessions && SessionKey(cursors, migrated, states, live, order[i]).Some?
    requires forall j :: i < j < |order| && order[j] in sessions ==>
               SessionKey(cursors, migrated, states, live, order[j])
               != SessionKey(cursors, migrated, states, live, order[i])
    ensures var k := SessionKey(cursors, migrated, states, live, order[i]).value;
            var n := MigratedSessions(sessions, order, cursors, migrated, states, live);
            k in n && n[k] == sessions[order[i]]
  {
    hide SessionKey;
    if i < |order| - 1 {
      SessionMoves(sessions, order[..|order| - 1], cursors, migrated, states, live, i);
    }
  }

  /** Where a cursor and its session go: with a live or kept window, or to the live window
      of an old-style name. */
  lemma CursorGoes(states: map<string, WindowState>, live: Live, window: string)
    ensures var n := CursorWindow(states, live, window);
            && (IsWindowId(window) ==> n == if window in live.ids || window in states then Some(window) else None)
            && (!IsWindowId(window) && window in live.byName && live.byName[window] != "" ==>
                  n == Some(live.byName[window]))
            && (!IsWindowId(window) && !(window in live.byName && live.byName[window] != "") ==> n == None)
  {
  }

  lemma BackfillKeeps(sessions: map<CursorKey, string>, cursors: set<CursorKey>, states: map<string, WindowState>)
    ensures var n := Backfilled(sessions, cursors, states);
            && (forall k :: k in sessions ==> k in n && n[k] == sessions[k])
            && (forall k :: k !in sessions ==>
                  (k in n <==> k in cursors && k.1 in states && states[k.1].session != ""))
            && (forall k :: k in n && k !in sessions ==> n[k] == states[k.1].session)
  {
  }

  // --- The durable projection ---

  /** What is stored: a route for every topic with a binding or a target, with the session
      that a recorded local window runs now; a cursor for every recipient. */
  lemma ProjectionIs(r: Registry)
    ensures var routes, cursors := ProjectedRoutes(r), ProjectedOffsets(r);
            && (forall t :: t in routes <==> t in r.bindings || t in r.targets)
            && (forall t :: t in r.targets ==>
                  && routes[t].backend == r.targets[t].backend && routes[t].node == r.targets[t].node
                  && routes[t].window == r.targets[t].window
                  && routes[t].session == if r.targets[t].backend == "local" && r.targets[t].window != ""
                                             && r.targets[t].window in r.states
                                          then r.states[r.targets[t].window].session else r.targets[t].session)
            && (forall t :: t in r.bindings && t !in r.targets ==>
                  && routes[t].backend == "local" && routes[t].node == "local" && routes[t].window == r.bindings[t]
                  && routes[t].session == if r.bindings[t] in r.states then r.states[r.bindings[t]].session else "")
            && (forall k :: k in cursors <==> k in r.cursors)
            && (forall k :: k in cursors ==>
                  && cursors[k].offset == r.cursors[k]
                  && cursors[k].session == if k in r.cursorSessions && r.cursorSessions[k] != ""
                                           then r.cursorSessions[k]
                                           else if k.1 in r.states then r.states[k.1].session else "")
  {
  }

  /** What is restored: exactly the listed routes as targets, the local ones as bindings, and
      the cursors with their sessions; windows keep all but the session. */
  lemma RestoreIs(r: Registry, routes: seq<Route>, cursors: map<CursorKey, Cursor>)
    requires Distinct(routes)
    ensures var n, m := Restored(r, routes, cursors), RouteMap(routes);
            && n.chats == r.chats && n.states.Keys == r.states.Keys
            && (forall w :: w in n.states ==> n.states[w].cwd == r.states[w].cwd)
            && (forall t :: t in n.targets <==> t in m)
            && (forall t :: t in m ==>
                  n.targets[t] == Target(m[t].backend, m[t].node, m[t].session, m[t].window))
            && (forall t :: t in n.bindings <==> t in m && m[t].backend == "local" && m[t].window != "")
            && (forall t :: t in n.bindings ==> n.bindings[t] == m[t].window)
            && (forall k :: k in n.cursors <==> k in cursors)
            && (forall k :: k in cursors ==> n.cursors[k] == cursors[k].offset)
            && (forall k :: k in n.cursorSessions <==> k in cursors && cursors[k].session != "")
            && (forall k :: k in n.cursorSessions ==> n.cursorSessions[k] == cursors[k].session)
  {
    RestoredTargets(r, routes);
    RestoredOnly(r, routes);
    hide RestoredRoutes, RouteMap;
  }

  lemma {:induction false} RestoredOnly(r: Registry, routes: seq<Route>)
    ensures var n := RestoredRoutes(r, routes);
            && n.chats == r.chats && n.states.Keys == r.states.Keys
            && (forall w :: w in n.states ==> n.states[w].cwd == r.states[w].cwd)
  {
    if routes != [] {
      RestoredOnly(r, routes[..|routes| - 1]);
    }
  }

  /** The session of a restored window is that of the last listed local route to it. */
  lemma {:induction false} RestoredSession(r: Registry, routes: seq<Route>, i: nat)
    requires i < |routes| && routes[i].data.backend == "local" && routes[i].data.window != ""
    requires routes[i].data.window in r.states
    requires forall j :: i < j < |routes| && routes[j].data.backend == "local" ==>
               routes[j].data.window != routes[i].data.window
    ensures var window, n := routes[i].data.window, RestoredRoutes(r, routes);
            window in n.states && n.states[window].session == routes[i].data.session
  {
    RestoredOnly(r, routes[..|routes| - 1]);
    if i < |routes| - 1 {
      RestoredSession(r, routes[..|routes| - 1], i);
    }
  }
}
