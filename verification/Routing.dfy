/** The routing registry in memory: which topic talks to which window or agent.

    Every topic of the local backend is written twice, as a binding and as a target, so
    that older state stays readable. `Registry` is the state; class `SessionManager.SessionManager`
    holds it in fields, and each of its methods is proved equal to a function here. */
module Routing {
  import opened Basics
  import opened RouteTable

  datatype Target = Target(backend: string, node: string, session: string, window: string)

  datatype WindowState = WindowState(session: string, cwd: string)

  /** `chats` holds the group chat that a user's topic belongs to; `cursors` and
      `cursorSessions` the delivered offsets and the sessions they count in. */
  datatype Registry = Registry(
    bindings: map<Topic, string>,
    targets: map<Topic, Target>,
    states: map<string, WindowState>,
    chats: map<Topic, int>,
    cursors: map<CursorKey, int>,
    cursorSessions: map<CursorKey, string>)

  predicate IsLocal(t: Target) {
    t.backend == "local" && t.window != ""
  }

  /** The dual-write rule: a topic is bound to a window exactly when its target is local
      with that window. */
  ghost predicate Agree(bindings: map<Topic, string>, targets: map<Topic, Target>) {
    forall topic ::
      && (topic in bindings <==> topic in targets && IsLocal(targets[topic]))
      && (topic in bindings ==> bindings[topic] == targets[topic].window)
  }

  // --- Ownership of shared topics ---

  predicate IsBound(r: Registry, topic: Topic) {
    topic in r.bindings || topic in r.targets
  }

  /** The users who have something bound in this thread of this chat. */
  function Candidates(r: Registry, thread: int, chat: int): set<int> {
    set t | t in r.chats && t.1 == thread && r.chats[t] == chat && IsBound(r, t) :: t.0
  }

  lemma NotEmpty(s: set<int>)
    ensures s == {} || exists x :: x in s
  {
    if forall x :: x !in s {
      assert s == {};
    }
  }

  ghost function Least(s: set<int>): (m: int)
    requires s != {}
    ensures m in s && forall x :: x in s ==> m <= x
  {
    NotEmpty(s);
    var x :| x in s;
    if s == {x} then x
    else
      var rest := Least(s - {x});
      assert forall y :: y in s ==> y == x || y in s - {x};
      if x < rest then x else rest
  }

  /** A topic outside group chats is its user's own; in a group it belongs to the least
      user who has it bound, and to the asking user when nobody has. */
  ghost function OwnerId(r: Registry, user: int, thread: int): int {
    if (user, thread) !in r.chats then user
    else
      var candidates := Candidates(r, thread, r.chats[(user, thread)]);
      if candidates == {} then user else Least(candidates)
  }

  /** More than one topic is bound to the window. */
  ghost predicate Ambiguous(bindings: map<Topic, string>, window: string) {
    exists s, t :: s in bindings && t in bindings && s != t && bindings[s] == window && bindings[t] == window
  }

  ghost function WindowFor(r: Registry, user: int, thread: int): Option<string> {
    var topic := (OwnerId(r, user, thread), thread);
    if topic !in r.bindings then None
    else if r.bindings[topic] != "" && Ambiguous(r.bindings, r.bindings[topic]) then None
    else Some(r.bindings[topic])
  }

  // --- Binding and unbinding ---

  function SessionOf(states: map<string, WindowState>, window: string): string {
    if window in states then states[window].session else ""
  }

  function BoundTo(r: Registry, topic: Topic, window: string): Registry {
    r.(bindings := r.bindings[topic := window],
       targets := r.targets[topic := Target("local", "local", SessionOf(r.states, window), window)])
  }

  function BoundTarget(r: Registry, topic: Topic, target: Target): Registry {
    r.(targets := r.targets[topic := target],
       bindings := if IsLocal(target) then r.bindings[topic := target.window] else r.bindings - {topic})
  }

  function Unbound(r: Registry, topic: Topic): Registry {
    r.(bindings := r.bindings - {topic}, targets := r.targets - {topic})
  }

  /** The group mapping of the owner's topic, and of everyone who shares it, is dropped. */
  ghost function ChatsCleared(r: Registry, user: int, thread: int): Registry {
    var owner := (OwnerId(r, user, thread), thread);
    r.(chats := map t | t in r.chats && !(t.1 == thread
                          && (t == owner || (owner in r.chats && r.chats[t] == r.chats[owner]))) :: r.chats[t])
  }

  function WindowRemoved(r: Registry, window: string): Registry {
    Registry(
      map t | t in r.bindings && r.bindings[t] != window :: r.bindings[t],
      map t | t in r.targets && !(r.targets[t].backend == "local" && r.targets[t].window == window) :: r.targets[t],
      r.states - {window},
      r.chats,
      map k | k in r.cursors && k.1 != window :: r.cursors[k],
      map k | k in r.cursorSessions && k.1 != window :: r.cursorSessions[k])
  }

  // --- Startup: stale window names ---

  predicate IsDigit(c: char) {
    '0' <= c <= '9'
  }

  predicate IsWindowId(key: string) {
    |key| > 1 && key[0] == '@' && forall i :: 1 <= i < |key| ==> IsDigit(key[i])
  }

  /** The live windows: their ids, and the id behind each name. */
  datatype Live = Live(ids: set<string>, byName: map<string, string>)

  predicate Recoverable(states: map<string, WindowState>, bound: set<string>, window: string) {
    window in states && window in bound && states[window].session != "" && states[window].cwd != ""
  }

  /** The window a recorded name stands for now, if it is kept: a live id, a missing
      window that can be recovered, or the live window with an old-style name. */
  function Resolved(states: map<string, WindowState>, bound: set<string>, live: Live, key: string): Option<string> {
    if IsWindowId(key) then
      if key in live.ids || Recoverable(states, bound, key) then Some(key) else None
    else if key in live.byName && live.byName[key] != "" then Some(live.byName[key])
    else None
  }

  /** The window states in the order of the dictionary; a state recorded under a window's
      old name and one under its id can meet, and the later one stays. */
  function Migrated(states: map<string, WindowState>, order: seq<string>, bound: set<string>, live: Live):
    map<string, WindowState>
  {
    if order == [] then map[]
    else
      var key := order[|order| - 1];
      var before := Migrated(states, order[..|order| - 1], bound, live);
      var id := Resolved(states, bound, live, key);
      if id.Some? && key in states then before[id.value := states[key]] else before
  }

  function BoundIds(r: Registry): set<string> {
    (set t | t in r.bindings && IsWindowId(r.bindings[t]) :: r.bindings[t])
    + (set t | t in r.targets && r.targets[t].backend == "local" && IsWindowId(r.targets[t].window)
         :: r.targets[t].window)
  }

  function ResolvedTarget(states: map<string, WindowState>, bound: set<string>, live: Live, t: Target): Option<Target> {
    if t.backend != "local" then Some(t)
    else
      var id := Resolved(states, bound, live, t.window);
      if id.Some? then Some(t.(window := id.value)) else None
  }

  /** The window that a cursor counts for now, judged by the states that were kept. */
  function CursorWindow(states: map<string, WindowState>, live: Live, window: string): Option<string> {
    if IsWindowId(window) then
      if window in live.ids || window in states then Some(window) else None
    else if window in live.byName && live.byName[window] != "" then Some(live.byName[window])
    else None
  }

  /** The cursors in the order of their dictionary, the later of two that meet staying. */
  function MigratedCursors(
    cursors: map<CursorKey, int>, order: seq<CursorKey>, states: map<string, WindowState>, live: Live):
    map<CursorKey, int>
  {
    if order == [] then map[]
    else
      var key := order[|order| - 1];
      var before := MigratedCursors(cursors, order[..|order| - 1], states, live);
      var window := CursorWindow(states, live, key.1);
      if window.Some? && key in cursors then before[(key.0, window.value) := cursors[key]] else before
  }

  /** The key that the session of a cursor moves to: with the cursor, or where a cursor
      has moved to it. */
  function SessionKey(
    cursors: map<CursorKey, int>, migrated: map<CursorKey, int>, states: map<string, WindowState>, live: Live,
    key: CursorKey): Option<CursorKey>
  {
    var window := CursorWindow(states, live, key.1);
    if key in cursors && window.Some? then Some((key.0, window.value))
    else if key in migrated then Some(key)
    else None
  }

  function MigratedSessions(
    sessions: map<CursorKey, string>, order: seq<CursorKey>, cursors: map<CursorKey, int>,
    migrated: map<CursorKey, int>, states: map<string, WindowState>, live: Live): map<CursorKey, string>
  {
    if order == [] then map[]
    else
      var key := order[|order| - 1];
      var before := MigratedSessions(sessions, order[..|order| - 1], cursors, migrated, states, live);
      var moved := SessionKey(cursors, migrated, states, live, key);
      if moved.Some? && key in sessions then before[moved.value := sessions[key]] else before
  }

  /** A cursor without a session takes that of its window. */
  function Backfilled(
    sessions: map<CursorKey, string>, cursors: set<CursorKey>, states: map<string, WindowState>):
    map<CursorKey, string>
  {
    map k | k in sessions.Keys + cursors && (k in sessions || SessionOf(states, k.1) != "")
      :: if k in sessions then sessions[k] else SessionOf(states, k.1)
  }

  lemma BackfilledNext(
    sessions: map<CursorKey, string>, cursors: set<CursorKey>, key: CursorKey, states: map<string, WindowState>)
    requires key !in cursors
    ensures var before := Backfilled(sessions, cursors, states);
            Backfilled(sessions, cursors + {key}, states)
              == if key !in before && SessionOf(states, key.1) != "" then before[key := SessionOf(states, key.1)]
                 else before
  {
  }

  lemma NothingBackfilled(sessions: map<CursorKey, string>, states: map<string, WindowState>)
    ensures Backfilled(sessions, {}, states) == sessions
  {
  }

  /** The recorded windows, cursors and cursor sessions in the order of their dictionaries. */
  datatype Orders = Orders(windows: seq<string>, cursors: seq<CursorKey>, sessions: seq<CursorKey>)

  function StaleResolved(r: Registry, orders: Orders, live: Live): Registry {
    var bound := BoundIds(r);
    var states := Migrated(r.states, orders.windows, bound, live);
    var bindings := map t | t in r.bindings && Resolved(states, bound, live, r.bindings[t]).Some?
                      :: Resolved(states, bound, live, r.bindings[t]).value;
    var targets := map t | t in r.targets && ResolvedTarget(states, bound, live, r.targets[t]).Some?
                     :: ResolvedTarget(states, bound, live, r.targets[t]).value;
    var cursors := MigratedCursors(r.cursors, orders.cursors, states, live);
    Registry(bindings, targets, states,
             map t | t in r.chats && (t in bindings || t in targets) :: r.chats[t],
             cursors,
             Backfilled(MigratedSessions(r.cursorSessions, orders.sessions, r.cursors, cursors, states, live),
                        cursors.Keys, states))
  }

  // --- Projection to the durable store, and back ---

  function TargetOf(r: Registry, topic: Topic): Target
    requires IsBound(r, topic)
  {
    if topic in r.targets then r.targets[topic]
    else Target("local", "local", SessionOf(r.states, r.bindings[topic]), r.bindings[topic])
  }

  /** What is stored for a target: for a local one the session that its window runs now. */
  function Projected(states: map<string, WindowState>, t: Target): RouteData {
    RouteData(t.backend, t.node, t.window,
              if IsLocal(t) && t.window in states then states[t.window].session else t.session)
  }

  function ProjectedRoutes(r: Registry): map<Topic, RouteData> {
    map t | t in r.bindings.Keys + r.targets.Keys :: Projected(r.states, TargetOf(r, t))
  }

  function ProjectedOffsets(r: Registry): map<CursorKey, Cursor> {
    map k | k in r.cursors ::
      Cursor(r.cursors[k],
             if k in r.cursorSessions && r.cursorSessions[k] != "" then r.cursorSessions[k]
             else SessionOf(r.states, k.1))
  }

  function AsTarget(d: RouteData): Target {
    Target(d.backend, d.node, d.session, d.window)
  }

  function RestoredRoute(r: Registry, route: Route): Registry {
    var target := AsTarget(route.data);
    var topic := route.topic;
    r.(targets := r.targets[topic := target],
       bindings := if IsLocal(target) then r.bindings[topic := target.window] else r.bindings,
       states := if IsLocal(target) && target.window in r.states
                 then r.states[target.window := r.states[target.window].(session := target.session)] else r.states)
  }

  function RestoredRoutes(r: Registry, routes: seq<Route>): Registry {
    if routes == [] then r.(bindings := map[], targets := map[])
    else RestoredRoute(RestoredRoutes(r, routes[..|routes| - 1]), routes[|routes| - 1])
  }

  function Restored(r: Registry, routes: seq<Route>, offsets: map<CursorKey, Cursor>): Registry {
    RestoredRoutes(r, routes).(
      cursors := map k | k in offsets :: offsets[k].offset,
      cursorSessions := map k | k in offsets && offsets[k].session != "" :: offsets[k].session)
  }

  // --- Who owns a topic ---

  lemma LeastIs(s: set<int>, m: int)
    requires m in s && forall x :: x in s ==> m <= x
    ensures s != {} && Least(s) == m
  {
  }

  /** Someone mapped to the chat has the topic bound. */
  predicate Shares(r: Registry, topic: Topic, thread: int, chat: int) {
    topic in r.chats && topic.1 == thread && r.chats[topic] == chat && (topic in r.bindings || topic in r.targets)
  }

  /** Outside group chats, and where nobody of the chat has the topic bound, the owner is the
      asking user; otherwise it is the least of those who have. */
  lemma OwnerIsLeast(r: Registry, user: int, thread: int)
    ensures var owner := OwnerId(r, user, thread);
            if (user, thread) in r.chats && exists t :: Shares(r, t, thread, r.chats[(user, thread)])
            then Shares(r, (owner, thread), thread, r.chats[(user, thread)])
                 && forall t :: Shares(r, t, thread, r.chats[(user, thread)]) ==> owner <= t.0
            else owner == user
  {
    if (user, thread) in r.chats {
      var chat := r.chats[(user, thread)];
      var candidates := Candidates(r, thread, chat);
      assert forall t :: Shares(r, t, thread, chat) ==> t.0 in candidates;
      if candidates != {} {
        assert OwnerId(r, user, thread) in candidates;
        assert Shares(r, (OwnerId(r, user, thread), thread), thread, chat);
      }
    }
  }

  /** Looking up the owner of the owner changes nothing. */
  lemma OwnerIdempotent(r: Registry, user: int, thread: int)
    ensures OwnerId(r, OwnerId(r, user, thread), thread) == OwnerId(r, user, thread)
  {
    if (user, thread) in r.chats {
      var candidates := Candidates(r, thread, r.chats[(user, thread)]);
      if candidates != {} {
        assert Least(candidates) in candidates;
      }
    }
  }

  /** Two users mapped to one chat and thread have the same owner once anyone of that
      chat has the topic bound, and it is one of those who have. */
  lemma SharedOwner(r: Registry, user: int, other: int, thread: int)
    requires (user, thread) in r.chats && (other, thread) in r.chats
    requires r.chats[(user, thread)] == r.chats[(other, thread)]
    requires exists t :: t in r.chats && t.1 == thread && r.chats[t] == r.chats[(user, thread)] && IsBound(r, t)
    ensures OwnerId(r, user, thread) == OwnerId(r, other, thread)
    ensures IsBound(r, (OwnerId(r, user, thread), thread))
  {
    var t :| t in r.chats && t.1 == thread && r.chats[t] == r.chats[(user, thread)] && IsBound(r, t);
    assert t.0 in Candidates(r, thread, r.chats[(user, thread)]);
  }

  /** Binding the owner's topic does not change who owns it, for anyone who shares it. */
  lemma OwnerAfterBinding(r: Registry, n: Registry, user: int, other: int, thread: int)
    requires n.chats == r.chats
    requires var topic := (OwnerId(r, user, thread), thread);
             IsBound(n, topic) && forall t :: t != topic ==> (IsBound(n, t) <==> IsBound(r, t))
    requires other == user
             || ((user, thread) in r.chats && (other, thread) in r.chats
                 && r.chats[(user, thread)] == r.chats[(other, thread)])
    ensures OwnerId(n, other, thread) == OwnerId(r, user, thread)
  {
    if (user, thread) in r.chats {
      var chat := r.chats[(user, thread)];
      var owner := OwnerId(r, user, thread);
      var before, after := Candidates(r, thread, chat), Candidates(n, thread, chat);
      if before == {} {
        assert owner == user;
      } else {
        assert owner in before;
      }
      assert (owner, thread) in r.chats && r.chats[(owner, thread)] == chat;
      assert owner in after;
      forall x | x in after ensures owner <= x {
        if x != owner {
          assert (x, thread) in r.chats && IsBound(r, (x, thread));
          assert x in before;
        }
      }
      LeastIs(after, owner);
    }
  }

  ghost function Bind(r: Registry, user: int, thread: int, window: string): Registry {
    BoundTo(r, (OwnerId(r, user, thread), thread), window)
  }

  ghost function BindTarget(r: Registry, user: int, thread: int, target: Target): Registry {
    BoundTarget(r, (OwnerId(r, user, thread), thread), target)
  }

  ghost function Unbind(r: Registry, user: int, thread: int): Registry {
    var owner := OwnerId(r, user, thread);
    if IsBound(r, (owner, thread)) then ChatsCleared(Unbound(r, (owner, thread)), owner, thread) else r
  }

  /** Only the bindings and targets of `topic` may differ. */
  ghost predicate OnlyTopic(before: Registry, after: Registry, topic: Topic) {
    && (forall t :: t != topic ==> (t in after.bindings <==> t in before.bindings))
    && (forall t :: t != topic && t in after.bindings ==> after.bindings[t] == before.bindings[t])
    && (forall t :: t != topic ==> (t in after.targets <==> t in before.targets))
    && (forall t :: t != topic && t in after.targets ==> after.targets[t] == before.targets[t])
    && after.states == before.states && after.cursors == before.cursors
    && after.cursorSessions == before.cursorSessions
  }

  /** Binding touches the owner's topic only. */
  lemma BindTouches(r: Registry, user: int, thread: int, window: string)
    ensures var topic, n := (OwnerId(r, user, thread), thread), Bind(r, user, thread, window);
            && OnlyTopic(r, n, topic) && n.chats == r.chats
            && topic in n.bindings && n.bindings[topic] == window
            && topic in n.targets && n.targets[topic].backend == "local" && n.targets[topic].window == window
            && n.targets[topic].node == "local"
            && (if window in r.states then n.targets[topic].session == r.states[window].session
                else n.targets[topic].session == "")
  {
  }

  /** So does binding any target; the window binding is there exactly for a local one. */
  lemma BindTargetTouches(r: Registry, user: int, thread: int, target: Target)
    ensures var topic, n := (OwnerId(r, user, thread), thread), BindTarget(r, user, thread, target);
            && OnlyTopic(r, n, topic) && n.chats == r.chats
            && topic in n.targets && n.targets[topic] == target
            && (topic in n.bindings <==> target.backend == "local" && target.window != "")
            && (topic in n.bindings ==> n.bindings[topic] == target.window)
  {
  }

  /** Unbinding takes the owner's topic, and with it the chat of everyone who shares it, if
      anything was bound there; every other topic keeps all it had. */
  lemma UnbindTouches(r: Registry, user: int, thread: int)
    ensures var topic, n := (OwnerId(r, user, thread), thread), Unbind(r, user, thread);
            && OnlyTopic(r, n, topic)
            && topic !in n.bindings && topic !in n.targets
            && (forall t :: t in n.chats ==> t in r.chats && n.chats[t] == r.chats[t])
            && (forall t :: t in r.chats ==>
                  (t !in n.chats <==>
                     && (topic in r.bindings || topic in r.targets)
                     && (t == topic || (t.1 == thread && topic in r.chats && r.chats[t] == r.chats[topic]))))
  {
    var topic := (OwnerId(r, user, thread), thread);
    if IsBound(r, topic) {
      var u := Unbound(r, topic);
      OwnerIsLeast(u, topic.0, thread);
      var next := (OwnerId(u, topic.0, thread), thread);
      assert topic in r.chats ==> next in r.chats && r.chats[next] == r.chats[topic];
      assert topic !in r.chats ==> next == topic;
      hide OwnerId;
    }
  }

  /** Removing a window takes its state, its cursors and what is bound to it, and no more. */
  lemma RemoveWindowTouches(r: Registry, window: string)
    ensures var n := WindowRemoved(r, window);
            && n.chats == r.chats
            && (forall w :: w in n.states <==> w in r.states && w != window)
            && (forall w :: w in n.states ==> n.states[w] == r.states[w])
            && (forall t :: t in n.bindings <==> t in r.bindings && r.bindings[t] != window)
            && (forall t :: t in n.bindings ==> n.bindings[t] == r.bindings[t])
            && (forall t :: t in n.targets <==>
                  t in r.targets && (r.targets[t].backend != "local" || r.targets[t].window != window))
            && (forall t :: t in n.targets ==> n.targets[t] == r.targets[t])
            && (forall k :: k in n.cursors <==> k in r.cursors && k.1 != window)
            && (forall k :: k in n.cursors ==> n.cursors[k] == r.cursors[k])
            && (forall k :: k in n.cursorSessions <==> k in r.cursorSessions && k.1 != window)
            && (forall k :: k in n.cursorSessions ==> n.cursorSessions[k] == r.cursorSessions[k])
  {
  }

  /** After one of the users who share a topic binds a window, all of them resolve that
      window, or none of them any, if some other topic is bound to it too. */
  lemma SharedTopicResolves(r: Registry, user: int, other: int, thread: int, window: string)
    requires window != ""
    requires other == user
             || ((user, thread) in r.chats && (other, thread) in r.chats
                 && r.chats[(user, thread)] == r.chats[(other, thread)])
    ensures var n := Bind(r, user, thread, window);
            var topic := (OwnerId(r, user, thread), thread);
            var elsewhere := exists t :: t in r.bindings && t != topic && r.bindings[t] == window;
            WindowFor(n, other, thread) == if elsewhere then None else Some(window)
  {
    var n := Bind(r, user, thread, window);
    var topic := (OwnerId(r, user, thread), thread);
    OwnerAfterBinding(r, n, user, other, thread);
    if t :| t in r.bindings && t != topic && r.bindings[t] == window {
      assert n.bindings[t] == window && n.bindings[topic] == window;
    }
    if Ambiguous(n.bindings, window) {
      var s, t :| s in n.bindings && t in n.bindings && s != t && n.bindings[s] == window && n.bindings[t] == window;
      var u := if s == topic then t else s;
      assert u in r.bindings && u != topic && r.bindings[u] == window;
    }
  }

  // --- Dual-write agreement ---

  /** Binding a window keeps the rule exactly when the window has a name. */
  lemma BindAgrees(r: Registry, user: int, thread: int, window: string)
    requires Agree(r.bindings, r.targets)
    ensures var n := Bind(r, user, thread, window); Agree(n.bindings, n.targets) <==> window != ""
  {
    var topic := (OwnerId(r, user, thread), thread);
    var n := Bind(r, user, thread, window);
    assert topic in n.bindings && n.targets[topic].window == window;
  }

  lemma BindTargetAgrees(r: Registry, user: int, thread: int, target: Target)
    requires Agree(r.bindings, r.targets)
    ensures var n := BindTarget(r, user, thread, target); Agree(n.bindings, n.targets)
  {
  }

  lemma UnbindAgrees(r: Registry, user: int, thread: int)
    requires Agree(r.bindings, r.targets)
    ensures var n := Unbind(r, user, thread); Agree(n.bindings, n.targets)
    ensures var n := Unbind(r, user, thread); !IsBound(n, (OwnerId(r, user, thread), thread))
  {
  }

  lemma RemoveWindowAgrees(r: Registry, window: string)
    requires Agree(r.bindings, r.targets)
    ensures var n := WindowRemoved(r, window);
            && Agree(n.bindings, n.targets)
            && (forall t :: t in n.bindings ==> n.bindings[t] != window)
            && (window != "" ==>
                  forall t :: t in n.targets && n.targets[t].backend == "local" ==> n.targets[t].window != window)
  {
  }

  /** Startup re-resolution keeps the rule, live windows having names. */
  lemma ResolveStaleAgrees(r: Registry, orders: Orders, live: Live)
    requires Agree(r.bindings, r.targets) && "" !in live.byName
    ensures var n := StaleResolved(r, orders, live); Agree(n.bindings, n.targets)
  {
    var bound := BoundIds(r);
    var states := Migrated(r.states, orders.windows, bound, live);
    hide Backfilled, MigratedCursors, MigratedSessions;
    assert forall key :: Resolved(states, bound, live, key).Some? ==> Resolved(states, bound, live, key).value != "";
  }

  /** A missing window keeps its state exactly when that can be recovered. */
  lemma {:induction false} MigratedMissing(
    states: map<string, WindowState>, order: seq<string>, bound: set<string>, live: Live, window: string)
    requires live.byName.Values <= live.ids && window !in live.ids && IsWindowId(window)
    ensures var n := Migrated(states, order, bound, live);
            && (window in n ==> Recoverable(states, bound, window) && n[window] == states[window])
            && (Recoverable(states, bound, window) && window in order ==> window in n)
  {
    if order != [] {
      MigratedMissing(states, order[..|order| - 1], bound, live, window);
      assert order == order[..|order| - 1] + [order[|order| - 1]];
    }
  }

  /** A binding to a window id survives startup exactly when the window is live or its
      recorded state, with session and directory, can bring it back; that state is then
      kept. A binding under an old-style name moves to the live window of that name. */
  lemma SurvivorsCanBeReached(r: Registry, orders: Orders, live: Live, topic: Topic)
    requires topic in r.bindings && live.byName.Values <= live.ids
    requires forall key :: key in r.states ==> key in orders.windows
    ensures var n := StaleResolved(r, orders, live);
            var window := r.bindings[topic];
            && (topic in n.bindings ==>
                  n.bindings[topic] in live.ids || Recoverable(n.states, BoundIds(r), n.bindings[topic]))
            && (IsWindowId(window) ==>
                  && (topic in n.bindings <==> window in live.ids || Recoverable(r.states, BoundIds(r), window))
                  && (topic in n.bindings ==> n.bindings[topic] == window)
                  && (topic in n.bindings && window !in live.ids ==>
                        window in n.states && n.states[window] == r.states[window]))
            && (!IsWindowId(window) ==>
                  && (topic in n.bindings <==> window in live.byName && live.byName[window] != "")
                  && (topic in n.bindings ==> n.bindings[topic] == live.byName[window]))
  {
    hide Backfilled, MigratedCursors, MigratedSessions;
    var window := r.bindings[topic];
    if IsWindowId(window) && window !in live.ids {
      MigratedMissing(r.states, orders.windows, BoundIds(r), live, window);
    }
  }

  lemma {:induction false} CursorsMoved(
    cursors: map<CursorKey, int>, order: seq<CursorKey>, states: map<string, WindowState>, live: Live)
    ensures forall k :: k in MigratedCursors(cursors, order, states, live) ==>
              exists o :: o in order && o in cursors && o.0 == k.0 && CursorWindow(states, live, o.1) == Some(k.1)
    ensures forall o :: o in order && o in cursors && CursorWindow(states, live, o.1).Some? ==>
              (o.0, CursorWindow(states, live, o.1).value) in MigratedCursors(cursors, order, states, live)
  {
    if order != [] {
      var n := |order| - 1;
      CursorsMoved(cursors, order[..n], states, live);
      assert order == order[..n] + [order[n]];
      hide CursorWindow;
      var before, after := MigratedCursors(cursors, order[..n], states, live),
                           MigratedCursors(cursors, order, states, live);
      forall k | k in after
        ensures exists o :: o in order && o in cursors && o.0 == k.0 && CursorWindow(states, live, o.1) == Some(k.1)
      {
        if k in before {
          var o :| o in order[..n] && o in cursors && o.0 == k.0 && CursorWindow(states, live, o.1) == Some(k.1);
          assert o in order;
        } else {
          assert order[n] in order;
        }
      }
    }
  }

  lemma {:induction false} SessionsFollow(
    sessions: map<CursorKey, string>, order: seq<CursorKey>, cursors: map<CursorKey, int>,
    migrated: map<CursorKey, int>, states: map<string, WindowState>, live: Live)
    requires forall o :: o in cursors && CursorWindow(states, live, o.1).Some? ==>
               (o.0, CursorWindow(states, live, o.1).value) in migrated
    ensures forall k :: k in MigratedSessions(sessions, order, cursors, migrated, states, live) ==> k in migrated
  {
    if order != [] {
      SessionsFollow(sessions, order[..|order| - 1], cursors, migrated, states, live);
      hide CursorWindow;
    }
  }

  /** After startup every cursor counts for a live window or one whose state was kept, a
      cursor is kept exactly when its window is, no session stands without its cursor, and
      no cursor of a window with a session is left without one. */
  lemma CursorsCanBeResumed(r: Registry, orders: Orders, live: Live)
    requires live.byName.Values <= live.ids
    requires forall key :: key in r.cursors ==> key in orders.cursors
    ensures var n := StaleResolved(r, orders, live);
            && (forall k :: k in n.cursors ==> k.1 in live.ids || k.1 in n.states)
            && (forall k :: k in r.cursors && IsWindowId(k.1) ==>
                  ((k.1 in live.ids || k.1 in n.states) ==> k in n.cursors))
            && (forall k :: k in n.cursorSessions ==> k in n.cursors)
            && (forall k :: k in n.cursors && SessionOf(n.states, k.1) != "" ==> k in n.cursorSessions)
  {
    hide StaleResolved, MigratedCursors, MigratedSessions, Backfilled, Migrated;
    var n := StaleResolved(r, orders, live);
    var sessions := MigratedSessions(r.cursorSessions, orders.sessions, r.cursors, n.cursors, n.states, live);
    ResolvedCursors(r, orders, live);
    CursorsMoved(r.cursors, orders.cursors, n.states, live);
    SessionsFollow(r.cursorSessions, orders.sessions, r.cursors, n.cursors, n.states, live);
    BackfilledKeys(sessions, n.cursors.Keys, n.states);
    forall k | k in r.cursors && IsWindowId(k.1) && (k.1 in live.ids || k.1 in n.states) ensures k in n.cursors {
      assert CursorWindow(n.states, live, k.1) == Some(k.1);
    }
  }

  lemma ResolvedCursors(r: Registry, orders: Orders, live: Live)
    ensures var n := StaleResolved(r, orders, live);
            && n.cursors == MigratedCursors(r.cursors, orders.cursors, n.states, live)
            && n.cursorSessions == Backfilled(
                 MigratedSessions(r.cursorSessions, orders.sessions, r.cursors, n.cursors, n.states, live),
                 n.cursors.Keys, n.states)
  {
    hide MigratedCursors, MigratedSessions, Backfilled, Migrated;
  }

  lemma BackfilledKeys(
    sessions: map<CursorKey, string>, cursors: set<CursorKey>, states: map<string, WindowState>)
    requires forall k :: k in sessions ==> k in cursors
    ensures var after := Backfilled(sessions, cursors, states);
            && (forall k :: k in after ==> k in cursors)
            && (forall k :: k in cursors && SessionOf(states, k.1) != "" ==> k in after)
  {
  }

  // --- Round trip through the durable store ---

  /** The session recorded for a window once `routes` are restored: that of the last route
      to it, or the one it had. */
  function SessionAfter(states: map<string, WindowState>, routes: seq<Route>, window: string): string
    requires window in states
  {
    if routes == [] then states[window].session
    else
      var last := AsTarget(routes[|routes| - 1].data);
      if IsLocal(last) && last.window == window then last.session
      else SessionAfter(states, routes[..|routes| - 1], window)
  }

  ghost predicate TargetsHold(targets: map<Topic, Target>, routes: map<Topic, RouteData>) {
    targets.Keys == routes.Keys && forall t :: t in targets ==> targets[t] == AsTarget(routes[t])
  }

  ghost predicate StatesHold(states: map<string, WindowState>, before: map<string, WindowState>, routes: seq<Route>) {
    && states.Keys == before.Keys
    && forall w :: w in before ==> states[w] == WindowState(SessionAfter(before, routes, w), before[w].cwd)
  }

  lemma {:induction false} RestoredTargets(r: Registry, routes: seq<Route>)
    requires Distinct(routes)
    ensures var n := RestoredRoutes(r, routes);
            TargetsHold(n.targets, RouteMap(routes)) && Agree(n.bindings, n.targets)
  {
    if routes != [] {
      var init, last := routes[..|routes| - 1], routes[|routes| - 1];
      RestoredTargets(r, init);
      RouteMapHolds(init);
      assert last.topic !in RestoredRoutes(r, init).targets;
    }
  }

  lemma {:induction false} RestoredStates(r: Registry, routes: seq<Route>)
    ensures StatesHold(RestoredRoutes(r, routes).states, r.states, routes)
  {
    if routes != [] {
      RestoredStates(r, routes[..|routes| - 1]);
    }
  }

  /** Local routes to one recorded window name one session. */
  ghost predicate SessionsAgree(states: map<string, WindowState>, routes: seq<Route>) {
    forall i, j :: 0 <= i < |routes| && 0 <= j < |routes|
      && IsLocal(AsTarget(routes[i].data)) && IsLocal(AsTarget(routes[j].data))
      && routes[i].data.window == routes[j].data.window && routes[i].data.window in states
      ==> routes[i].data.session == routes[j].data.session
  }

  /** A cursor without a session is on a window that records none. */
  ghost predicate CursorsAgree(
    states: map<string, WindowState>, routes: seq<Route>, offsets: map<CursorKey, Cursor>) {
    forall k :: k in offsets && offsets[k].session == "" && k.1 in states ==> SessionAfter(states, routes, k.1) == ""
  }

  lemma {:induction false} SessionAfterIsLast(states: map<string, WindowState>, routes: seq<Route>, i: nat)
    returns (j: nat)
    requires i < |routes| && IsLocal(AsTarget(routes[i].data)) && routes[i].data.window in states
    ensures j < |routes| && IsLocal(AsTarget(routes[j].data)) && routes[j].data.window == routes[i].data.window
    ensures SessionAfter(states, routes, routes[i].data.window) == routes[j].data.session
  {
    var last := routes[|routes| - 1];
    if IsLocal(AsTarget(last.data)) && last.data.window == routes[i].data.window {
      j := |routes| - 1;
    } else {
      j := SessionAfterIsLast(states, routes[..|routes| - 1], i);
    }
  }

  ghost function AllRoutes(table: Table): map<Topic, RouteData> {
    map t | t in table :: table[t].data
  }

  /** What a restart leaves in the store: it loads the table, restores the registry from
      it, and saves. */
  ghost function SavedAgain(table: Table, r: Registry, routes: seq<Route>, offsets: map<CursorKey, Cursor>):
    (Table, map<CursorKey, Cursor>)
  {
    var n := Restored(r, routes, offsets);
    (Replace(table, ProjectedRoutes(n)), ProjectedOffsets(n))
  }

  lemma RestoredProjection(r: Registry, routes: seq<Route>, offsets: map<CursorKey, Cursor>)
    requires Distinct(routes)
    ensures var n := Restored(r, routes, offsets);
            && ProjectedRoutes(n).Keys == RouteMap(routes).Keys
            && (forall t :: t in RouteMap(routes) ==>
                  ProjectedRoutes(n)[t] == Projected(n.states, AsTarget(RouteMap(routes)[t])))
            && StatesHold(n.states, r.states, routes)
  {
    RestoredTargets(r, routes);
    RestoredStates(r, routes);
    hide StatesHold, Projected;
    var n := Restored(r, routes, offsets);
    assert n.bindings.Keys <= n.targets.Keys;
  }

  lemma RouteSurvives(r: Registry, routes: seq<Route>, offsets: map<CursorKey, Cursor>, t: Topic)
    requires Distinct(routes) && SessionsAgree(r.states, routes) && t in RouteMap(routes)
    ensures var n := Restored(r, routes, offsets);
            t in ProjectedRoutes(n) && ProjectedRoutes(n)[t] == RouteMap(routes)[t]
  {
    RestoredProjection(r, routes, offsets);
    RouteMapHolds(routes);
    hide ProjectedRoutes, Restored;
    var i :| 0 <= i < |routes| && routes[i].topic == t;
    var d := routes[i].data;
    if IsLocal(AsTarget(d)) && d.window in r.states {
      var j := SessionAfterIsLast(r.states, routes, i);
    }
  }

  lemma SurvivingRoutesAgree(r: Registry, routes: seq<Route>, offsets: map<CursorKey, Cursor>, i: nat, j: nat)
    requires Distinct(routes) && i < |routes| && j < |routes|
    requires IsLocal(AsTarget(routes[i].data)) && IsLocal(AsTarget(routes[j].data))
    requires routes[i].data.window == routes[j].data.window && routes[i].data.window in r.states
    requires ProjectedRoutes(Restored(r, routes, offsets)) == RouteMap(routes)
    ensures routes[i].data.session == routes[j].data.session
  {
    RestoredProjection(r, routes, offsets);
    RouteMapHolds(routes);
    hide ProjectedRoutes, Restored;
    var data := RouteMap(routes);
    assert data[routes[i].topic] == routes[i].data && data[routes[j].topic] == routes[j].data;
  }

  lemma RoutesSurvive(table: Table, r: Registry, routes: seq<Route>, offsets: map<CursorKey, Cursor>)
    requires Distinct(routes) && RouteMap(routes) == AllRoutes(table)
    ensures Replace(table, ProjectedRoutes(Restored(r, routes, offsets))) == table <==> SessionsAgree(r.states, routes)
  {
    var projected := ProjectedRoutes(Restored(r, routes, offsets));
    RestoredProjection(r, routes, offsets);
    hide ProjectedRoutes, Restored, StatesHold, Projected, RouteMap;
    ReplaceSame(table, projected);
    if SessionsAgree(r.states, routes) {
      forall t | t in RouteMap(routes) ensures projected[t] == RouteMap(routes)[t] {
        RouteSurvives(r, routes, offsets, t);
      }
      assert projected == RouteMap(routes);
    }
    if projected == RouteMap(routes) {
      forall i, j | 0 <= i < |routes| && 0 <= j < |routes|
                    && IsLocal(AsTarget(routes[i].data)) && IsLocal(AsTarget(routes[j].data))
                    && routes[i].data.window == routes[j].data.window && routes[i].data.window in r.states
        ensures routes[i].data.session == routes[j].data.session
      {
        SurvivingRoutesAgree(r, routes, offsets, i, j);
      }
    }
  }

  /** Writing the routes that are there already changes nothing, and only that. */
  lemma ReplaceSame(table: Table, routes: map<Topic, RouteData>)
    ensures Replace(table, routes) == table <==> routes == AllRoutes(table)
  {
    var again := Replace(table, routes);
    if again == table {
      assert forall t :: t in routes ==> routes[t] == again[t].data;
      assert routes.Keys == again.Keys;
    }
  }

  lemma OffsetsSurvive(r: Registry, routes: seq<Route>, offsets: map<CursorKey, Cursor>)
    requires Distinct(routes)
    ensures ProjectedOffsets(Restored(r, routes, offsets)) == offsets <==> CursorsAgree(r.states, routes, offsets)
  {
    var n := Restored(r, routes, offsets);
    RestoredStates(r, routes);
    var projected := ProjectedOffsets(n);
    assert projected.Keys == offsets.Keys;
    forall k | k in offsets
      ensures projected[k] == offsets[k] <==>
                (offsets[k].session == "" && k.1 in r.states ==> SessionAfter(r.states, routes, k.1) == "")
    {
    }
    hide ProjectedOffsets, Restored, SessionAfter, StatesHold;
    assert projected == offsets <==> forall k :: k in offsets ==> projected[k] == offsets[k];
  }

  /** Round trip: a restart leaves every route, generation and cursor in the store as it
      is exactly when local routes to one recorded window agree on its session and no
      cursor without a session is on a window that has one. */
  lemma RegistryRoundTrip(table: Table, r: Registry, routes: seq<Route>, offsets: map<CursorKey, Cursor>)
    requires Distinct(routes) && RouteMap(routes) == AllRoutes(table)
    ensures SavedAgain(table, r, routes, offsets) == (table, offsets)
       <==> SessionsAgree(r.states, routes) && CursorsAgree(r.states, routes, offsets)
  {
    RoutesSurvive(table, r, routes, offsets);
    OffsetsSurvive(r, routes, offsets);
  }

  /** In particular when no window is shared and every cursor has its session. */
  lemma UnsharedRoundTrip(table: Table, r: Registry, routes: seq<Route>, offsets: map<CursorKey, Cursor>)
    requires Distinct(routes) && RouteMap(routes) == AllRoutes(table)
    requires forall i, j ::
               0 <= i < j < |routes| && IsLocal(AsTarget(routes[i].data)) && IsLocal(AsTarget(routes[j].data))
               ==> routes[i].data.window != routes[j].data.window
    requires forall k :: k in offsets ==> offsets[k].session != ""
    ensures SavedAgain(table, r, routes, offsets) == (table, offsets)
  {
    RegistryRoundTrip(table, r, routes, offsets);
  }

  // --- The delivery fence ---

  /** `generations` is what the newest write returned. The generation is looked up under
      the asking user, the target under the topic's owner. */
  ghost function TargetFor(r: Registry, user: int, thread: int): Option<Target> {
    var topic := (OwnerId(r, user, thread), thread);
    if topic in r.targets then
      var t := r.targets[topic];
      if IsLocal(t) && Ambiguous(r.bindings, t.window) then None else Some(t)
    else
      var w := WindowFor(r, user, thread);
      if w.None? || w.value == "" then None
      else Some(Target("local", "local", SessionOf(r.states, w.value), w.value))
  }

  datatype Identity = Identity(generation: nat, session: string)

  ghost function DeliveryIdentity(r: Registry, table: Table, user: int, thread: int, window: string): Option<Identity> {
    var target := TargetFor(r, user, thread);
    if target.None? || target.value.backend != "local" || target.value.window != window || (user, thread) !in table
    then None
    else Some(Identity(table[(user, thread)].generation,
                       if window in r.states then r.states[window].session else target.value.session))
  }

  /** A fence taken from a saved registry carries the session of the owner's persisted
      route, which is local and to that window, and the generation of the asking user's. */
  lemma IdentityIsPersisted(r: Registry, before: Table, user: int, thread: int, window: string)
    requires window != ""
    ensures var table := Replace(before, ProjectedRoutes(r));
            var owner := (OwnerId(r, user, thread), thread);
            var id := DeliveryIdentity(r, table, user, thread, window);
            id.Some? ==>
              && owner in table && table[owner].data.backend == "local" && table[owner].data.window == window
              && id.value.session == table[owner].data.session
              && (user, thread) in table && id.value.generation == table[(user, thread)].generation
  {
    var topic := (OwnerId(r, user, thread), thread);
    if topic !in r.targets && WindowFor(r, user, thread).Some? {
      assert topic in r.bindings;
    }
  }

  ghost function Projections(saves: seq<Registry>): seq<map<Topic, RouteData>> {
    seq(|saves|, k requires 0 <= k < |saves| => ProjectedRoutes(saves[k]))
  }

  /** What the fence of `user` is at save number `k`. */
  ghost function IdentityAt(start: Table, saves: seq<Registry>, k: nat, user: int, thread: int, window: string):
    Option<Identity>
    requires k < |saves|
  {
    DeliveryIdentity(saves[k], After(start, Projections(saves)[..k + 1]), user, thread, window)
  }

  /** A fence was given out at the first save and still holds at the last one, and no save
      dropped the topic of the asking user. */
  ghost predicate FenceHolds(start: Table, saves: seq<Registry>, user: int, thread: int, window: string) {
    && saves != [] && (forall k :: 0 <= k < |saves| ==> (user, thread) in ProjectedRoutes(saves[k]))
    && IdentityAt(start, saves, 0, user, thread, window).Some?
    && IdentityAt(start, saves, |saves| - 1, user, thread, window) == IdentityAt(start, saves, 0, user, thread, window)
  }

  /** The route of a topic is one and the same at every save. */
  ghost predicate SameRoute(saves: seq<Registry>, topic: Topic) {
    forall k :: 0 <= k < |saves| ==>
      topic in ProjectedRoutes(saves[k]) && topic in ProjectedRoutes(saves[0])
      && ProjectedRoutes(saves[k])[topic] == ProjectedRoutes(saves[0])[topic]
  }

  /** A fence of the topic's owner that still holds names one and the same persisted route,
      the local one to its window with its session, at every save in between. */
  lemma FenceNamesOneRoute(start: Table, saves: seq<Registry>, user: int, thread: int, window: string)
    requires FenceHolds(start, saves, user, thread, window) && OwnerId(saves[0], user, thread) == user
    ensures SameRoute(saves, (user, thread))
    ensures window != "" ==>
              forall k :: 0 <= k < |saves| ==>
                var d := ProjectedRoutes(saves[k])[(user, thread)];
                && d.backend == "local" && d.window == window
                && d.session == IdentityAt(start, saves, 0, user, thread, window).value.session
  {
    hide OwnerId, TargetFor, ProjectedRoutes, DeliveryIdentity, After, GenerationAt;
    var writes, last := Projections(saves), |saves| - 1;
    FenceGeneration(start, saves, 0, user, thread, window);
    FenceGeneration(start, saves, last, user, thread, window);
    assert Present(writes, (user, thread), 0, last);
    FenceHasNoAba(start, writes, (user, thread), 0, last);
    forall k | 0 <= k < |saves|
      ensures ProjectedRoutes(saves[k])[(user, thread)] == ProjectedRoutes(saves[0])[(user, thread)]
    {
      assert writes[k][(user, thread)] == writes[0][(user, thread)];
    }
    if window != "" {
      FirstFence(start, saves, user, thread, window);
    }
  }

  lemma FenceGeneration(start: Table, saves: seq<Registry>, k: nat, user: int, thread: int, window: string)
    requires k < |saves| && (user, thread) in ProjectedRoutes(saves[k])
    requires IdentityAt(start, saves, k, user, thread, window).Some?
    ensures IdentityAt(start, saves, k, user, thread, window).value.generation
              == GenerationAt(start, Projections(saves), (user, thread), k)
  {
    hide OwnerId, TargetFor, ProjectedRoutes, After;
  }

  lemma FirstFence(start: Table, saves: seq<Registry>, user: int, thread: int, window: string)
    requires saves != [] && window != "" && OwnerId(saves[0], user, thread) == user
    requires IdentityAt(start, saves, 0, user, thread, window).Some?
    ensures (user, thread) in ProjectedRoutes(saves[0])
    ensures var d := ProjectedRoutes(saves[0])[(user, thread)];
            && d.backend == "local" && d.window == window
            && d.session == IdentityAt(start, saves, 0, user, thread, window).value.session
  {
    AfterLast(start, Projections(saves), 0);
    IdentityIsPersisted(saves[0], After(start, Projections(saves)[..0]), user, thread, window);
    hide OwnerId, TargetFor, ProjectedRoutes, After, DeliveryIdentity, NextGeneration;
  }

  /** The owner's row rebound elsewhere. */
  ghost function Elsewhere(r: Registry, topic: Topic): Registry {
    BoundTarget(r, topic, Target("remote", "", "", ""))
  }

  /** For someone who shares the topic with its owner the fence misses a change and a change
      back: it reads the generation of the asking user's own row. */
  lemma SharerFenceMissesChange(start: Table, r: Registry, user: int, thread: int, window: string)
    requires OwnerId(r, user, thread) != user
    requires DeliveryIdentity(r, Replace(start, ProjectedRoutes(r)), user, thread, window).Some?
    ensures var saves := [r, Elsewhere(r, (OwnerId(r, user, thread), thread)), r];
            FenceHolds(start, saves, user, thread, window) && !SameRoute(saves, (OwnerId(r, user, thread), thread))
  {
    var owner := (OwnerId(r, user, thread), thread);
    var away := Elsewhere(r, owner);
    var saves := [r, away, r];
    assert (user, thread) in ProjectedRoutes(r);
    OtherRowUntouched(r, owner, (user, thread));
    OwnerRowMoves(r, start, user, thread, window);
    hide ProjectedRoutes, OwnerId, TargetFor, Elsewhere, After, GenerationAt, IdentityAt;
    FenceComesBack(start, r, away, user, thread, window);
    assert ProjectedRoutes(saves[1])[owner] != ProjectedRoutes(saves[0])[owner];
  }

  /** A fence holds again after a detour that left the asking user's own row alone. */
  lemma FenceComesBack(start: Table, r: Registry, away: Registry, user: int, thread: int, window: string)
    requires DeliveryIdentity(r, Replace(start, ProjectedRoutes(r)), user, thread, window).Some?
    requires (user, thread) in ProjectedRoutes(r) && (user, thread) in ProjectedRoutes(away)
    requires ProjectedRoutes(away)[(user, thread)] == ProjectedRoutes(r)[(user, thread)]
    ensures IdentityAt(start, [r, away, r], 0, user, thread, window).Some?
    ensures IdentityAt(start, [r, away, r], 2, user, thread, window)
              == IdentityAt(start, [r, away, r], 0, user, thread, window)
  {
    hide ProjectedRoutes, OwnerId, TargetFor;
    var saves := [r, away, r];
    var writes := Projections(saves);
    assert writes == [ProjectedRoutes(r), ProjectedRoutes(away), ProjectedRoutes(r)];
    assert writes[..0] == [];
    AfterLast(start, writes, 0);
    assert After(start, writes[..1]) == Replace(start, ProjectedRoutes(r));
    assert Present(writes, (user, thread), 0, 2);
    FenceHasNoAba(start, writes, (user, thread), 0, 2);
    hide After;
    assert (user, thread) in After(start, writes[..3]) by { AfterLast(start, writes, 2); }
  }

  lemma OtherRowUntouched(r: Registry, topic: Topic, other: Topic)
    requires topic != other && other in ProjectedRoutes(r)
    ensures other in ProjectedRoutes(Elsewhere(r, topic))
    ensures ProjectedRoutes(Elsewhere(r, topic))[other] == ProjectedRoutes(r)[other]
  {
  }

  lemma OwnerRowMoves(r: Registry, start: Table, user: int, thread: int, window: string)
    requires DeliveryIdentity(r, Replace(start, ProjectedRoutes(r)), user, thread, window).Some?
    ensures var owner := (OwnerId(r, user, thread), thread);
            && owner in ProjectedRoutes(r) && owner in ProjectedRoutes(Elsewhere(r, owner))
            && ProjectedRoutes(r)[owner].backend == "local"
            && ProjectedRoutes(Elsewhere(r, owner))[owner].backend == "remote"
  {
    var owner := (OwnerId(r, user, thread), thread);
    if owner !in r.targets && WindowFor(r, user, thread).Some? {
      assert owner in r.bindings;
    }
  }

  /** So a fence given out at a save vouches for the owner's route over all later saves
      exactly when the asking user is the owner. */
  lemma FenceVouchesForOwner(start: Table, r: Registry, user: int, thread: int, window: string)
    requires DeliveryIdentity(r, Replace(start, ProjectedRoutes(r)), user, thread, window).Some?
    ensures OwnerId(r, user, thread) == user
       <==> forall saves :: FenceHolds(start, saves, user, thread, window) && saves[0] == r ==>
              SameRoute(saves, (OwnerId(r, user, thread), thread))
  {
    hide SameRoute, DeliveryIdentity, ProjectedRoutes, OwnerId, Elsewhere;
    if OwnerId(r, user, thread) == user {
      forall saves | FenceHolds(start, saves, user, thread, window) && saves[0] == r
        ensures SameRoute(saves, (user, thread))
      {
        FenceNamesOneRoute(start, saves, user, thread, window);
      }
    } else {
      SharerFenceMissesChange(start, r, user, thread, window);
      var saves := [r, Elsewhere(r, (OwnerId(r, user, thread), thread)), r];
      assert saves[0] == r;
    }
  }

  /** Such a topic: users 3 and 5 share it, user 3 owns it and is bound to window "A", and
      user 5 still has a row of his own to window "C". */
  lemma SharerWithOwnRow()
    ensures var r := Registry(map[(3, 7) := "A", (5, 7) := "C"], map[], map[], map[(3, 7) := -1, (5, 7) := -1],
                              map[], map[]);
            && OwnerId(r, 5, 7) == 3
            && DeliveryIdentity(r, Replace(map[], ProjectedRoutes(r)), 5, 7, "A").Some?
  {
    var r := Registry(map[(3, 7) := "A", (5, 7) := "C"], map[], map[], map[(3, 7) := -1, (5, 7) := -1],
                      map[], map[]);
    var candidates := Candidates(r, 7, -1);
    assert (3, 7) in r.chats && (5, 7) in r.chats;
    assert candidates == {3, 5};
    LeastIs(candidates, 3);
    assert !Ambiguous(r.bindings, "A");
  }
}
