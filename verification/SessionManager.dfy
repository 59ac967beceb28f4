/** The session manager: the routing registry as an object whose fields its methods
    update, and its writes to the durable store. */
module SessionManager {
  import opened Basics
  import opened RouteTable
  import opened Routing

  class SessionManager {
    var threadBindings: map<Topic, string>
    var threadTargets: map<Topic, Target>
    var windowStates: map<string, WindowState>
    var groupChats: map<Topic, int>
    var offsets: map<CursorKey, int>
    var offsetSessions: map<CursorKey, string>

    ghost function Contents(): Registry
      reads this
    {
      Registry(threadBindings, threadTargets, windowStates, groupChats, offsets, offsetSessions)
    }

    constructor ()
      ensures Contents() == Registry(map[], map[], map[], map[], map[], map[])
    {
      threadBindings, threadTargets, windowStates := map[], map[], map[];
      groupChats, offsets, offsetSessions := map[], map[], map[];
    }

    /** The least of the users who have the topic bound, found in one pass over the
        recorded chats. */
    method ConversationOwnerId(user: int, thread: int) returns (owner: int)
      ensures owner == OwnerId(Contents(), user, thread)
    {
      if (user, thread) !in groupChats {
        return user;
      }
      var chat := groupChats[(user, thread)];
      var found := false;
      owner := user;
      var todo := groupChats.Keys;
      ghost var candidates := Candidates(Contents(), thread, chat);
      while todo != {}
        invariant todo <= groupChats.Keys
        invariant !found ==> owner == user && forall x :: x in candidates ==> (x, thread) in todo
        invariant found ==> owner in candidates && forall x :: x in candidates ==> (x, thread) in todo || owner <= x
        decreases todo
      {
        var topic :| topic in todo;
        todo := todo - {topic};
        if topic.1 == thread && groupChats[topic] == chat && (topic in threadBindings || topic in threadTargets) {
          owner := if found && owner < topic.0 then owner else topic.0;
          found := true;
        }
      }
      if found {
        LeastIs(candidates, owner);
      } else {
        assert forall x :: x in candidates ==> (x, thread) in todo;
        assert candidates == {};
      }
    }

    method BindThread(user: int, thread: int, window: string)
      modifies this
      ensures Contents() == Bind(old(Contents()), user, thread, window)
      ensures window != "" && old(Agree(threadBindings, threadTargets)) ==> Agree(threadBindings, threadTargets)
    {
      var owner := ConversationOwnerId(user, thread);
      if Agree(threadBindings, threadTargets) {
        BindAgrees(Contents(), user, thread, window);
      }
      threadBindings := threadBindings[(owner, thread) := window];
      var session := if window in windowStates then windowStates[window].session else "";
      threadTargets := threadTargets[(owner, thread) := Target("local", "local", session, window)];
    }

    method BindThreadTarget(user: int, thread: int, target: Target)
      modifies this
      ensures Contents() == BindTarget(old(Contents()), user, thread, target)
      ensures old(Agree(threadBindings, threadTargets)) ==> Agree(threadBindings, threadTargets)
    {
      var owner := ConversationOwnerId(user, thread);
      if Agree(threadBindings, threadTargets) {
        BindTargetAgrees(Contents(), user, thread, target);
      }
      threadTargets := threadTargets[(owner, thread) := target];
      if target.backend == "local" && target.window != "" {
        threadBindings := threadBindings[(owner, thread) := target.window];
      } else {
        threadBindings := threadBindings - {(owner, thread)};
      }
    }

    method UnbindThread(user: int, thread: int) returns (window: Option<string>)
      modifies this
      ensures Contents() == Unbind(old(Contents()), user, thread)
      ensures var topic := (OwnerId(old(Contents()), user, thread), thread);
              window == if topic in old(threadBindings) then Some(old(threadBindings)[topic]) else None
      ensures old(Agree(threadBindings, threadTargets)) ==> Agree(threadBindings, threadTargets)
    {
      var owner := ConversationOwnerId(user, thread);
      var topic := (owner, thread);
      if Agree(threadBindings, threadTargets) {
        UnbindAgrees(Contents(), user, thread);
      }
      if topic !in threadBindings {
        if topic in threadTargets {
          assert threadBindings - {topic} == threadBindings;
          threadTargets := threadTargets - {topic};
          ClearGroupChatId(owner, thread);
        }
        return None;
      }
      window := Some(threadBindings[topic]);
      threadBindings := threadBindings - {topic};
      threadTargets := threadTargets - {topic};
      ClearGroupChatId(owner, thread);
    }

    method ClearGroupChatId(user: int, thread: int)
      modifies this`groupChats
      ensures Contents() == ChatsCleared(old(Contents()), user, thread)
    {
      var owner := ConversationOwnerId(user, thread);
      var known := (owner, thread) in groupChats;
      var keys := set t | t in groupChats && t.1 == thread
                          && (t == (owner, thread) || (known && groupChats[t] == groupChats[(owner, thread)]));
      groupChats := groupChats - keys;
    }

    method RemoveWindowState(window: string)
      modifies this
      ensures Contents() == WindowRemoved(old(Contents()), window)
      ensures old(Agree(threadBindings, threadTargets)) ==> Agree(threadBindings, threadTargets)
    {
      if Agree(threadBindings, threadTargets) {
        RemoveWindowAgrees(Contents(), window);
      }
      hide Agree;
      windowStates := windowStates - {window};
      ForgetCursors(window);
      ForgetTopics(window);
    }

    method ForgetCursors(window: string)
      modifies this`offsets, this`offsetSessions
      ensures offsets == map k | k in old(offsets) && k.1 != window :: old(offsets)[k]
      ensures offsetSessions == map k | k in old(offsetSessions) && k.1 != window :: old(offsetSessions)[k]
    {
      var staleOffsets := set k | k in offsets && k.1 == window;
      offsets := offsets - staleOffsets;
      var staleSessions := set k | k in offsetSessions && k.1 == window;
      offsetSessions := offsetSessions - staleSessions;
    }

    method ForgetTopics(window: string)
      modifies this`threadBindings, this`threadTargets
      ensures threadBindings == map t | t in old(threadBindings) && old(threadBindings)[t] != window
                                :: old(threadBindings)[t]
      ensures threadTargets == map t | t in old(threadTargets)
                                       && !(old(threadTargets)[t].backend == "local"
                                            && old(threadTargets)[t].window == window)
                               :: old(threadTargets)[t]
    {
      var staleTopics := set t | t in threadBindings && threadBindings[t] == window;
      threadBindings := threadBindings - staleTopics;
      var staleTargets := set t | t in threadTargets
                                  && threadTargets[t].backend == "local" && threadTargets[t].window == window;
      threadTargets := threadTargets - staleTargets;
    }

    /** `order` lists the recorded windows in the order of the dictionary. */
    method MigrateWindowStates(order: seq<string>, bound: set<string>, live: Live)
      modifies this`windowStates
      ensures windowStates == Migrated(old(windowStates), order, bound, live)
    {
      var states: map<string, WindowState> := map[];
      for k := 0 to |order|
        invariant windowStates == old(windowStates)
        invariant states == Migrated(windowStates, order[..k], bound, live)
      {
        var key := order[k];
        assert order[..k + 1][..k] == order[..k];
        if key in windowStates {
          if IsWindowId(key) {
            if key in live.ids || Recoverable(windowStates, bound, key) {
              states := states[key := windowStates[key]];
            }
          } else if key in live.byName && live.byName[key] != "" {
            states := states[live.byName[key] := windowStates[key]];
          }
        }
      }
      assert order[..|order|] == order;
      windowStates := states;
    }

    method MigrateBindings(bound: set<string>, live: Live)
      modifies this`threadBindings
      ensures threadBindings == map t | t in old(threadBindings)
                                        && Resolved(windowStates, bound, live, old(threadBindings)[t]).Some?
                                :: Resolved(windowStates, bound, live, old(threadBindings)[t]).value
    {
      var kept: map<Topic, string> := map[];
      var todo := threadBindings.Keys;
      while todo != {}
        invariant todo <= threadBindings.Keys && threadBindings == old(threadBindings)
        invariant kept == map t | t in threadBindings && t !in todo
                                    && Resolved(windowStates, bound, live, threadBindings[t]).Some?
                            :: Resolved(windowStates, bound, live, threadBindings[t]).value
        decreases todo
      {
        var topic :| topic in todo;
        todo := todo - {topic};
        var id := Resolved(windowStates, bound, live, threadBindings[topic]);
        if id.Some? {
          kept := kept[topic := id.value];
        }
      }
      threadBindings := kept;
    }

    method MigrateTargets(bound: set<string>, live: Live)
      modifies this`threadTargets
      ensures threadTargets == map t | t in old(threadTargets)
                                       && ResolvedTarget(windowStates, bound, live, old(threadTargets)[t]).Some?
                               :: ResolvedTarget(windowStates, bound, live, old(threadTargets)[t]).value
    {
      var kept: map<Topic, Target> := map[];
      var todo := threadTargets.Keys;
      while todo != {}
        invariant todo <= threadTargets.Keys && threadTargets == old(threadTargets)
        invariant kept == map t | t in threadTargets && t !in todo
                                    && ResolvedTarget(windowStates, bound, live, threadTargets[t]).Some?
                            :: ResolvedTarget(windowStates, bound, live, threadTargets[t]).value
        decreases todo
      {
        var topic :| topic in todo;
        todo := todo - {topic};
        var target := ResolvedTarget(windowStates, bound, live, threadTargets[topic]);
        if target.Some? {
          kept := kept[topic := target.value];
        }
      }
      threadTargets := kept;
    }

    /** Both loops run over the dictionaries in their order. */
    method MigrateCursors(orders: Orders, live: Live)
      modifies this`offsets, this`offsetSessions
      ensures offsets == MigratedCursors(old(offsets), orders.cursors, windowStates, live)
      ensures offsetSessions == MigratedSessions(old(offsetSessions), orders.sessions, old(offsets), offsets,
                                                 windowStates, live)
    {
      hide CursorWindow;
      var cursors: map<CursorKey, int> := map[];
      for k := 0 to |orders.cursors|
        invariant offsets == old(offsets) && offsetSessions == old(offsetSessions)
        invariant cursors == MigratedCursors(offsets, orders.cursors[..k], windowStates, live)
      {
        var key := orders.cursors[k];
        assert orders.cursors[..k + 1][..k] == orders.cursors[..k];
        var window := CursorWindow(windowStates, live, key.1);
        if window.Some? && key in offsets {
          cursors := cursors[(key.0, window.value) := offsets[key]];
        }
      }
      assert orders.cursors[..|orders.cursors|] == orders.cursors;
      var sessions: map<CursorKey, string> := map[];
      for k := 0 to |orders.sessions|
        invariant offsets == old(offsets) && offsetSessions == old(offsetSessions)
        invariant sessions == MigratedSessions(offsetSessions, orders.sessions[..k], offsets, cursors,
                                               windowStates, live)
      {
        var key := orders.sessions[k];
        assert orders.sessions[..k + 1][..k] == orders.sessions[..k];
        var moved := SessionKey(offsets, cursors, windowStates, live, key);
        if moved.Some? && key in offsetSessions {
          sessions := sessions[moved.value := offsetSessions[key]];
        }
      }
      assert orders.sessions[..|orders.sessions|] == orders.sessions;
      offsets, offsetSessions := cursors, sessions;
    }

    /** Cursors from before sessions were recorded take that of their window. */
    method BackfillSessions()
      modifies this`offsetSessions
      ensures offsetSessions == Backfilled(old(offsetSessions), offsets.Keys, windowStates)
    {
      NothingBackfilled(offsetSessions, windowStates);
      hide Backfilled;
      var todo := offsets.Keys;
      assert offsets.Keys - todo == {};
      while todo != {}
        invariant todo <= offsets.Keys
        invariant offsetSessions == Backfilled(old(offsetSessions), offsets.Keys - todo, windowStates)
        decreases |todo|
      {
        var key :| key in todo;
        BackfilledNext(old(offsetSessions), offsets.Keys - todo, key, windowStates);
        assert offsets.Keys - (todo - {key}) == offsets.Keys - todo + {key};
        todo := todo - {key};
        if key !in offsetSessions && key.1 in windowStates && windowStates[key.1].session != "" {
          offsetSessions := offsetSessions[key := windowStates[key.1].session];
        }
      }
      assert offsets.Keys - todo == offsets.Keys;
    }

    /** Chats are kept for topics that still have a binding or a target. */
    method PruneChats()
      modifies this`groupChats
      ensures groupChats == map t | t in old(groupChats) && (t in threadBindings || t in threadTargets)
                              :: old(groupChats)[t]
    {
      var stale := set t | t in groupChats && t !in threadBindings && t !in threadTargets;
      groupChats := groupChats - stale;
    }

    /** Startup: windows are looked up among the live ones, states first, so that bindings,
        targets and cursors are judged by the states that were kept. */
    method ResolveStaleIds(orders: Orders, live: Live)
      modifies this
      ensures Contents() == StaleResolved(old(Contents()), orders, live)
      ensures "" !in live.byName && old(Agree(threadBindings, threadTargets)) ==> Agree(threadBindings, threadTargets)
    {
      if "" !in live.byName && Agree(threadBindings, threadTargets) {
        ResolveStaleAgrees(Contents(), orders, live);
      }
      hide Agree, Migrated, MigratedCursors, MigratedSessions, Backfilled, Resolved, ResolvedTarget;
      var bound := (set t | t in threadBindings && IsWindowId(threadBindings[t]) :: threadBindings[t])
                   + (set t | t in threadTargets && threadTargets[t].backend == "local"
                              && IsWindowId(threadTargets[t].window) :: threadTargets[t].window);
      MigrateWindowStates(orders.windows, bound, live);
      MigrateBindings(bound, live);
      MigrateTargets(bound, live);
      PruneChats();
      MigrateCursors(orders, live);
      BackfillSessions();
    }

    /** The routes and cursors of a snapshot replace those in memory. */
    method RestoreDurableRegistry(routes: seq<Route>, cursors: map<CursorKey, Cursor>)
      modifies this
      ensures Contents() == Restored(old(Contents()), routes, cursors)
    {
      threadBindings, threadTargets := map[], map[];
      for k := 0 to |routes|
        invariant Contents() == RestoredRoutes(old(Contents()), routes[..k])
      {
        var route := routes[k];
        assert routes[..k + 1][..k] == routes[..k];
        var target := AsTarget(route.data);
        threadTargets := threadTargets[route.topic := target];
        if target.backend == "local" && target.window != "" {
          threadBindings := threadBindings[route.topic := target.window];
          if target.window in windowStates {
            windowStates := windowStates[target.window := windowStates[target.window].(session := target.session)];
          }
        }
      }
      assert routes[..|routes|] == routes;
      offsets := map k | k in cursors :: cursors[k].offset;
      offsetSessions := map k | k in cursors && cursors[k].session != "" :: cursors[k].session;
    }

    /** The bound topics first, then the targets without a binding. */
    method ConversationRegistryRoutes() returns (routes: seq<Route>)
      ensures Distinct(routes) && RouteMap(routes) == ProjectedRoutes(Contents())
    {
      hide Listed, RouteMap;
      routes := [];
      ghost var all := ProjectedRoutes(Contents());
      ghost var left := all.Keys;
      NothingListed(all);
      var todo := threadBindings.Keys;
      while todo != {}
        invariant todo <= threadBindings.Keys && left == todo + (threadTargets.Keys - threadBindings.Keys)
        invariant Listed(routes, all, left)
        decreases todo
      {
        var topic :| topic in todo;
        var window := threadBindings[topic];
        var target := if topic in threadTargets then threadTargets[topic]
                      else Target("local", "local", SessionOf(windowStates, window), window);
        ListedNext(routes, all, left, topic);
        routes := routes + [Route(topic, Projected(windowStates, target))];
        todo, left := todo - {topic}, left - {topic};
      }
      todo := threadTargets.Keys - threadBindings.Keys;
      while todo != {}
        invariant todo <= threadTargets.Keys - threadBindings.Keys && left == todo
        invariant Listed(routes, all, left)
        decreases todo
      {
        var topic :| topic in todo;
        ListedNext(routes, all, left, topic);
        routes := routes + [Route(topic, Projected(windowStates, threadTargets[topic]))];
        todo, left := todo - {topic}, left - {topic};
      }
      AllListed(routes, all);
    }

    method ConversationDeliveryOffsets() returns (list: seq<Offset>)
      ensures DistinctOffsets(list) && OffsetMap(list) == ProjectedOffsets(Contents())
    {
      list := [];
      ghost var all := ProjectedOffsets(Contents());
      NoOffsetsListed(all);
      var todo := offsets.Keys;
      while todo != {}
        invariant todo <= offsets.Keys && OffsetsListed(list, all, todo)
        decreases todo
      {
        var key :| key in todo;
        var session := if key in offsetSessions then offsetSessions[key] else "";
        if session == "" && key.1 in windowStates {
          session := windowStates[key.1].session;
        }
        OffsetsListedNext(list, all, todo, key);
        list := list + [Offset(key, Cursor(offsets[key], session))];
        todo := todo - {key};
      }
      AllOffsetsListed(list, all);
    }

    /** Every save writes the projected registry to the store, which accepts it. */
    method SyncDurableRegistry(store: ConversationStore)
      modifies store
      ensures store.routes == Replace(old(store.routes), ProjectedRoutes(Contents()))
      ensures store.offsets == ProjectedOffsets(Contents())
    {
      var routes := ConversationRegistryRoutes();
      var list := ConversationDeliveryOffsets();
      var accepted, generations := store.ReplaceConversationRegistry(routes, list);
    }

    /** Startup: the store is authoritative; its routes, listed in `routes`, are
        restored and saved again. */
    method ActivateDurableRegistry(store: ConversationStore, routes: seq<Route>)
      requires Distinct(routes) && RouteMap(routes) == AllRoutes(store.routes)
      modifies this, store
      ensures (store.routes, store.offsets)
                == SavedAgain(old(store.routes), old(Contents()), routes, old(store.offsets))
      ensures SessionsAgree(old(windowStates), routes)
              && CursorsAgree(old(windowStates), routes, old(store.offsets)) ==>
                store.routes == old(store.routes) && store.offsets == old(store.offsets)
    {
      RegistryRoundTrip(store.routes, Contents(), routes, store.offsets);
      RestoreDurableRegistry(routes, store.offsets);
      SyncDurableRegistry(store);
    }
  }

  // --- Lists of table rows ---

  /** `routes` lists exactly the rows of `all` that are not `left`, each once. */
  ghost predicate Listed(routes: seq<Route>, all: map<Topic, RouteData>, left: set<Topic>) {
    && Distinct(routes)
    && (forall k :: 0 <= k < |routes| ==> routes[k].topic !in left)
    && RouteMap(routes) == map t | t in all && t !in left :: all[t]
  }

  lemma NothingListed(all: map<Topic, RouteData>)
    ensures Listed([], all, all.Keys)
  {
  }

  lemma ListedNext(routes: seq<Route>, all: map<Topic, RouteData>, left: set<Topic>, topic: Topic)
    requires Listed(routes, all, left) && topic in left && topic in all
    ensures Listed(routes + [Route(topic, all[topic])], all, left - {topic})
  {
    var more := routes + [Route(topic, all[topic])];
    assert more[..|more| - 1] == routes;
  }

  lemma AllListed(routes: seq<Route>, all: map<Topic, RouteData>)
    requires Listed(routes, all, {})
    ensures Distinct(routes) && RouteMap(routes) == all
  {
  }

  ghost predicate OffsetsListed(list: seq<Offset>, all: map<CursorKey, Cursor>, left: set<CursorKey>) {
    && DistinctOffsets(list)
    && (forall k :: 0 <= k < |list| ==> list[k].key !in left)
    && OffsetMap(list) == map c | c in all && c !in left :: all[c]
  }

  lemma NoOffsetsListed(all: map<CursorKey, Cursor>)
    ensures OffsetsListed([], all, all.Keys)
  {
  }

  lemma OffsetsListedNext(list: seq<Offset>, all: map<CursorKey, Cursor>, left: set<CursorKey>, key: CursorKey)
    requires OffsetsListed(list, all, left) && key in left && key in all
    ensures OffsetsListed(list + [Offset(key, all[key])], all, left - {key})
  {
    var more := list + [Offset(key, all[key])];
    assert more[..|more| - 1] == list;
  }

  lemma AllOffsetsListed(list: seq<Offset>, all: map<CursorKey, Cursor>)
    requires OffsetsListed(list, all, {})
    ensures DistinctOffsets(list) && OffsetMap(list) == all
  {
  }
}
