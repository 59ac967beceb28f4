/** How prompts leave the spool: an accepted prompt is dropped only by what happens to its
    own row, its own target or its own topic. */
module PromptRows {
  import opened Basics
  import opened PromptTable
  import opened PromptLifecycle
  import opened PromptAtMostOnce

  // --- The rows an event takes out ---

  ghost predicate Listed(q: seq<Item>, n: nat, id: nat) {
    exists i :: 0 <= i < |q| && i < n && q[i].id == id
  }

  /** What takes a row out of the spool. */
  datatype Reason =
    | Confirmed    // the transcript shows the prompt
    | Expired      // too old at the head of its queue
    | TargetGone   // its drainer gave the target up
    | Refused      // the agent was not there, or refused the text
    | Unclaimed    // a native row that its own sender could not win
    | ThrownAway   // the user threw the topic's queue away

  /** Why the event takes row `id` out, if it does. */
  ghost function Fate(s: Sys, e: Event, id: nat): Option<Reason>
    requires Enabled(s, e) && id in s.table.rows
  {
    var row := s.table.rows[id];
    match e
    case ConfirmDone(i, confirmed, ok) =>
      if i == id && confirmed && ok && row.state.Submitted? then Some(Confirmed) else None
    case DrainAfter(pid, confirmed, ok) =>
      if s.procs[pid].item.id == id && confirmed && ok && row.state.Submitted? then Some(Confirmed) else None
    case DrainTop(pid, expired, ok) =>
      if ok && Listed(Queue(s, s.procs[pid].key), expired, id) then Some(Expired) else None
    case DrainClear(pid, ok) => if ok && row.key == s.procs[pid].key then Some(TargetGone) else None
    case LookImmediate(pid, sight, ok) =>
      var p := s.procs[pid];
      if ok && sight.Fail? && p.item.id == id && Deque(s, p.queue) != [] && Deque(s, p.queue)[0] == p.item
      then Some(Refused) else None
    case Settle(pid, outcome, ok) =>
      if ok && outcome.Failure? && Refuses(s, s.procs[pid], id) then Some(Refused) else None
    case Cas(pid, raises, applied, ok) =>
      if ok && s.procs[pid].kind == Native && s.procs[pid].item.id == id && (raises || !row.state.Queued?)
      then Some(Unclaimed) else None
    case DiscardDrop(pid, key, ok) =>
      if ok && Listed(Queue(s, key), |Queue(s, key)|, id) then Some(ThrownAway) else None
    case DiscardFinish(pid, ok) => if ok && row.key.route == s.procs[pid].key.route then Some(ThrownAway) else None
    case _ => None
  }

  /** A failed send takes out the sender's own row, unless its deque was emptied meanwhile;
      a drainer goes by the head of its deque. */
  ghost predicate Refuses(s: Sys, p: Proc, id: nat) {
    match p.kind
    case Native => p.item.id == id
    case Drain => Deque(s, p.queue) != [] && Deque(s, p.queue)[0].id == id
    case _ => Deque(s, p.queue) != [] && p.item.id == id
  }

  /** The event accepts this prompt. */
  ghost predicate Accepts(s: Sys, e: Event, key: Key, text: string)
    requires Enabled(s, e)
  {
    match e
    case Interrupt(k, x, room) => room && key == k && text == x
    case EnterImmediate(pid, room, busy) => room && key == s.procs[pid].key && text == s.procs[pid].text
    case EnterNative(pid, room, busy) => room && !busy && key == s.procs[pid].key && text == s.procs[pid].text
    case _ => false
  }

  /** A row that stays keeps topic and text; only a restart moves it to another window, and
      only its own compare-and-set takes it from queued to submitted. */
  ghost predicate Stays(s: Sys, e: Event, before: Row, after: Row, id: nat)
    requires Enabled(s, e)
  {
    && after.text == before.text && after.key.route == before.key.route
    && (!e.Restart? ==> after.key == before.key)
    && (after.state == before.state
        || (&& before.state.Queued? && after.state.Submitted?
            && e.Cas? && s.procs[e.pid].item.id == id && (e.raises ==> e.applied)))
  }

  /** The rows of the next state are exactly those not taken out, and one if the event
      accepts one. */
  ghost predicate RowsFollow(s: Sys, e: Event, t: Table)
    requires Enabled(s, e)
  {
    && (forall id :: id in s.table.rows ==> (id in t.rows <==> Fate(s, e, id).None?))
    && (forall id :: id in s.table.rows && id in t.rows ==> Stays(s, e, s.table.rows[id], t.rows[id], id))
    && (forall id :: id in t.rows && id !in s.table.rows ==>
          id == s.table.nextId && t.rows[id].state.Queued? && Accepts(s, e, t.rows[id].key, t.rows[id].text))
    && (forall key, text :: Accepts(s, e, key, text) ==>
          s.table.nextId in t.rows && t.rows[s.table.nextId] == Row(key, text, Queued))
  }

  /** Only rows with a fate are gone, and nothing else happened to the table. */
  ghost predicate OnlyLoses(s: Sys, e: Event, t: Table)
    requires Enabled(s, e)
  {
    && (forall id :: id in s.table.rows ==> (id in t.rows <==> Fate(s, e, id).None?))
    && (forall id :: id in t.rows ==> id in s.table.rows && t.rows[id] == s.table.rows[id])
  }

  lemma SameStays(s: Sys, e: Event, row: Row, id: nat)
    requires Enabled(s, e)
    ensures Stays(s, e, row, row, id)
  {
  }

  lemma Loss(s: Sys, e: Event, t: Table)
    requires Enabled(s, e) && OnlyLoses(s, e, t)
    requires forall key, text :: !Accepts(s, e, key, text)
    ensures RowsFollow(s, e, t)
  {
    hide Fate, Enabled, Stays, Accepts;
    forall id | id in s.table.rows && id in t.rows ensures Stays(s, e, s.table.rows[id], t.rows[id], id) {
      SameStays(s, e, s.table.rows[id], id);
    }
  }

  // --- The table of each event ---

  lemma EndKeepsTable(s: Sys, pid: nat, key: Key)
    ensures Ended(s, pid, key.route).table == s.table && Exited(s, pid, key).table == s.table
  {
    hide Queue, Released, Unregistered;
  }

  lemma SettledNative(s: Sys, pid: nat, outcome: Outcome, ok: bool)
    requires pid in s.procs && s.procs[pid].kind == Native
    ensures Settled(s, pid, outcome, ok).table
              == if ok && outcome.Failure? then Delete(s.table, {s.procs[pid].item.id}) else s.table
  {
    hide Queue, Deque, Released, Unregistered;
  }

  lemma SettledDrain(s: Sys, pid: nat, outcome: Outcome, ok: bool)
    requires pid in s.procs && s.procs[pid].kind == Drain
    ensures var q := Deque(s, s.procs[pid].queue);
            Settled(s, pid, outcome, ok).table
              == if ok && outcome.Failure? && q != [] then Delete(s.table, {q[0].id}) else s.table
  {
    var p := s.procs[pid];
    var popped := PoppedIfHead(s, p.queue, p.item);
    assert popped.table == s.table;
    EndKeepsTable(s, pid, p.key);
    EndKeepsTable(Confirming(popped, p.item.id), pid, p.key);
    hide Exited, Ended, PoppedIfHead, Deque;
  }

  lemma SettledHandler(s: Sys, pid: nat, outcome: Outcome, ok: bool)
    requires pid in s.procs && s.procs[pid].kind != Drain && s.procs[pid].kind != Native
    ensures var p := s.procs[pid];
            Settled(s, pid, outcome, ok).table
              == if ok && outcome.Failure? && Deque(s, p.queue) != [] then Delete(s.table, {p.item.id}) else s.table
  {
    var p := s.procs[pid];
    var popped := if outcome.Raised? then PoppedIfHead(s, p.queue, p.item)
                  else Popped(if outcome.Failure? then Deleted(s, {p.item.id}, ok) else s, p.queue);
    PoppedTable(s, p.queue, p.item);
    PoppedTable(Deleted(s, {p.item.id}, ok), p.queue, p.item);
    UnmappedTable(popped, p.key, p.queue);
    hide PoppedIfHead, Popped, UnmappedIfEmpty, Deque, Ended;
    EndKeepsTable(s, pid, p.key);
    EndKeepsTable(UnmappedIfEmpty(popped, p.key, p.queue), pid, p.key);
    EndKeepsTable(Confirming(UnmappedIfEmpty(popped, p.key, p.queue), p.item.id), pid, p.key);
  }

  lemma PoppedTable(s: Sys, ref: Ref, item: Item)
    ensures Popped(s, ref).table == s.table && PoppedIfHead(s, ref, item).table == s.table
  {
    hide Deque;
  }

  lemma UnmappedTable(s: Sys, key: Key, ref: Ref)
    ensures UnmappedIfEmpty(s, key, ref).table == s.table
  {
    hide Deque;
  }

  lemma RowsSettle(s: Sys, pid: nat, outcome: Outcome, ok: bool)
    requires Enabled(s, Settle(pid, outcome, ok))
    ensures RowsFollow(s, Settle(pid, outcome, ok), Settled(s, pid, outcome, ok).table)
  {
    match s.procs[pid].kind {
      case Native => SettledNative(s, pid, outcome, ok);
      case Drain => SettledDrain(s, pid, outcome, ok);
      case _ => SettledHandler(s, pid, outcome, ok);
    }
    hide Settled, Deque;
    Loss(s, Settle(pid, outcome, ok), Settled(s, pid, outcome, ok).table);
  }

  lemma ListedIds(q: seq<Item>, n: nat)
    requires n <= |q|
    ensures forall id :: id in (set x | x in q[..n] :: x.id) <==> Listed(q, n, id)
  {
    forall id ensures id in (set x | x in q[..n] :: x.id) <==> Listed(q, n, id) {
      if id in (set x | x in q[..n] :: x.id) {
        var x :| x in q[..n] && x.id == id;
        var i :| 0 <= i < n && q[..n][i] == x;
        assert q[i].id == id;
      }
      if Listed(q, n, id) {
        var i :| 0 <= i < |q| && i < n && q[i].id == id;
        assert q[..n][i] in q[..n];
      }
    }
  }

  lemma RowsTop(s: Sys, pid: nat, expired: nat, ok: bool)
    requires Enabled(s, DrainTop(pid, expired, ok))
    ensures RowsFollow(s, DrainTop(pid, expired, ok), LoopTop(s, pid, expired, ok).table)
  {
    var q := Queue(s, s.procs[pid].key);
    ListedIds(q, expired);
    LoopTopTable(s, pid, expired, ok);
    hide LoopTop, Queue;
    Loss(s, DrainTop(pid, expired, ok), LoopTop(s, pid, expired, ok).table);
  }

  lemma LoopTopTable(s: Sys, pid: nat, expired: nat, ok: bool)
    requires pid in s.procs && expired <= |Queue(s, s.procs[pid].key)|
    ensures LoopTop(s, pid, expired, ok).table
              == if ok then Delete(s.table, set x | x in Queue(s, s.procs[pid].key)[..expired] :: x.id) else s.table
  {
    var q := Queue(s, s.procs[pid].key);
    hide Released, Unregistered;
    if q == [] {
      assert (set x | x in q[..expired] :: x.id) == {};
      assert Delete(s.table, {}) == s.table;
    }
  }

  lemma RowsDrop(s: Sys, pid: nat, key: Key, ok: bool)
    requires Enabled(s, DiscardDrop(pid, key, ok))
    ensures RowsFollow(s, DiscardDrop(pid, key, ok), Dropped(s, key, ok).table)
  {
    var q := Queue(s, key);
    ListedIds(q, |q|);
    assert q[..|q|] == q;
    hide Queue;
    Loss(s, DiscardDrop(pid, key, ok), Dropped(s, key, ok).table);
  }

  lemma LookedTable(s: Sys, pid: nat, sight: Sight, ok: bool)
    requires pid in s.procs
    ensures var p := s.procs[pid];
            LookedImmediate(s, pid, sight, ok).table
              == if ok && sight.Fail? && Deque(s, p.queue) != [] && Deque(s, p.queue)[0] == p.item
                 then Delete(s.table, {p.item.id}) else s.table
  {
    hide Released;
  }

  lemma RowsLook(s: Sys, pid: nat, sight: Sight, ok: bool)
    requires Enabled(s, LookImmediate(pid, sight, ok))
    ensures RowsFollow(s, LookImmediate(pid, sight, ok), LookedImmediate(s, pid, sight, ok).table)
  {
    LookedTable(s, pid, sight, ok);
    hide Deque, LookedImmediate;
    Loss(s, LookImmediate(pid, sight, ok), LookedImmediate(s, pid, sight, ok).table);
  }

  lemma WonTable(s: Sys, pid: nat, applied: bool, ok: bool)
    requires pid in s.procs && IsQueued(s.table, s.procs[pid].item.id)
    ensures Compared(s, pid, false, applied, ok).table == Submit(s.table, s.procs[pid].item.id)
  {
    hide Submit, IsQueued, Ended, Deleted;
  }

  lemma LostTable(s: Sys, pid: nat, raises: bool, applied: bool, ok: bool)
    requires pid in s.procs && (raises || !IsQueued(s.table, s.procs[pid].item.id))
    ensures var p := s.procs[pid];
            var t := if raises && applied then Submit(s.table, p.item.id) else s.table;
            Compared(s, pid, raises, applied, ok).table
              == if p.kind == Native && ok then Delete(t, {p.item.id}) else t
  {
    var p := s.procs[pid];
    var t := if raises && applied then s.(table := Submit(s.table, p.item.id)) else s;
    LostTables(t, pid, p, ok);
    hide Ended, Submit, Delete, Deleted, IsQueued, WithProc;
    match p.kind {
      case Drain => assert Compared(s, pid, raises, applied, ok) == WithProc(t, pid, p.(phase := Top));
      case Native =>
        assert Compared(s, pid, raises, applied, ok) == Ended(Deleted(t, {p.item.id}, ok), pid, p.key.route);
      case _ => assert Compared(s, pid, raises, applied, ok) == Ended(t, pid, p.key.route);
    }
    hide Compared;
  }

  lemma LostTables(s: Sys, pid: nat, p: Proc, ok: bool)
    ensures WithProc(s, pid, p.(phase := Top)).table == WithProc(s, pid, p.(phase := Won)).table == s.table
    ensures Ended(s, pid, p.key.route).table == s.table
    ensures Ended(Deleted(s, {p.item.id}, ok), pid, p.key.route).table
              == if ok then Delete(s.table, {p.item.id}) else s.table
  {
    EndKeepsTable(s, pid, p.key);
    EndKeepsTable(Deleted(s, {p.item.id}, ok), pid, p.key);
    hide Ended, Delete;
  }

  lemma RowsCas(s: Sys, pid: nat, raises: bool, applied: bool, ok: bool)
    requires Enabled(s, Cas(pid, raises, applied, ok))
    ensures RowsFollow(s, Cas(pid, raises, applied, ok), Compared(s, pid, raises, applied, ok).table)
  {
    var p := s.procs[pid];
    if !raises && IsQueued(s.table, p.item.id) {
      WonTable(s, pid, applied, ok);
    } else {
      LostTable(s, pid, raises, applied, ok);
    }
    hide Compared;
    var t := Compared(s, pid, raises, applied, ok).table;
    assert forall id :: id in t.rows ==> id in s.table.rows;
    assert forall id :: id in s.table.rows && id in t.rows && id != p.item.id ==> t.rows[id] == s.table.rows[id];
  }

  lemma Gain(s: Sys, e: Event, key: Key, text: string)
    requires Enabled(s, e) && (e.Interrupt? || e.EnterImmediate? || e.EnterNative?) && WellFormed(s.table)
    requires forall k, x :: Accepts(s, e, k, x) <==> k == key && x == text
    ensures RowsFollow(s, e, Insert(s.table, key, text))
  {
    hide Enabled, Stays, Accepts;
    var t := Insert(s.table, key, text);
    assert forall id :: id in s.table.rows ==> id in t.rows && t.rows[id] == s.table.rows[id];
    forall id | id in s.table.rows ensures Stays(s, e, s.table.rows[id], t.rows[id], id) {
      SameStays(s, e, s.table.rows[id], id);
    }
  }

  lemma RowsInsert(s: Sys, e: Event)
    requires Enabled(s, e) && (e.Interrupt? || e.EnterImmediate? || e.EnterNative?) && WellFormed(s.table)
    ensures RowsFollow(s, e, Step(s, e).table)
  {
    InsertedTable(s, e);
    hide Step, Enabled, RowsFollow;
    var (room, key, text) := match e
      case Interrupt(key, text, room) => (room, key, text)
      case EnterImmediate(pid, room, busy) => (room, s.procs[pid].key, s.procs[pid].text)
      case EnterNative(pid, room, busy) => (room && !busy, s.procs[pid].key, s.procs[pid].text);
    if room {
      Gain(s, e, key, text);
    } else {
      Loss(s, e, s.table);
    }
  }

  lemma InsertedTable(s: Sys, e: Event)
    requires Enabled(s, e) && (e.Interrupt? || e.EnterImmediate? || e.EnterNative?)
    ensures match e
            case Interrupt(key, text, room) =>
              Step(s, e).table == if room then Insert(s.table, key, text) else s.table
            case EnterImmediate(pid, room, busy) =>
              Step(s, e).table == if room then Insert(s.table, s.procs[pid].key, s.procs[pid].text) else s.table
            case EnterNative(pid, room, busy) =>
              Step(s, e).table == if room && !busy then Insert(s.table, s.procs[pid].key, s.procs[pid].text)
                                  else s.table
            case _ => true
  {
    hide Released, Queue, Deque, Insert, RouteHasQueue, RouteHasDrain, HasRoom;
  }

  lemma RowsRestart(s: Sys, failed: set<nat>)
    ensures RowsFollow(s, Restart(failed), Restarted(s, failed).table)
  {
  }

  lemma RowsAfter(s: Sys, pid: nat, confirmed: bool, ok: bool)
    requires Enabled(s, DrainAfter(pid, confirmed, ok))
    ensures RowsFollow(s, DrainAfter(pid, confirmed, ok), Resumed(s, pid, confirmed, ok).table)
  {
    EndKeepsTable(Confirming(s, s.procs[pid].item.id), pid, s.procs[pid].key);
    hide Exited;
    Loss(s, DrainAfter(pid, confirmed, ok), Resumed(s, pid, confirmed, ok).table);
  }

  lemma RowsClear(s: Sys, pid: nat, ok: bool)
    requires Enabled(s, DrainClear(pid, ok))
    ensures RowsFollow(s, DrainClear(pid, ok), Cleared(s, pid, ok).table)
  {
    ClearedTable(s, pid, ok);
    hide Cleared;
    Loss(s, DrainClear(pid, ok), Cleared(s, pid, ok).table);
  }

  lemma RowsConfirm(s: Sys, id: nat, confirmed: bool, ok: bool)
    requires Enabled(s, ConfirmDone(id, confirmed, ok))
    ensures RowsFollow(s, ConfirmDone(id, confirmed, ok), ConfirmFinished(s, id, confirmed && ok).table)
  {
    Loss(s, ConfirmDone(id, confirmed, ok), ConfirmFinished(s, id, confirmed && ok).table);
  }

  lemma RowsDiscard(s: Sys, pid: nat, ok: bool)
    requires Enabled(s, DiscardFinish(pid, ok))
    ensures RowsFollow(s, DiscardFinish(pid, ok), Discarded(s, pid, ok).table)
  {
    hide Released;
    Loss(s, DiscardFinish(pid, ok), Discarded(s, pid, ok).table);
  }

  lemma ClearedTable(s: Sys, pid: nat, ok: bool)
    requires pid in s.procs
    ensures Cleared(s, pid, ok).table == if ok then DeleteTarget(s.table, s.procs[pid].key) else s.table
  {
    hide Queue, Released, Unregistered, DeleteTarget;
  }

  ghost predicate KeepsTable(e: Event) {
    || e.Arrive? || e.EnterDiscard? || e.Defer? || e.Hand? || e.DrainLook? || e.DrainRetry? || e.DrainPass?
    || e.DrainDie? || e.Wake? || e.DiscardCancel? || e.DiscardConfirm? || e.Abort? || e.Rebind?
  }

  lemma SameTable(s: Sys, e: Event)
    requires Enabled(s, e) && KeepsTable(e)
    ensures Step(s, e).table == s.table
  {
    if e.Defer? || e.Abort? || e.DrainDie? {
      EndedTable(s, e);
    } else if e.DrainLook? {
      LookedDrainTable(s, e.pid, e.sight);
    } else {
      SameProcsTable(s, e);
    }
    hide Step, Enabled, LookedDrain;
  }

  lemma EndedTable(s: Sys, e: Event)
    requires Enabled(s, e) && (e.Defer? || e.Abort? || e.DrainDie?)
    ensures Step(s, e).table == s.table
  {
    EndKeepsTable(s, e.pid, s.procs[e.pid].key);
    hide Ended, Exited;
  }

  lemma LookedDrainTable(s: Sys, pid: nat, sight: Sight)
    requires Enabled(s, DrainLook(pid, sight))
    ensures Step(s, DrainLook(pid, sight)).table == s.table
  {
    EndKeepsTable(s, pid, s.procs[pid].key);
    hide Exited, Deque;
  }

  lemma SameProcsTable(s: Sys, e: Event)
    requires Enabled(s, e)
    requires || e.Arrive? || e.EnterDiscard? || e.Hand? || e.DrainRetry? || e.DrainPass? || e.Wake? || e.DiscardCancel?
             || e.DiscardConfirm? || e.Rebind?
    ensures Step(s, e).table == s.table
  {
    hide RouteHasDrain, LockFree, Queue;
  }

  lemma RowsSame(s: Sys, e: Event)
    requires Enabled(s, e) && KeepsTable(e)
    ensures RowsFollow(s, e, Step(s, e).table)
  {
    SameTable(s, e);
    hide Step, Enabled;
    Loss(s, e, s.table);
  }

  /** Which rows every event takes out, and why, moves on, or adds. */
  lemma StepRows(s: Sys, e: Event)
    requires Enabled(s, e) && WellFormed(s.table)
    ensures RowsFollow(s, e, Step(s, e).table)
  {
    hide RowsFollow, Enabled, LookedImmediate, Compared, Settled, LoopTop, Dropped, Restarted, Resumed, Cleared,
      ConfirmFinished, Discarded;
    match e
    case Settle(pid, outcome, ok) => RowsSettle(s, pid, outcome, ok);
    case DrainTop(pid, expired, ok) => RowsTop(s, pid, expired, ok);
    case DiscardDrop(pid, key, ok) => RowsDrop(s, pid, key, ok);
    case LookImmediate(pid, sight, ok) => RowsLook(s, pid, sight, ok);
    case Cas(pid, raises, applied, ok) => RowsCas(s, pid, raises, applied, ok);
    case Restart(failed) => RowsRestart(s, failed);
    case DrainAfter(pid, confirmed, ok) => RowsAfter(s, pid, confirmed, ok);
    case DrainClear(pid, ok) => RowsClear(s, pid, ok);
    case ConfirmDone(id, confirmed, ok) => RowsConfirm(s, id, confirmed, ok);
    case DiscardFinish(pid, ok) => RowsDiscard(s, pid, ok);
    case _ =>
      if KeepsTable(e) {
        RowsSame(s, e);
      } else {
        RowsInsert(s, e);
      }
  }

  // --- Whole runs ---

  /** The topic whose task or user the event belongs to; a confirmation is of its own row. */
  ghost function RouteOf(s: Sys, e: Event): Option<Route> {
    match e
    case DrainAfter(pid, _, _) => if pid in s.procs then Some(s.procs[pid].key.route) else None
    case DrainTop(pid, _, _) => if pid in s.procs then Some(s.procs[pid].key.route) else None
    case DrainClear(pid, _) => if pid in s.procs then Some(s.procs[pid].key.route) else None
    case LookImmediate(pid, _, _) => if pid in s.procs then Some(s.procs[pid].key.route) else None
    case Settle(pid, _, _) => if pid in s.procs then Some(s.procs[pid].key.route) else None
    case Cas(pid, _, _, _) => if pid in s.procs then Some(s.procs[pid].key.route) else None
    case DiscardDrop(pid, _, _) => if pid in s.procs then Some(s.procs[pid].key.route) else None
    case DiscardFinish(pid, _) => if pid in s.procs then Some(s.procs[pid].key.route) else None
    case ConfirmDone(id, _, _) => if id in s.table.rows then Some(s.table.rows[id].key.route) else None
    case _ => None
  }

  lemma ListedIsOwn(s: Sys, key: Key, n: nat, id: nat)
    requires Safe(s) && Listed(Queue(s, key), n, id) && id in s.table.rows
    ensures s.table.rows[id].key.route == key.route
  {
    hide WonOk, SentOk, ProcsOk;
    var i :| 0 <= i < |Queue(s, key)| && i < n && Queue(s, key)[i].id == id;
    assert Queue(s, key)[i] in Queue(s, key);
  }

  lemma HeldIsOwn(s: Sys, pid: nat, id: nat)
    requires Safe(s) && pid in s.procs && id in s.table.rows
    requires (Holding(s.procs[pid]) && s.procs[pid].item.id == id)
             || (Deque(s, s.procs[pid].queue) != [] && Deque(s, s.procs[pid].queue)[0].id == id)
    ensures s.table.rows[id].key.route == s.procs[pid].key.route
  {
    hide WonOk, SentOk;
    var p := s.procs[pid];
    assert p.queue.key == p.key;
    if Deque(s, p.queue) != [] && Deque(s, p.queue)[0].id == id {
      assert Deque(s, p.queue)[0] in s.deques[p.queue];
    }
  }

  /** No task of one topic takes out a row of another. */
  lemma OwnTopicOnly(s: Sys, e: Event, id: nat)
    requires Safe(s) && Enabled(s, e) && id in s.table.rows && Fate(s, e, id).Some?
    ensures RouteOf(s, e) == Some(s.table.rows[id].key.route)
  {
    hide Safe, Queue, Deque, LockFree, RouteHasDrain;
    if e.DrainTop? {
      ListedIsOwn(s, s.procs[e.pid].key, e.expired, id);
    } else if e.DiscardDrop? {
      ListedIsOwn(s, e.key, |Queue(s, e.key)|, id);
    } else if e.DrainAfter? || e.LookImmediate? || e.Settle? || e.Cas? {
      HeldIsOwn(s, e.pid, id);
    }
  }

  lemma SafeWellFormed(s: Sys)
    requires Safe(s)
    ensures WellFormed(s.table)
  {
    hide WonOk, SentOk, ProcsOk, DequesOk;
  }

  /** The prompt accepted by event `i` is row `id`, still there with its text in its topic,
      or something took it out since. */
  ghost predicate Lasts(states: seq<Sys>, events: seq<Event>, i: nat, n: nat, key: Key, text: string)
    requires Run(states, events) && i < n <= |events|
  {
    var id := states[i].table.nextId;
    || (id in states[n].table.rows && states[n].table.rows[id].text == text
        && states[n].table.rows[id].key.route == key.route)
    || exists j :: i < j < n && TakenAt(states, events, j, id)
  }

  ghost predicate TakenAt(states: seq<Sys>, events: seq<Event>, j: nat, id: nat)
    requires Run(states, events) && j < |events|
  {
    && id in states[j].table.rows && Fate(states[j], events[j], id).Some?
    && RouteOf(states[j], events[j]) == Some(states[j].table.rows[id].key.route)
  }

  lemma InitialSafe(limit: nat)
    ensures Safe(Initial(limit))
  {
  }

  lemma StepAt(states: seq<Sys>, events: seq<Event>, j: nat, limit: nat)
    requires Run(states, events) && states[0] == Initial(limit) && j < |events|
    ensures Enabled(states[j], events[j]) && Safe(states[j]) && |states| == |events| + 1
    ensures RowsFollow(states[j], events[j], states[j + 1].table)
  {
    InitialSafe(limit);
    RunSafe(states, events, j);
    hide Safe, Enabled, Step, RowsFollow;
    assert Enabled(states[j], events[j]) && states[j + 1] == Step(states[j], events[j]);
    SafeWellFormed(states[j]);
    StepRows(states[j], events[j]);
  }

  /** No accepted prompt is lost: over every run, failing writes and crashes included, each
      stays in the spool with its text until it is confirmed, expires, is given up with its
      target, refused, or thrown away, each time by its own topic's doing. */
  lemma {:induction false} PromptLasts(
    states: seq<Sys>, events: seq<Event>, i: nat, n: nat, key: Key, text: string, limit: nat)
    requires Run(states, events) && states[0] == Initial(limit) && i < n <= |events| < |states|
    requires Enabled(states[i], events[i]) && Accepts(states[i], events[i], key, text)
    ensures Lasts(states, events, i, n, key, text)
  {
    hide *;
    StepAt(states, events, n - 1, limit);
    if n == i + 1 {
      LastsFirst(states, events, i, key, text);
    } else {
      PromptLasts(states, events, i, n - 1, key, text, limit);
      LastsOn(states, events, i, n, key, text);
    }
  }

  lemma LastsFirst(states: seq<Sys>, events: seq<Event>, i: nat, key: Key, text: string)
    requires Run(states, events) && i < |events| < |states|
    requires Enabled(states[i], events[i]) && Accepts(states[i], events[i], key, text)
    requires RowsFollow(states[i], events[i], states[i + 1].table)
    ensures Lasts(states, events, i, i + 1, key, text)
  {
    hide Run, Enabled, Fate, Accepts, Stays;
  }

  lemma LastsOn(states: seq<Sys>, events: seq<Event>, i: nat, n: nat, key: Key, text: string)
    requires Run(states, events) && i < n - 1 < |events| < |states| && Lasts(states, events, i, n - 1, key, text)
    requires Enabled(states[n - 1], events[n - 1]) && Safe(states[n - 1])
    requires RowsFollow(states[n - 1], events[n - 1], states[n].table)
    ensures Lasts(states, events, i, n, key, text)
  {
    hide Run, Enabled, Safe, Fate, RouteOf, Accepts;
    var id := states[i].table.nextId;
    if id in states[n - 1].table.rows && id !in states[n].table.rows {
      OwnTopicOnly(states[n - 1], events[n - 1], id);
      assert TakenAt(states, events, n - 1, id);
    }
  }
}
