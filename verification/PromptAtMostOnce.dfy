/** No prompt text is handed to an agent twice, whatever fails. */
module PromptAtMostOnce {
  import opened PromptTable
  import opened PromptLifecycle

  /** The task carries an item it read from a deque or inserted itself. */
  predicate Holding(p: Proc) {
    p.phase in {Ready, Won, Sent, After} || (p.kind == Immediate && p.phase == Capturing)
  }

  /** The item is an accepted prompt of this topic, with its text. */
  predicate Known(accepted: map<nat, Row>, x: Item, route: Route) {
    x.id in accepted && accepted[x.id].text == x.text && accepted[x.id].key.route == route
  }

  ghost predicate TableOk(table: Table, accepted: map<nat, Row>) {
    && (forall id :: id in accepted ==> id < table.nextId)
    && (forall id :: id in table.rows ==> Known(accepted, Item(id, table.rows[id].text), table.rows[id].key.route))
  }

  ghost predicate QueuesOk(queueOf: map<Key, Ref>) {
    forall key :: key in queueOf ==> queueOf[key].key == key
  }

  ghost predicate ItemsOk(accepted: map<nat, Row>, q: seq<Item>, route: Route) {
    forall x :: x in q ==> Known(accepted, x, route)
  }

  ghost predicate DequesOk(accepted: map<nat, Row>, deques: map<Ref, seq<Item>>) {
    forall ref :: ref in deques ==> ItemsOk(accepted, deques[ref], ref.key.route)
  }

  /** A handler holds the item of the very text it was started with. */
  ghost predicate ProcOk(accepted: map<nat, Row>, p: Proc) {
    && p.queue.key == p.key
    && (Holding(p) ==> Known(accepted, p.item, p.key.route) && (p.kind == Drain || p.item.text == p.text))
  }

  ghost predicate ProcsOk(accepted: map<nat, Row>, procs: map<nat, Proc>) {
    forall pid :: pid in procs ==> ProcOk(accepted, procs[pid])
  }

  ghost predicate NotSent(sent: seq<Submission>, id: nat) {
    forall i :: 0 <= i < |sent| ==> sent[i].id != id
  }

  /** The compare-and-set succeeded and the outcome is still open. */
  predicate Claims(p: Proc) {
    p.phase in {Won, Sent}
  }

  /** A task that won its row owns it alone until the outcome is known. */
  ghost predicate WonOk(table: Table, procs: map<nat, Proc>, sent: seq<Submission>) {
    && (forall pid :: pid in procs && Claims(procs[pid]) ==> !IsQueued(table, procs[pid].item.id))
    && (forall pid :: pid in procs && procs[pid].phase == Won ==> NotSent(sent, procs[pid].item.id))
    && (forall p, q :: p in procs && q in procs && p != q && Claims(procs[p]) && Claims(procs[q]) ==>
          procs[p].item.id != procs[q].item.id)
  }

  /** Each accepted prompt is in the history at most once, with its own text, under
      the topic that accepted it; and no handed-over row can become queued again. */
  ghost predicate SentOk(table: Table, accepted: map<nat, Row>, sent: seq<Submission>) {
    && (forall i, j :: 0 <= i < j < |sent| ==> sent[i].id != sent[j].id)
    && (forall i :: 0 <= i < |sent| ==>
          Known(accepted, Item(sent[i].id, sent[i].text), sent[i].key.route) && !IsQueued(table, sent[i].id))
  }

  ghost predicate Safe(s: Sys) {
    && TableOk(s.table, s.accepted) && QueuesOk(s.queueOf) && DequesOk(s.accepted, s.deques)
    && ProcsOk(s.accepted, s.procs) && WonOk(s.table, s.procs, s.sent) && SentOk(s.table, s.accepted, s.sent)
  }

  // --- Events that neither accept, win nor hand over ---

  /** Rows are only removed or moved on: no row appears, none returns to queued. */
  ghost predicate Shrinks(before: Table, after: Table) {
    && after.nextId == before.nextId
    && (forall id :: id in after.rows ==>
          && id in before.rows
          && after.rows[id].text == before.rows[id].text
          && after.rows[id].key.route == before.rows[id].key.route
          && (before.rows[id].state.Submitted? ==> after.rows[id].state.Submitted?))
  }

  /** Every task with an open claim already had it. */
  ghost predicate NoNewWinner(before: map<nat, Proc>, after: map<nat, Proc>) {
    forall pid :: pid in after && Claims(after[pid]) ==>
      pid in before && before[pid].phase == after[pid].phase && before[pid].item == after[pid].item
  }

  /** `t` is reached from `s` by moves of this kind only. */
  ghost predicate Quiet(s: Sys, t: Sys) {
    && t.accepted == s.accepted && t.sent == s.sent && Shrinks(s.table, t.table)
    && QueuesOk(t.queueOf) && DequesOk(s.accepted, t.deques)
    && ProcsOk(s.accepted, t.procs) && NoNewWinner(s.procs, t.procs)
  }

  lemma QuietStart(s: Sys)
    requires Safe(s)
    ensures Quiet(s, s)
  {
  }

  lemma QuietKeepsSafe(s: Sys, t: Sys)
    requires Safe(s) && Quiet(s, t)
    ensures Safe(t)
  {
    assert forall id :: IsQueued(t.table, id) ==> IsQueued(s.table, id);
  }

  lemma QuietTable(s: Sys, t: Sys, table: Table)
    requires Quiet(s, t) && Shrinks(t.table, table)
    ensures Quiet(s, t.(table := table))
  {
  }

  lemma QuietEnd(s: Sys, t: Sys, pid: nat, key: Key)
    requires Quiet(s, t)
    ensures Quiet(s, Ended(t, pid, key.route)) && Quiet(s, Exited(t, pid, key))
  {
  }

  lemma QuietProc(s: Sys, t: Sys, pid: nat, p: Proc)
    requires Quiet(s, t) && ProcOk(s.accepted, p)
    requires Claims(p) ==> pid in s.procs && s.procs[pid].phase == p.phase && s.procs[pid].item == p.item
    ensures Quiet(s, WithProc(t, pid, p))
  {
  }

  lemma QuietDelete(s: Sys, t: Sys, ids: set<nat>, ok: bool)
    requires Quiet(s, t)
    ensures Quiet(s, Deleted(t, ids, ok))
  {
  }

  lemma QuietUnmap(s: Sys, t: Sys, key: Key, ref: Ref)
    requires Quiet(s, t)
    ensures Quiet(s, Unmapped(t, key)) && Quiet(s, UnmappedIfEmpty(t, key, ref))
  {
  }

  lemma QuietConfirm(s: Sys, t: Sys, id: nat)
    requires Quiet(s, t)
    ensures Quiet(s, Confirming(t, id))
  {
  }

  lemma QuietDeque(s: Sys, t: Sys, ref: Ref, q: seq<Item>)
    requires Quiet(s, t)
    requires forall x :: x in q ==> ref in t.deques && x in t.deques[ref]
    ensures Quiet(s, t.(deques := t.deques[ref := q]))
  {
    FewerItems(s.accepted, t.deques, ref, q);
  }

  lemma QuietPop(s: Sys, t: Sys, ref: Ref, item: Item)
    requires Quiet(s, t)
    ensures Quiet(s, Popped(t, ref)) && Quiet(s, PoppedIfHead(t, ref, item))
  {
    if Deque(t, ref) != [] {
      assert forall x :: x in Deque(t, ref)[1..] ==> x in Deque(t, ref);
      QuietDeque(s, t, ref, Deque(t, ref)[1..]);
    }
  }

  /** One deque is replaced by items it already had. */
  lemma FewerItems(accepted: map<nat, Row>, deques: map<Ref, seq<Item>>, ref: Ref, q: seq<Item>)
    requires DequesOk(accepted, deques)
    requires forall x :: x in q ==> ref in deques && x in deques[ref]
    ensures DequesOk(accepted, deques[ref := q])
  {
  }

  // --- Events that accept a prompt ---

  lemma InsertedSafe(s: Sys, key: Key, text: string)
    requires Safe(s)
    ensures Safe(Inserted(s, key, text))
  {
    var t := Inserted(s, key, text);
    assert s.table.nextId !in s.accepted;
    assert NotSent(s.sent, s.table.nextId);
    assert TableOk(t.table, t.accepted) && SentOk(t.table, t.accepted, t.sent);
    assert WonOk(t.table, t.procs, t.sent) by { WinnersAccepted(s); }
    hide TableOk, SentOk, WonOk, QueuesOk;
    assert forall x, route :: Known(s.accepted, x, route) ==> Known(t.accepted, x, route);
    hide Known;
  }

  /** The item of every open claim is an accepted prompt. */
  lemma WinnersAccepted(s: Sys)
    requires Safe(s)
    ensures forall pid :: pid in s.procs && Claims(s.procs[pid]) ==> s.procs[pid].item.id in s.accepted
  {
    forall pid | pid in s.procs && Claims(s.procs[pid]) ensures s.procs[pid].item.id in s.accepted {
      assert ProcOk(s.accepted, s.procs[pid]);
    }
  }

  lemma MappedSafe(s: Sys, key: Key)
    requires Safe(s)
    ensures Safe(Mapped(s, key)) && key in Mapped(s, key).queueOf
  {
    FewerItems(s.accepted, s.deques, Ref(key, s.serial), []);
    hide TableOk, DequesOk, ProcsOk, WonOk, SentOk;
  }

  /** One deque gets a known item at its end. */
  lemma MoreItems(accepted: map<nat, Row>, deques: map<Ref, seq<Item>>, ref: Ref, x: Item)
    requires DequesOk(accepted, deques) && Known(accepted, x, ref.key.route)
    ensures DequesOk(accepted, deques[ref := (if ref in deques then deques[ref] else []) + [x]])
  {
    hide Known;
    var q := if ref in deques then deques[ref] else [];
    assert ItemsOk(accepted, q, ref.key.route);
    assert forall y :: y in q + [x] ==> y in q || y == x;
  }

  lemma EnqueuedSafe(s: Sys, key: Key, text: string)
    requires Safe(s)
    ensures Safe(Enqueued(s, key, text))
    ensures key in Enqueued(s, key, text).queueOf && Queue(Enqueued(s, key, text), key) != []
  {
    hide TableOk, DequesOk, ProcsOk, WonOk, SentOk;
    var m := Mapped(s, key);
    MappedSafe(s, key);
    InsertedSafe(m, key, text);
    var i := Inserted(m, key, text);
    assert m.table == s.table && m.queueOf[key].key == key;
    assert i.deques == m.deques && i.queueOf == m.queueOf;
    assert Known(i.accepted, Item(s.table.nextId, text), key.route);
    MoreItems(i.accepted, i.deques, m.queueOf[key], Item(s.table.nextId, text));
    hide Mapped, Inserted;
  }

  lemma HeadKnown(s: Sys, ref: Ref)
    requires DequesOk(s.accepted, s.deques)
    ensures Deque(s, ref) != [] ==> Known(s.accepted, Deque(s, ref)[0], ref.key.route)
  {
    if Deque(s, ref) != [] {
      assert Deque(s, ref)[0] in s.deques[ref];
    }
  }

  lemma EnterImmediateSafe(s: Sys, pid: nat, room: bool, busy: bool)
    requires Safe(s) && pid in s.procs && s.procs[pid].kind == Immediate
    requires RouteHasQueue(s, s.procs[pid].key.route) ==> busy
    ensures Safe(EnteredImmediate(s, pid, room, busy))
  {
    hide Enqueued, Mapped, Safe, Known, WithProc, Ended, Queue;
    var p := s.procs[pid];
    if !room {
      MappedSafe(s, p.key);
      SameProcs(s, p.key, p.text);
      EndSafe(Mapped(s, p.key), pid);
    } else {
      var m := Enqueued(s, p.key, p.text);
      EnqueuedSafe(s, p.key, p.text);
      SameProcs(s, p.key, p.text);
      if busy {
        EndSafe(m, pid);
      } else {
        LineHeadOk(m, p.key);
        OwnTextAtHead(s, p.key, p.text);
        ProcSafe(m, pid, p.(phase := Capturing, queue := m.queueOf[p.key], item := Queue(m, p.key)[0]));
      }
    }
  }

  lemma EnqueuedLast(s: Sys, key: Key, text: string)
    ensures Queue(Enqueued(s, key, text), key) == Queue(s, key) + [Item(s.table.nextId, text)]
  {
    hide Insert;
    assert Deque(Mapped(s, key), Mapped(s, key).queueOf[key]) == Queue(s, key);
  }

  /** On a route without queued prompts the sender finds its own prompt at the head. */
  lemma OwnTextAtHead(s: Sys, key: Key, text: string)
    requires !RouteHasQueue(s, key.route)
    ensures Queue(Enqueued(s, key, text), key) == [Item(s.table.nextId, text)]
  {
    EnqueuedLast(s, key, text);
    assert Queue(s, key) == [];
    hide Enqueued;
  }

  lemma SameProcs(s: Sys, key: Key, text: string)
    ensures Mapped(s, key).procs == s.procs && Enqueued(s, key, text).procs == s.procs
  {
  }

  lemma LineHeadOk(s: Sys, key: Key)
    requires Safe(s) && key in s.queueOf && Queue(s, key) != []
    ensures s.queueOf[key].key == key && Known(s.accepted, Queue(s, key)[0], key.route)
  {
    HeadKnown(s, s.queueOf[key]);
  }

  lemma EnterNativeSafe(s: Sys, pid: nat, room: bool, busy: bool)
    requires Safe(s) && pid in s.procs
    ensures Safe(EnteredNative(s, pid, room, busy))
  {
    var p := s.procs[pid];
    var m := if !room || busy then s else Inserted(s, p.key, p.text);
    InsertedSafe(s, p.key, p.text);
    QuietStart(m);
    if !room || busy {
      QuietEnd(m, m, pid, p.key);
    } else {
      QuietProc(m, m, pid, p.(phase := Ready, item := Item(s.table.nextId, p.text)));
    }
    hide Inserted;
    QuietKeepsSafe(m, EnteredNative(s, pid, room, busy));
  }

  // --- The compare-and-set and the hand-over ---

  lemma CasSafe(s: Sys, pid: nat, raises: bool, applied: bool, ok: bool)
    requires Safe(s) && InPhase(s, pid, Ready)
    ensures Safe(Compared(s, pid, raises, applied, ok))
  {
    hide Ended, Deleted, WithProc, Safe;
    var p := s.procs[pid];
    var submitted := s.(table := Submit(s.table, p.item.id));
    if !raises && IsQueued(s.table, p.item.id) {
      CasWins(s, pid);
    } else if raises && applied {
      assert Shrinks(s.table, submitted.table);
      RowSafe(s, submitted.table);
      CasLoses(submitted, pid, ok);
    } else {
      CasLoses(s, pid, ok);
    }
  }

  lemma CasLoses(s: Sys, pid: nat, ok: bool)
    requires Safe(s) && InPhase(s, pid, Ready)
    ensures Safe(WithProc(s, pid, s.procs[pid].(phase := Top)))
    ensures Safe(Ended(s, pid, s.procs[pid].key.route))
    ensures Safe(Ended(Deleted(s, {s.procs[pid].item.id}, ok), pid, s.procs[pid].key.route))
  {
    var p := s.procs[pid];
    assert ProcOk(s.accepted, p);
    QuietStart(s);
    hide Safe, Quiet, WithProc, Ended, Deleted;
    EndSafe(s, pid);
    QuietProc(s, s, pid, p.(phase := Top));
    QuietKeepsSafe(s, WithProc(s, pid, p.(phase := Top)));
    QuietDelete(s, s, {p.item.id}, ok);
    QuietEnd(s, Deleted(s, {p.item.id}, ok), pid, p.key);
    QuietKeepsSafe(s, Ended(Deleted(s, {p.item.id}, ok), pid, p.key.route));
  }

  /** Every other winner holds a row that is no longer queued; this row was. */
  lemma CasWins(s: Sys, pid: nat)
    requires Safe(s) && InPhase(s, pid, Ready) && IsQueued(s.table, s.procs[pid].item.id)
    ensures Safe(WithProc(s.(table := Submit(s.table, s.procs[pid].item.id)), pid, s.procs[pid].(phase := Won)))
  {
    var p := s.procs[pid];
    var after := Submit(s.table, p.item.id);
    var procs := s.procs[pid := p.(phase := Won)];
    assert ProcOk(s.accepted, p);
    assert TableOk(after, s.accepted) && SentOk(after, s.accepted, s.sent);
    assert ProcsOk(s.accepted, procs) by { hide SentOk, WonOk, TableOk; }
    assert forall q :: q in s.procs && Claims(s.procs[q]) ==> s.procs[q].item.id != p.item.id;
    assert NotSent(s.sent, p.item.id);
    hide TableOk, SentOk, ProcsOk, DequesOk, Known;
    assert forall id :: IsQueued(after, id) ==> IsQueued(s.table, id) && id != p.item.id;
    assert WonOk(after, procs, s.sent);
  }

  lemma HandSafe(s: Sys, pid: nat)
    requires Safe(s) && InPhase(s, pid, Won)
    ensures Safe(HandedOver(s, pid))
  {
    var p := s.procs[pid];
    assert ProcOk(s.accepted, p);
    assert p.item == Item(p.item.id, p.item.text);
  }

  lemma SettleSafe(s: Sys, pid: nat, outcome: Outcome, ok: bool)
    requires Safe(s) && pid in s.procs && s.procs[pid].phase in {Won, Sent}
    ensures Safe(Settled(s, pid, outcome, ok))
  {
    var p := s.procs[pid];
    QuietStart(s);
    assert ProcOk(s.accepted, p);
    hide Ended, Exited, Deleted, Popped, PoppedIfHead, UnmappedIfEmpty, Confirming, WithProc, Quiet, Safe;
    if p.kind.Native? && outcome.Failure? {
      QuietDelete(s, s, {p.item.id}, ok);
      QuietEnd(s, Deleted(s, {p.item.id}, ok), pid, p.key);
    } else if p.kind.Native? {
      QuietConfirm(s, s, p.item.id);
      QuietEnd(s, Confirming(s, p.item.id), pid, p.key);
    } else if p.kind.Drain? {
      QuietSettledDrain(s, pid, outcome, ok);
    } else {
      QuietSettledImmediate(s, pid, outcome, ok);
    }
    QuietKeepsSafe(s, Settled(s, pid, outcome, ok));
  }

  lemma QuietSettledDrain(s: Sys, pid: nat, outcome: Outcome, ok: bool)
    requires Safe(s) && pid in s.procs && s.procs[pid].phase in {Won, Sent} && s.procs[pid].kind.Drain?
    ensures Quiet(s, Settled(s, pid, outcome, ok))
  {
    var p := s.procs[pid];
    QuietStart(s);
    assert ProcOk(s.accepted, p);
    hide Ended, Exited, Deleted, Popped, PoppedIfHead, UnmappedIfEmpty, Confirming, WithProc, Quiet, Safe;
    QuietPop(s, s, p.queue, p.item);
    if outcome.Raised? {
      QuietConfirm(s, PoppedIfHead(s, p.queue, p.item), p.item.id);
      QuietEnd(s, Confirming(PoppedIfHead(s, p.queue, p.item), p.item.id), pid, p.key);
    } else if Deque(s, p.queue) == [] {
      QuietEnd(s, s, pid, p.key);
    } else if outcome.Success? {
      QuietProc(s, Popped(s, p.queue), pid, p.(phase := After));
    } else {
      var removed := Deleted(s, {Deque(s, p.queue)[0].id}, ok);
      QuietDelete(s, s, {Deque(s, p.queue)[0].id}, ok);
      QuietPop(s, removed, p.queue, p.item);
      QuietProc(s, Popped(removed, p.queue), pid, p.(phase := Top));
    }
  }

  lemma QuietSettledImmediate(s: Sys, pid: nat, outcome: Outcome, ok: bool)
    requires Safe(s) && pid in s.procs && s.procs[pid].phase in {Won, Sent}
    requires !s.procs[pid].kind.Drain? && !s.procs[pid].kind.Native?
    ensures Quiet(s, Settled(s, pid, outcome, ok))
  {
    var p := s.procs[pid];
    QuietStart(s);
    hide Ended, Exited, Deleted, Popped, PoppedIfHead, UnmappedIfEmpty, Confirming, WithProc, Quiet, Safe;
    if !outcome.Raised? && Deque(s, p.queue) == [] {
      QuietEnd(s, s, pid, p.key);
    } else {
      var removed := if outcome.Failure? then Deleted(s, {p.item.id}, ok) else s;
      var popped := if outcome.Raised? then PoppedIfHead(s, p.queue, p.item) else Popped(removed, p.queue);
      var unmapped := UnmappedIfEmpty(popped, p.key, p.queue);
      QuietDelete(s, s, {p.item.id}, ok);
      QuietPop(s, removed, p.queue, p.item);
      QuietUnmap(s, popped, p.key, p.queue);
      QuietConfirm(s, unmapped, p.item.id);
      QuietEnd(s, if outcome.Failure? then unmapped else Confirming(unmapped, p.item.id), pid, p.key);
    }
  }

  lemma LookImmediateSafe(s: Sys, pid: nat, sight: Sight, ok: bool)
    requires Safe(s) && At(s, pid, Immediate, Capturing)
    ensures Safe(LookedImmediate(s, pid, sight, ok))
  {
    var p := s.procs[pid];
    QuietStart(s);
    assert ProcOk(s.accepted, p);
    var removed := Deleted(s, {p.item.id}, ok);
    var popped := if Deque(s, p.queue) != [] && Deque(s, p.queue)[0] == p.item then Popped(removed, p.queue) else s;
    hide Ended, Exited, Deleted, Popped, UnmappedIfEmpty, WithProc, Quiet, Safe;
    QuietProc(s, s, pid, p.(phase := Ready));
    QuietEnd(s, s, pid, p.key);
    QuietDelete(s, s, {p.item.id}, ok);
    QuietPop(s, removed, p.queue, p.item);
    QuietUnmap(s, popped, p.key, p.queue);
    QuietEnd(s, UnmappedIfEmpty(popped, p.key, p.queue), pid, p.key);
    QuietKeepsSafe(s, LookedImmediate(s, pid, sight, ok));
  }

  // --- The drainer's other events ---

  /** What a drainer needs to know about itself and the deque it works on. */
  lemma DrainFacts(s: Sys, pid: nat)
    requires Safe(s) && pid in s.procs
    ensures var p := s.procs[pid];
            && ProcOk(s.accepted, p)
            && (Deque(s, p.queue) != [] ==> Known(s.accepted, Deque(s, p.queue)[0], p.key.route))
            && (p.key in s.queueOf ==> s.queueOf[p.key].key == p.key)
  {
    assert ProcOk(s.accepted, s.procs[pid]);
    HeadKnown(s, s.procs[pid].queue);
  }

  lemma DrainTopSafe(s: Sys, pid: nat, expired: nat, ok: bool)
    requires Safe(s) && At(s, pid, Drain, Top) && expired <= |Queue(s, s.procs[pid].key)|
    ensures Safe(LoopTop(s, pid, expired, ok))
  {
    hide Safe, Exited, WithProc, Known, Deleted, Deque;
    var p := s.procs[pid];
    DrainFacts(s, pid);
    var q := Queue(s, p.key);
    if q == [] {
      EndSafe(s, pid);
    } else {
      var ref := s.queueOf[p.key];
      var rest := Deleted(s, set x | x in q[..expired] :: x.id, ok).(deques := s.deques[ref := q[expired..]]);
      ExpiredSafe(s, ref, q, expired, ok);
      hide Queue;
      EndSafe(rest, pid);
      ProcSafe(rest, pid, p.(phase := Capturing, queue := ref));
    }
  }

  lemma ExpiredSafe(s: Sys, ref: Ref, q: seq<Item>, expired: nat, ok: bool)
    requires Safe(s) && ref in s.deques && q == s.deques[ref] && expired <= |q|
    ensures var rest := Deleted(s, set x | x in q[..expired] :: x.id, ok).(deques := s.deques[ref := q[expired..]]);
            Safe(rest) && rest.procs == s.procs && rest.accepted == s.accepted
  {
    hide Safe, Quiet;
    QuietExpired(s, ref, q, expired, ok);
    QuietKeepsSafe(s, Deleted(s, set x | x in q[..expired] :: x.id, ok).(deques := s.deques[ref := q[expired..]]));
  }

  lemma QuietExpired(s: Sys, ref: Ref, q: seq<Item>, expired: nat, ok: bool)
    requires Safe(s) && ref in s.deques && q == s.deques[ref] && expired <= |q|
    ensures Quiet(s, Deleted(s, set x | x in q[..expired] :: x.id, ok).(deques := s.deques[ref := q[expired..]]))
  {
    QuietDelete(s, s, set x | x in q[..expired] :: x.id, ok);
    QuietDeque(s, Deleted(s, set x | x in q[..expired] :: x.id, ok), ref, q[expired..]);
  }

  lemma DrainClearSafe(s: Sys, pid: nat, ok: bool)
    requires Safe(s) && At(s, pid, Drain, Notifying)
    ensures Safe(Cleared(s, pid, ok))
  {
    var p := s.procs[pid];
    var t := if ok then s.(table := DeleteTarget(s.table, p.key)) else s;
    QuietStart(s);
    QuietTable(s, s, DeleteTarget(s.table, p.key));
    QuietDeque(s, t, p.queue, []);
    var d := if p.queue in s.deques then t.(deques := t.deques[p.queue := []]) else t;
    QuietEnd(s, d, pid, p.key);
    hide Exited, Quiet, Safe;
    QuietKeepsSafe(s, Cleared(s, pid, ok));
  }

  lemma DrainLookSafe(s: Sys, pid: nat, sight: Sight)
    requires Safe(s) && At(s, pid, Drain, Capturing)
    ensures Safe(LookedDrain(s, pid, sight))
  {
    hide Exited, WithProc, Safe, Known, Deque;
    var p := s.procs[pid];
    DrainFacts(s, pid);
    ProcSafe(s, pid, p.(phase := Notifying));
    EndSafe(s, pid);
    ProcSafe(s, pid, p.(phase := Top));
    if Deque(s, p.queue) != [] {
      ProcSafe(s, pid, p.(phase := Ready, item := Deque(s, p.queue)[0]));
    }
  }

  lemma RestartSafe(s: Sys, failed: set<nat>)
    requires Safe(s)
    ensures Safe(Restarted(s, failed))
  {
    var t := Restarted(s, failed);
    var q := Restorable(s.table, s.bound, failed);
    forall ref | ref in t.deques
      ensures ItemsOk(s.accepted, t.deques[ref], ref.key.route)
    {
      PendingExact(q, ref.key, q.nextId);
      forall x | x in t.deques[ref]
        ensures Known(s.accepted, x, ref.key.route)
      {
        assert Known(s.accepted, Item(x.id, s.table.rows[x.id].text), s.table.rows[x.id].key.route);
      }
    }
    QuietKeepsSafe(s, t);
  }

  lemma ResumeSafe(s: Sys, pid: nat, confirmed: bool, ok: bool)
    requires Safe(s) && At(s, pid, Drain, After)
    ensures Safe(Resumed(s, pid, confirmed, ok))
  {
    var p := s.procs[pid];
    var t := if ok then s.(table := ConfirmRow(s.table, p.item.id)) else s;
    QuietStart(s);
    assert ProcOk(s.accepted, p);
    QuietTable(s, s, ConfirmRow(s.table, p.item.id));
    QuietProc(s, t, pid, p.(phase := Top));
    QuietConfirm(s, s, p.item.id);
    QuietEnd(s, Confirming(s, p.item.id), pid, p.key);
    hide Exited, Confirming, Quiet, Safe;
    QuietKeepsSafe(s, Resumed(s, pid, confirmed, ok));
  }

  /** A task moves to a phase without a claim. */
  lemma ProcSafe(s: Sys, pid: nat, p: Proc)
    requires Safe(s) && ProcOk(s.accepted, p) && !Claims(p)
    ensures Safe(WithProc(s, pid, p)) && Safe(Locked(WithProc(s, pid, p), pid, p.key.route))
  {
    QuietStart(s);
    QuietProc(s, s, pid, p);
    QuietKeepsSafe(s, WithProc(s, pid, p));
  }

  /** A task starts, moves to a phase without an item, or ends. */
  lemma TaskSafe(s: Sys, pid: nat, p: Proc)
    requires Safe(s) && p.queue.key == p.key && !Holding(p)
    ensures Safe(WithProc(s, pid, p))
  {
    QuietStart(s);
    QuietProc(s, s, pid, p);
    QuietKeepsSafe(s, WithProc(s, pid, p));
  }

  lemma EndSafe(s: Sys, pid: nat)
    requires Safe(s) && pid in s.procs
    ensures Safe(Ended(s, pid, s.procs[pid].key.route)) && Safe(Exited(s, pid, s.procs[pid].key))
  {
    QuietStart(s);
    QuietEnd(s, s, pid, s.procs[pid].key);
    QuietKeepsSafe(s, Ended(s, pid, s.procs[pid].key.route));
    QuietKeepsSafe(s, Exited(s, pid, s.procs[pid].key));
  }

  lemma ArriveSafe(s: Sys, kind: Kind, key: Key, text: string)
    requires Safe(s)
    ensures Safe(Arrived(s, kind, key, text))
  {
    var p := Proc(kind, key, text, Waiting, Ref(key, 0), Item(0, text), false);
    TaskSafe(s.(nextPid := s.nextPid + 1), s.nextPid, p);
  }

  lemma WakeSafe(s: Sys, key: Key)
    requires Safe(s)
    ensures Safe(Woken(s, key))
  {
    TaskSafe(s, s.nextPid, Proc(Drain, key, "", Top, Ref(key, 0), Item(0, ""), false));
  }

  lemma CancelSafe(s: Sys, key: Key)
    requires Safe(s)
    ensures Safe(Cancelled(s, key))
  {
    if key in s.tasks && s.tasks[key] in s.procs {
      var pid := s.tasks[key];
      assert ProcOk(s.accepted, s.procs[pid]);
      QuietStart(s);
      QuietProc(s, s, pid, s.procs[pid].(cancelled := true));
      hide Quiet;
      QuietKeepsSafe(s, WithProc(s, pid, s.procs[pid].(cancelled := true)));
    }
  }

  lemma EnterDiscardSafe(s: Sys, pid: nat)
    requires Safe(s) && At(s, pid, Discard, Waiting)
    ensures Safe(Locked(WithProc(s, pid, s.procs[pid].(phase := Capturing)), pid, s.procs[pid].key.route))
  {
    assert ProcOk(s.accepted, s.procs[pid]);
    TaskSafe(s, pid, s.procs[pid].(phase := Capturing));
  }

  /** Rows only move on, or memory forgets a deque. */
  lemma RowSafe(s: Sys, table: Table)
    requires Safe(s) && Shrinks(s.table, table)
    ensures Safe(s.(table := table))
  {
    QuietStart(s);
    QuietTable(s, s, table);
    QuietKeepsSafe(s, s.(table := table));
  }

  lemma ConfirmSafe(s: Sys, id: nat, removed: bool)
    requires Safe(s)
    ensures Safe(ConfirmFinished(s, id, removed)) && Safe(s.(confirming := s.confirming - {id}))
  {
    RowSafe(s, ConfirmRow(s.table, id));
  }

  lemma DropSafe(s: Sys, key: Key, ok: bool)
    requires Safe(s)
    ensures Safe(Dropped(s, key, ok))
  {
    var ids := set x | x in Queue(s, key) :: x.id;
    QuietStart(s);
    QuietDelete(s, s, ids, ok);
    QuietUnmap(s, Deleted(s, ids, ok), key, Ref(key, 0));
    hide Quiet, Deleted, Unmapped;
    QuietKeepsSafe(s, Dropped(s, key, ok));
  }

  lemma DiscardSafe(s: Sys, pid: nat, ok: bool)
    requires Safe(s) && pid in s.procs
    ensures Safe(Discarded(s, pid, ok))
  {
    var t := if ok then s.(table := DeleteRoute(s.table, s.procs[pid].key.route)) else s;
    RowSafe(s, DeleteRoute(s.table, s.procs[pid].key.route));
    EndSafe(t, pid);
  }

  lemma RetrySafe(s: Sys, pid: nat)
    requires Safe(s) && At(s, pid, Drain, Ready)
    ensures Safe(WithProc(s, pid, s.procs[pid].(phase := Top)))
  {
    assert ProcOk(s.accepted, s.procs[pid]);
    TaskSafe(s, pid, s.procs[pid].(phase := Top));
  }

  lemma PassSafe(s: Sys, pid: nat)
    requires Safe(s) && At(s, pid, Drain, After)
    ensures Safe(Passed(s, pid))
  {
    var p := s.procs[pid];
    assert ProcOk(s.accepted, p);
    ProcSafe(s, pid, p.(phase := Top));
    hide TableOk, DequesOk, ProcsOk, WonOk, SentOk, QueuesOk;
  }

  lemma RebindSafe(s: Sys, route: Route, window: string)
    requires Safe(s)
    ensures Safe(s.(bound := s.bound[route := window]))
  {
  }

  lemma DrainerSafe(s: Sys, e: Event)
    requires Safe(s) && Enabled(s, e) && OfDrainer(e)
    ensures Safe(Step(s, e))
  {
    hide EnteredImmediate, EnteredNative, LookedImmediate, Compared, HandedOver, Settled, LoopTop, LookedDrain,
      Cleared, Restarted, Enqueued, Mapped, Resumed, Passed, Exited, Ended, Woken, Arrived, Cancelled, Dropped,
      Discarded, ConfirmFinished, Safe, WithProc, Locked, Queue, HasRoom, RouteHasQueue, RouteHasDrain;
    match e
    case DrainTop(pid, expired, ok) => DrainTopSafe(s, pid, expired, ok);
    case DrainLook(pid, sight) => DrainLookSafe(s, pid, sight);
    case DrainRetry(pid) => RetrySafe(s, pid);
    case DrainClear(pid, ok) => DrainClearSafe(s, pid, ok);
    case DrainAfter(pid, confirmed, ok) => ResumeSafe(s, pid, confirmed, ok);
    case DrainPass(pid) => PassSafe(s, pid);
    case DrainDie(pid) => EndSafe(s, pid);
    case Wake(key) => WakeSafe(s, key);
    case ConfirmDone(id, confirmed, ok) => ConfirmSafe(s, id, confirmed && ok);
  }

  /** Every event keeps the whole invariant. */
  lemma StepSafe(s: Sys, e: Event)
    requires Safe(s) && Enabled(s, e)
    ensures Safe(Step(s, e))
  {
    if OfDrainer(e) {
      DrainerSafe(s, e);
    } else {
      HandlerSafe(s, e);
    }
    hide Safe, Step, Enabled, OfDrainer;
  }

  lemma HandlerSafe(s: Sys, e: Event)
    requires Safe(s) && Enabled(s, e) && !OfDrainer(e)
    ensures Safe(Step(s, e))
  {
    hide EnteredImmediate, EnteredNative, LookedImmediate, Compared, HandedOver, Settled, LoopTop, LookedDrain,
      Cleared, Restarted, Enqueued, Mapped, Resumed, Passed, Exited, Ended, Woken, Arrived, Cancelled, Dropped,
      Discarded, ConfirmFinished, Safe, WithProc, Locked, Queue, HasRoom, RouteHasQueue, RouteHasDrain;
    match e
    case Arrive(kind, key, text) => ArriveSafe(s, kind, key, text);
    case Interrupt(key, text, room) => MappedSafe(s, key); EnqueuedSafe(s, key, text);
    case EnterImmediate(pid, room, busy) => EnterImmediateSafe(s, pid, room, busy);
    case EnterNative(pid, room, busy) => EnterNativeSafe(s, pid, room, busy);
    case EnterDiscard(pid) => EnterDiscardSafe(s, pid);
    case LookImmediate(pid, sight, ok) => LookImmediateSafe(s, pid, sight, ok);
    case Defer(pid) => EndSafe(s, pid);
    case Cas(pid, raises, applied, ok) => CasSafe(s, pid, raises, applied, ok);
    case Hand(pid) => HandSafe(s, pid);
    case Settle(pid, outcome, ok) => SettleSafe(s, pid, outcome, ok);
    case DiscardCancel(_, key) => CancelSafe(s, key);
    case DiscardConfirm(_, id) => ConfirmSafe(s, id, false);
    case DiscardDrop(_, key, ok) => DropSafe(s, key, ok);
    case DiscardFinish(pid, ok) => DiscardSafe(s, pid, ok);
    case Abort(pid) => EndSafe(s, pid);
    case Rebind(route, window) => RebindSafe(s, route, window);
    case Restart(failed) => RestartSafe(s, failed);
  }

  lemma {:induction false} RunSafe(states: seq<Sys>, events: seq<Event>, n: nat)
    requires Run(states, events) && Safe(states[0]) && n < |states|
    ensures Safe(states[n])
  {
    if n > 0 {
      RunSafe(states, events, n - 1);
      StepSafe(states[n - 1], events[n - 1]);
    }
  }

  /** At-most-once submission, over every run from an empty spool: whatever the
      terminal answers, whichever writes fail, and however often the process dies. */
  lemma AtMostOnceSubmission(states: seq<Sys>, events: seq<Event>, n: nat, limit: nat)
    requires Run(states, events) && n < |states| && states[0] == Initial(limit)
    ensures forall i, j :: 0 <= i < j < |states[n].sent| ==> states[n].sent[i].id != states[n].sent[j].id
    ensures forall i :: 0 <= i < |states[n].sent| ==>
              var h := states[n].sent[i];
              && h.id in states[n].accepted
              && states[n].accepted[h.id].text == h.text
              && states[n].accepted[h.id].key.route == h.key.route
  {
    RunSafe(states, events, n);
  }
}
