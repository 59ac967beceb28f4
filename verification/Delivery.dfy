/** Delivery of one session's transcript to the topics bound to it.

    Two cursors cooperate: the monitor offset, kept on disk, says how far the transcript
    has been handed out; each recipient's own cursor says which messages it has had.

    A message carries the offset behind its transcript line, so that all messages of one
    line carry the same; usage-limit notices carry offset 0 and are read again on every
    replay. */
module Delivery {
  import opened Basics

  // --- Monitor offsets: committed, deferred and saved ---

  /** One session's offsets: recorded in memory, and read but not yet committed. */
  datatype Offsets = Offsets(tracked: Option<nat>, deferred: Option<nat>)

  /** After the callback acknowledged a message. */
  function DeliveredTo(o: Offsets, source: nat): Offsets {
    if source == 0 || o.deferred.None? then o else o.(tracked := Some(Min(source, o.deferred.value)))
  }

  function Committed(o: Offsets): Offsets {
    if o.deferred.None? then o else Offsets(o.deferred, None)
  }

  type Session = string

  /** Two maps agree about one key. */
  predicate SameAt<K, V(==)>(m: map<K, V>, n: map<K, V>, key: K) {
    (key in m <==> key in n) && (key in m ==> m[key] == n[key])
  }

  class SessionMonitor {
    var tracked: map<Session, nat>
    var deferred: map<Session, nat>

    ghost function Of(session: Session): Offsets
      reads this
    {
      Offsets(if session in tracked then Some(tracked[session]) else None,
              if session in deferred then Some(deferred[session]) else None)
    }

    constructor (saved: map<Session, nat>)
      ensures tracked == saved && deferred == map[]
    {
      tracked, deferred := saved, map[];
    }

    method CommitDeferred(sessions: set<Session>)
      modifies this
      ensures forall s :: Of(s) == if s in sessions then Committed(old(Of(s))) else old(Of(s))
      ensures forall s :: s in deferred <==> s in old(deferred) && s !in sessions
      ensures forall s :: s in deferred ==> deferred[s] == old(deferred)[s]
      ensures forall s :: s in sessions && s in old(deferred) ==> s in tracked && tracked[s] == old(deferred)[s]
      ensures forall s :: !(s in sessions && s in old(deferred)) ==> SameAt(tracked, old(tracked), s)
    {
      var todo := sessions;
      while todo != {}
        invariant todo <= sessions
        invariant forall s :: Of(s) == if s in sessions - todo then Committed(old(Of(s))) else old(Of(s))
        decreases |todo|
      {
        var s :| s in todo;
        todo := todo - {s};
        if s in deferred {
          tracked := tracked[s := deferred[s]];
          deferred := deferred - {s};
        }
      }
      forall s
        ensures s in deferred <==> s in old(deferred) && s !in sessions
        ensures s in deferred ==> deferred[s] == old(deferred)[s]
        ensures s in sessions && s in old(deferred) ==> s in tracked && tracked[s] == old(deferred)[s]
        ensures !(s in sessions && s in old(deferred)) ==> SameAt(tracked, old(tracked), s)
      {
        assert Of(s) == if s in sessions then Committed(old(Of(s))) else old(Of(s));
      }
    }

    method DiscardDeferred(sessions: set<Session>)
      modifies this`deferred
      ensures forall s :: Of(s) == if s in sessions then old(Of(s)).(deferred := None) else old(Of(s))
      ensures forall s :: s in deferred <==> s in old(deferred) && s !in sessions
      ensures forall s :: s in deferred ==> deferred[s] == old(deferred)[s]
    {
      deferred := deferred - sessions;
    }

    method CommitDelivered(session: Session, source: nat)
      modifies this`tracked
      ensures forall s :: Of(s) == if s == session then DeliveredTo(old(Of(s)), source) else old(Of(s))
      ensures source > 0 && session in deferred ==>
                session in tracked && tracked[session] == Min(source, deferred[session])
      ensures source == 0 || session !in deferred ==> tracked == old(tracked)
      ensures forall s :: s != session ==> SameAt(tracked, old(tracked), s)
    {
      if source == 0 || session !in deferred {
        return;
      }
      tracked := tracked[session := Min(source, deferred[session])];
    }

    /** One batch of one session, in order. `acks[k]` tells whether the callback returned
        for message `k`, `slow[k]` whether the soft time limit had passed by then. A batch
        is complete when every message was acknowledged within the group limit. */
    method DispatchGroup(session: Session, batch: seq<nat>, acks: seq<bool>, slow: seq<bool>)
      returns (complete: bool, failed: bool, acked: nat)
      requires |acks| == |slow| == |batch|
      modifies this`tracked
      ensures acked <= |batch| && acked <= 8
      ensures forall k :: 0 <= k < acked ==> acks[k]
      ensures forall k :: 0 <= k < acked - 1 ==> !slow[k]
      ensures acked < |batch| ==> acked == 8 || !acks[acked] || (acked > 0 && slow[acked - 1])
      ensures complete <==> acked == |batch|
      ensures failed <==> acked < |batch| && acked < 8 && !acks[acked] && (acked > 0 ==> !slow[acked - 1])
      ensures forall s :: Of(s) == if s == session then AllDelivered(old(Of(s)), batch[..acked]) else old(Of(s))
      ensures session in deferred ==> forall k :: LastOffset(batch[..acked], k) ==>
                session in tracked && tracked[session] == Min(batch[k], deferred[session])
      ensures session !in deferred || (forall k :: 0 <= k < acked ==> batch[k] == 0) ==>
                SameAt(tracked, old(tracked), session)
      ensures forall s :: s != session ==> SameAt(tracked, old(tracked), s)
    {
      acked, failed := 0, false;
      while acked < |batch|
        invariant acked <= |batch| && acked <= GROUP_LIMIT
        invariant forall k :: 0 <= k < acked ==> acks[k]
        invariant forall k :: 0 <= k < acked && k + 1 < |batch| ==> !slow[k]
        invariant deferred == old(deferred) && !failed
        invariant forall s :: Of(s) == if s == session then AllDelivered(old(Of(s)), batch[..acked]) else old(Of(s))
      {
        if acked >= GROUP_LIMIT {
          break;
        }
        if !acks[acked] {
          failed := true;
          break;
        }
        CommitDelivered(session, batch[acked]);
        assert batch[..acked + 1][..acked] == batch[..acked];
        acked := acked + 1;
        if acked < |batch| && slow[acked - 1] {
          break;
        }
      }
      complete := acked == |batch|;
      AllDeliveredIs(old(Of(session)), batch[..acked]);
      assert Of(session) == AllDelivered(old(Of(session)), batch[..acked]);
      forall s | s != session ensures SameAt(tracked, old(tracked), s) {
        assert Of(s) == old(Of(s));
      }
    }
  }

  const GROUP_LIMIT: nat := 8

  function AllDelivered(o: Offsets, sources: seq<nat>): Offsets {
    if sources == [] then o
    else DeliveredTo(AllDelivered(o, sources[..|sources| - 1]), sources[|sources| - 1])
  }

  /** Message `k` is the last one that carries an offset. */
  predicate LastOffset(sources: seq<nat>, k: int) {
    0 <= k < |sources| && sources[k] > 0 && forall j :: k < j < |sources| ==> sources[j] == 0
  }

  lemma {:induction false} AllDeliveredIs(o: Offsets, sources: seq<nat>)
    ensures var n := AllDelivered(o, sources);
            && n.deferred == o.deferred
            && (o.deferred.None? || (forall k :: 0 <= k < |sources| ==> sources[k] == 0) ==> n == o)
            && (o.deferred.Some? ==> forall k :: LastOffset(sources, k) ==>
                  n.tracked == Some(Min(sources[k], o.deferred.value)))
  {
    if sources != [] {
      var n := |sources| - 1;
      AllDeliveredIs(o, sources[..n]);
      assert forall k :: k != n && LastOffset(sources, k) ==> LastOffset(sources[..n], k) && sources[n] == 0;
    }
  }

  // --- One message, one recipient ---

  type Recipient = (int, string)   // user and window

  datatype Target = Local(recipient: Recipient) | Remote(user: int, thread: int)

  /** How handling a message for one recipient ends: its content was delivered, it
      needed no content, it is hidden by configuration, delivery failed, or delivery
      raised, which ends the handling of the message. */
  datatype Result = Delivered | Quiet | Hidden | Refused | Raised

  predicate HasIt(cursors: map<Recipient, nat>, target: Target, source: nat) {
    target.Local? && source > 0 && target.recipient in cursors && cursors[target.recipient] >= source
  }

  function Marked(cursors: map<Recipient, nat>, target: Target, source: nat, result: Result): map<Recipient, nat> {
    if target.Local? && source > 0 && (result.Delivered? || result.Quiet?)
    then cursors[target.recipient := source]
    else cursors
  }

  /** Whether a target is done with a message, for acknowledging it. */
  ghost predicate Served(cursors: map<Recipient, nat>, hidden: set<(Target, nat)>, target: Target, source: nat) {
    target.Local? && source > 0 ==> HasIt(cursors, target, source) || (target, source) in hidden
  }

  /** The handling of one message: the cursors, the recipients its content was sent to,
      whether a delivery failed, and whether one raised. */
  datatype Handling = Handling(cursors: map<Recipient, nat>, sent: seq<Target>, refused: bool, raised: bool)

  function Handle(h: Handling, target: Target, source: nat, result: Result): Handling {
    if h.raised || HasIt(h.cursors, target, source) then h
    else Handling(Marked(h.cursors, target, source, result),
                  if result.Delivered? then h.sent + [target] else h.sent,
                  h.refused || result.Refused?,
                  result.Raised?)
  }

  /** One message, `results[k]` being how delivery to target `k` ends when it is tried. */
  function HandleAll(cursors: map<Recipient, nat>, source: nat, targets: seq<Target>, results: seq<Result>): Handling
    requires |results| == |targets|
  {
    if targets == [] then Handling(cursors, [], false, false)
    else
      var n := |targets| - 1;
      Handle(HandleAll(cursors, source, targets[..n], results[..n]), targets[n], source, results[n])
  }

  /** Target `k` is tried: no earlier one that was tried raised, and its recipient has not
      had the message, neither before nor as an earlier target. */
  ghost predicate Tried(cursors: map<Recipient, nat>, source: nat, targets: seq<Target>, results: seq<Result>, k: nat)
    requires |results| == |targets| && k < |targets|
    decreases k
  {
    && !(targets[k].Local? && source > 0 && targets[k].recipient in cursors && cursors[targets[k].recipient] >= source)
    && forall j: nat :: j < k && Tried(cursors, source, targets, results, j) ==>
         && !results[j].Raised?
         && !(targets[j] == targets[k] && targets[j].Local? && source > 0
              && (results[j].Delivered? || results[j].Quiet?))
  }

  /** One of the first `n` targets was tried with this outcome. */
  ghost predicate Ended(cursors: map<Recipient, nat>, source: nat, targets: seq<Target>, results: seq<Result>,
                        n: nat, target: Target, result: Result)
    requires |results| == |targets| && n <= |targets|
  {
    exists k: nat :: && k < n && targets[k] == target && results[k] == result
                     && Tried(cursors, source, targets, results, k)
  }

  ghost predicate SomeEnded(cursors: map<Recipient, nat>, source: nat, targets: seq<Target>, results: seq<Result>,
                            n: nat, result: Result)
    requires |results| == |targets| && n <= |targets|
  {
    exists k: nat :: k < n && results[k] == result && Tried(cursors, source, targets, results, k)
  }

  /** The recipient gets the message from one of the first `n` deliveries: one of them sent
      the content to it, or found that it needs none. */
  ghost predicate Gets(cursors: map<Recipient, nat>, source: nat, targets: seq<Target>, results: seq<Result>,
                       n: nat, recipient: Recipient)
    requires |results| == |targets| && n <= |targets|
  {
    || Ended(cursors, source, targets, results, n, Local(recipient), Delivered)
    || Ended(cursors, source, targets, results, n, Local(recipient), Quiet)
  }

  class Recipients {
    var cursors: map<Recipient, nat>

    constructor (saved: map<Recipient, nat>)
      ensures cursors == saved
    {
      cursors := saved;
    }

    /** The loop over the recipients of one message. Refusals are raised after the loop,
        so that one recipient's failure does not keep the message from the others. */
    method HandleNewMessage(source: nat, targets: seq<Target>, results: seq<Result>)
      returns (failed: bool, sent: seq<Target>)
      requires |results| == |targets|
      modifies this
      ensures var h := HandleAll(old(cursors), source, targets, results);
              cursors == h.cursors && sent == h.sent && (failed <==> h.refused || h.raised)
      ensures IsHandling(old(cursors), source, targets, results, |targets|,
                         HandleAll(old(cursors), source, targets, results))
    {
      hide HasIt, Ended, SomeEnded, Gets, IsHandling;
      HandlingIs(cursors, source, targets, results, |targets|);
      assert targets[..|targets|] == targets && results[..|targets|] == results;
      failed, sent := false, [];
      for k := 0 to |targets|
        invariant HandleAll(old(cursors), source, targets[..k], results[..k]) == Handling(cursors, sent, failed, false)
      {
        var target := targets[k];
        assert targets[..k + 1][..k] == targets[..k] && results[..k + 1][..k] == results[..k];
        if HasIt(cursors, target, source) {
          continue;
        }
        if results[k].Raised? {
          StaysRaised(old(cursors), source, targets, results, k + 1, |targets|);
          assert targets[..|targets|] == targets && results[..|targets|] == results;
          return true, sent;
        }
        if results[k].Refused? {
          failed := true;
          continue;
        }
        if results[k].Delivered? {
          sent := sent + [target];
        }
        cursors := Marked(cursors, target, source, results[k]);
      }
      assert targets[..|targets|] == targets && results[..|targets|] == results;
    }
  }

  lemma {:induction false} StaysRaised(cursors: map<Recipient, nat>, source: nat, targets: seq<Target>,
                                       results: seq<Result>, k: nat, n: nat)
    requires |results| == |targets| && k <= n <= |targets|
    requires HandleAll(cursors, source, targets[..k], results[..k]).raised
    ensures HandleAll(cursors, source, targets[..n], results[..n])
              == HandleAll(cursors, source, targets[..k], results[..k])
  {
    if k < n {
      StaysRaised(cursors, source, targets, results, k, n - 1);
      assert targets[..n][..n - 1] == targets[..n - 1] && results[..n][..n - 1] == results[..n - 1];
    }
  }

  // --- What handling one message comes to ---

  lemma {:induction false} HandlingAdvances(cursors: map<Recipient, nat>, source: nat, targets: seq<Target>,
                                            results: seq<Result>)
    requires |results| == |targets|
    ensures var after := HandleAll(cursors, source, targets, results).cursors;
            forall r :: r in cursors ==> r in after && cursors[r] <= after[r]
  {
    if targets != [] {
      var n := |targets| - 1;
      HandlingAdvances(cursors, source, targets[..n], results[..n]);
    }
  }

  lemma EndedNext(cursors: map<Recipient, nat>, source: nat, targets: seq<Target>, results: seq<Result>, n: nat,
                  target: Target, result: Result)
    requires |results| == |targets| && n < |targets|
    ensures Ended(cursors, source, targets, results, n + 1, target, result)
            <==> || Ended(cursors, source, targets, results, n, target, result)
                 || (targets[n] == target && results[n] == result && Tried(cursors, source, targets, results, n))
  {
    hide Tried;
    if k: nat :| && k < n && targets[k] == target && results[k] == result
                 && Tried(cursors, source, targets, results, k) {
      assert k < n + 1 && targets[k] == target && results[k] == result;
    }
  }

  lemma SomeEndedNext(cursors: map<Recipient, nat>, source: nat, targets: seq<Target>, results: seq<Result>, n: nat,
                      result: Result)
    requires |results| == |targets| && n < |targets|
    ensures SomeEnded(cursors, source, targets, results, n + 1, result)
            <==> || SomeEnded(cursors, source, targets, results, n, result)
                 || (results[n] == result && Tried(cursors, source, targets, results, n))
  {
    hide Tried;
    if k: nat :| k < n && results[k] == result && Tried(cursors, source, targets, results, k) {
      assert k < n + 1 && results[k] == result;
    }
  }

  /** Target `n` is tried if nothing raised before and it still lacks the message. */
  lemma TriedNext(cursors: map<Recipient, nat>, source: nat, targets: seq<Target>, results: seq<Result>, n: nat)
    requires |results| == |targets| && n < |targets|
    ensures var target := targets[n];
            Tried(cursors, source, targets, results, n) <==>
              && !SomeEnded(cursors, source, targets, results, n, Raised)
              && (target.Local? && source > 0 ==>
                    && !Gets(cursors, source, targets, results, n, target.recipient)
                    && !(target.recipient in cursors && cursors[target.recipient] >= source))
  {
  }

  ghost predicate CursorIs(cursors: map<Recipient, nat>, source: nat, targets: seq<Target>, results: seq<Result>,
                           n: nat, after: map<Recipient, nat>, r: Recipient)
    requires |results| == |targets| && n <= |targets|
  {
    if source > 0 && Gets(cursors, source, targets, results, n, r) then r in after && after[r] == source
    else SameAt(after, cursors, r)
  }

  /** What handling the first `n` targets comes to, for every recipient: its cursor is set
      to the message exactly if its delivery was tried and succeeded, or needed no content,
      and is as it was otherwise; the content was sent to exactly the targets whose delivery
      succeeded; handling fails exactly if a delivery that was tried failed or raised. */
  ghost predicate IsHandling(cursors: map<Recipient, nat>, source: nat, targets: seq<Target>, results: seq<Result>,
                             n: nat, h: Handling)
    requires |results| == |targets| && n <= |targets|
  {
    && (forall r :: CursorIs(cursors, source, targets, results, n, h.cursors, r))
    && (forall t :: t in h.sent <==> Ended(cursors, source, targets, results, n, t, Delivered))
    && (h.refused <==> SomeEnded(cursors, source, targets, results, n, Refused))
    && (h.raised <==> SomeEnded(cursors, source, targets, results, n, Raised))
  }

  lemma {:induction false} HandlingIs(cursors: map<Recipient, nat>, source: nat, targets: seq<Target>,
                                      results: seq<Result>, n: nat)
    requires |results| == |targets| && n <= |targets|
    ensures IsHandling(cursors, source, targets, results, n,
                       HandleAll(cursors, source, targets[..n], results[..n]))
  {
    if n > 0 {
      assert targets[..n][..n - 1] == targets[..n - 1] && results[..n][..n - 1] == results[..n - 1];
      HandlingIs(cursors, source, targets, results, n - 1);
      HandledNext(cursors, source, targets, results, n - 1,
                  HandleAll(cursors, source, targets[..n - 1], results[..n - 1]));
      hide IsHandling, Handle;
    }
  }

  lemma HandledNext(cursors: map<Recipient, nat>, source: nat, targets: seq<Target>, results: seq<Result>, n: nat,
                    h: Handling)
    requires |results| == |targets| && n < |targets| && IsHandling(cursors, source, targets, results, n, h)
    ensures IsHandling(cursors, source, targets, results, n + 1, Handle(h, targets[n], source, results[n]))
  {
    var after := Handle(h, targets[n], source, results[n]);
    TriedNext(cursors, source, targets, results, n);
    SomeEndedNext(cursors, source, targets, results, n, Refused);
    SomeEndedNext(cursors, source, targets, results, n, Raised);
    hide Tried, Ended, SomeEnded;
    if targets[n].Local? {
      assert CursorIs(cursors, source, targets, results, n, h.cursors, targets[n].recipient);
    }
    assert Tried(cursors, source, targets, results, n) <==> !h.raised && !HasIt(h.cursors, targets[n], source);
    hide Gets, HasIt;
    var next := n + 1;
    forall r: Recipient ensures CursorIs(cursors, source, targets, results, next, after.cursors, r) {
      assert CursorIs(cursors, source, targets, results, n, h.cursors, r);
      GetsNext(cursors, source, targets, results, n, r);
    }
    hide CursorIs, Marked;
    forall t ensures t in after.sent <==> Ended(cursors, source, targets, results, n + 1, t, Delivered) {
      EndedNext(cursors, source, targets, results, n, t, Delivered);
    }
  }

  lemma GetsNext(cursors: map<Recipient, nat>, source: nat, targets: seq<Target>, results: seq<Result>, n: nat,
                 r: Recipient)
    requires |results| == |targets| && n < |targets|
    ensures Gets(cursors, source, targets, results, n + 1, r)
            <==> || Gets(cursors, source, targets, results, n, r)
                 || (&& targets[n] == Local(r) && (results[n].Delivered? || results[n].Quiet?)
                     && Tried(cursors, source, targets, results, n))
  {
    hide Ended;
    EndedNext(cursors, source, targets, results, n, Local(r), Delivered);
    EndedNext(cursors, source, targets, results, n, Local(r), Quiet);
  }

  /** Handling fails exactly if a delivery that was tried failed or raised. */
  lemma FailsExactly(cursors: map<Recipient, nat>, source: nat, targets: seq<Target>, results: seq<Result>)
    requires |results| == |targets|
    ensures var h := HandleAll(cursors, source, targets, results);
            (h.refused || h.raised) <==>
            exists k: nat :: && k < |targets| && (results[k].Refused? || results[k].Raised?)
                             && Tried(cursors, source, targets, results, k)
  {
    HandlingIs(cursors, source, targets, results, |targets|);
    assert targets[..|targets|] == targets && results[..|targets|] == results;
    hide Tried, CursorIs, Ended, HandleAll;
  }

  /** When handling does not fail every recipient has the message, or is configured not to
      see it; a message with an offset is sent to no recipient twice, nor to one that has it. */
  lemma {:induction false} HandledServes(cursors: map<Recipient, nat>, source: nat, targets: seq<Target>,
                                         results: seq<Result>)
    requires |results| == |targets| && source > 0
    ensures var h := HandleAll(cursors, source, targets, results);
            && (!h.refused && !h.raised ==> forall k :: 0 <= k < |targets| && targets[k].Local? ==>
                  HasIt(h.cursors, targets[k], source) || results[k].Hidden?)
            && (forall t :: t in h.sent ==> t in targets && !HasIt(cursors, t, source))
            && (forall t :: t in h.sent && t.Local? ==> HasIt(h.cursors, t, source))
            && (forall i, j :: 0 <= i < j < |h.sent| && h.sent[i].Local? ==> h.sent[i] != h.sent[j])
  {
    if targets != [] {
      var n := |targets| - 1;
      var before := HandleAll(cursors, source, targets[..n], results[..n]);
      HandledServes(cursors, source, targets[..n], results[..n]);
      HandlingAdvances(cursors, source, targets[..n], results[..n]);
      HandlingAdvances(cursors, source, targets, results);
      var h := HandleAll(cursors, source, targets, results);
      HasItLater(before.cursors, h.cursors, source);
      HasItLater(cursors, before.cursors, source);
      hide HasIt, HandleAll;
      LastServed(before, targets[n], source, results[n]);
      assert forall t :: t in targets[..n] ==> t in targets;
    }
  }

  lemma HasItLater(before: map<Recipient, nat>, after: map<Recipient, nat>, source: nat)
    requires forall r :: r in before ==> r in after && before[r] <= after[r]
    ensures forall t: Target :: HasIt(before, t, source) ==> HasIt(after, t, source)
  {
  }

  lemma LastServed(h: Handling, target: Target, source: nat, result: Result)
    requires source > 0
    ensures var n := Handle(h, target, source, result);
            target.Local? ==>
              && (!n.refused && !n.raised ==> HasIt(n.cursors, target, source) || result.Hidden?)
              && (!h.raised && !HasIt(h.cursors, target, source) && result.Delivered? ==>
                    HasIt(n.cursors, target, source))
  {
  }
}
