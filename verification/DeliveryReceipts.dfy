/** What a run of the delivery comes to for one recipient, told by its events: which lines
    reached it, how often, and what its cursor stands for. */
module DeliveryReceipts {
  import opened Delivery
  import opened DeliveryRuns
  import Reader = TranscriptReader

  // --- Events ---

  /** The event settles the delivery of a message of this offset to the target. */
  ghost predicate Settles(s: State, e: Event, target: Target, source: nat, result: Result) {
    e == Settle(result) && InSending(s) && NextTarget(s) == target && Source(s.phase.batch) == source
  }

  /** Such a delivery ended with the result within the first `n` events. */
  ghost predicate Was(states: seq<State>, events: seq<Event>, n: nat, target: Target, source: nat, result: Result)
    requires |states| > |events| >= n
  {
    exists i :: 0 <= i < n && Settles(states[i], events[i], target, source, result)
  }

  /** The content was delivered to the target, or it needed none. */
  ghost predicate Got(states: seq<State>, events: seq<Event>, n: nat, target: Target, source: nat)
    requires |states| > |events| >= n
  {
    || Was(states, events, n, target, source, Delivered)
    || Was(states, events, n, target, source, Quiet)
  }

  /** The poll reads the line, which yields no message. */
  ghost predicate FindsSilent(f: Feed, s: State, e: Event, line: nat) {
    e.Poll? && |e.counts| == |Read(f, s, e.bound).entries| &&
    exists k :: && 0 <= k < |e.counts| && e.counts[k] == 0
                && Reader.LineOf(f.text, Read(f, s, e.bound).entries[k].end) == line
  }

  ghost predicate WasSilent(f: Feed, states: seq<State>, events: seq<Event>, n: nat, line: nat)
    requires |states| > |events| >= n
  {
    exists i :: 0 <= i < n && FindsSilent(f, states[i], events[i], line)
  }

  /** A delivery is interrupted before its outcome is recorded. */
  ghost predicate Breaks(s: State, e: Event, target: Target, source: nat) {
    (e.Abort? || e.Restart?) && InSending(s) && NextTarget(s) == target && Source(s.phase.batch) == source
  }

  /** A content reaches the target. */
  ghost predicate Arrives(s: State, e: Event, target: Target, source: nat) {
    Settles(s, e, target, source, Delivered) || (Breaks(s, e, target, source) && e.arrived)
  }

  /** How many contents of messages with this offset reached the target. */
  ghost function Arrivals(states: seq<State>, events: seq<Event>, n: nat, target: Target, source: nat): nat
    requires |states| > |events| >= n
  {
    if n == 0 then 0
    else
      var before := Arrivals(states, events, n - 1, target, source);
      if Arrives(states[n - 1], events[n - 1], target, source) then before + 1 else before
  }

  ghost function Breakdowns(states: seq<State>, events: seq<Event>, n: nat, target: Target, source: nat): nat
    requires |states| > |events| >= n
  {
    if n == 0 then 0
    else
      var before := Breakdowns(states, events, n - 1, target, source);
      if Breaks(states[n - 1], events[n - 1], target, source) then before + 1 else before
  }

  // --- The history tells the events ---

  lemma StepTells(f: Feed, s: State, e: Event, target: Target, source: nat)
    requires Enabled(f, s, e)
    ensures var before, after, one := s.history, Step(f, s, e).history, (target, source);
            && (one in after.received <==>
                  || one in before.received || Settles(s, e, target, source, Delivered)
                  || Settles(s, e, target, source, Quiet))
            && (one in after.hidden <==> one in before.hidden || Settles(s, e, target, source, Hidden))
            && after.sends[one] == before.sends[one] + (if Arrives(s, e, target, source) then 1 else 0)
            && after.unknown[one] == before.unknown[one] + (if Breaks(s, e, target, source) then 1 else 0)
  {
    hide HasIt, Marked, Read, Start, Messages, Silent;
  }

  lemma StepTellsSilent(f: Feed, s: State, e: Event, line: nat)
    requires Enabled(f, s, e)
    ensures line in Step(f, s, e).history.silent <==> line in s.history.silent || FindsSilent(f, s, e, line)
  {
    hide HasIt, Marked, Read, Start, Messages, Reader.LineOf;
  }

  lemma StepOf(f: Feed, states: seq<State>, events: seq<Event>, n: nat)
    requires Run(f, states, events) && n < |events|
    ensures Enabled(f, states[n], events[n]) && |states| == |events| + 1
    ensures states[n + 1] == Step(f, states[n], events[n])
  {
    hide Enabled, Step;
  }

  lemma {:induction false} HistoryTells(f: Feed, states: seq<State>, events: seq<Event>, n: nat, target: Target,
                                        source: nat)
    requires Run(f, states, events) && n <= |events|
    ensures var h, one := states[n].history, (target, source);
            && (one in h.received <==> Got(states, events, n, target, source))
            && (one in h.hidden <==> Was(states, events, n, target, source, Hidden))
            && h.sends[one] == Arrivals(states, events, n, target, source)
            && h.unknown[one] == Breakdowns(states, events, n, target, source)
  {
    if n > 0 {
      HistoryTells(f, states, events, n - 1, target, source);
      StepOf(f, states, events, n - 1);
      hide Step, Enabled, Settles, Arrives, Breaks, Run;
      StepTells(f, states[n - 1], events[n - 1], target, source);
    }
  }

  lemma {:induction false} HistoryTellsSilent(f: Feed, states: seq<State>, events: seq<Event>, n: nat, line: nat)
    requires Run(f, states, events) && n <= |events|
    ensures line in states[n].history.silent <==> WasSilent(f, states, events, n, line)
  {
    if n > 0 {
      HistoryTellsSilent(f, states, events, n - 1, line);
      StepOf(f, states, events, n - 1);
      hide Step, Enabled, FindsSilent, Run;
      StepTellsSilent(f, states[n - 1], events[n - 1], line);
    }
  }

  /** No duplicates: of all messages with one offset, at most one content reaches one
      recipient, plus one for each delivery whose outcome was never recorded, however often
      the batch is replayed for the sake of others. */
  lemma NoDuplicates(f: Feed, states: seq<State>, events: seq<Event>, n: nat, recipient: Recipient, source: nat)
    requires Run(f, states, events) && n <= |events| && source > 0
    ensures Arrivals(states, events, n, Local(recipient), source)
            <= 1 + Breakdowns(states, events, n, Local(recipient), source)
  {
    HistoryTells(f, states, events, n, Local(recipient), source);
    RunNoRepeat(f, states, events, n);
    var one, h := (Local(recipient), source), states[n].history;
    assert h.sends[one] <= 1 + h.unknown[one];
  }

  // --- What a cursor stands for ---

  /** The cursor is the furthest message that the recipient received. */
  ghost predicate Furthest(cursors: map<Recipient, nat>, received: set<(Target, nat)>, r: Recipient) {
    && (r in cursors ==> cursors[r] > 0 && (Local(r), cursors[r]) in received)
    && (forall m: nat :: m > 0 && (Local(r), m) in received ==> r in cursors && m <= cursors[r])
  }

  lemma StepFurthest(f: Feed, s: State, e: Event, r: Recipient)
    requires Enabled(f, s, e) && NoRepeat(s) && Furthest(s.cursors, s.history.received, r)
    ensures Furthest(Step(f, s, e).cursors, Step(f, s, e).history.received, r)
  {
    hide Read, Start, Messages, Silent, SendsOk, ServedOk, CallOk;
  }

  lemma {:induction false} RunFurthest(f: Feed, states: seq<State>, events: seq<Event>, n: nat, r: Recipient)
    requires Run(f, states, events) && n <= |events|
    ensures Furthest(states[n].cursors, states[n].history.received, r)
  {
    if n > 0 {
      RunFurthest(f, states, events, n - 1, r);
      RunNoRepeat(f, states, events, n - 1);
      StepOf(f, states, events, n - 1);
      hide *;
      StepFurthest(f, states[n - 1], events[n - 1], r);
    }
  }

  /** A recipient's cursor is the furthest message that was delivered to it, or needed no
      content there, and nothing else ever moves it: not a refusal, not an interruption,
      not a message that is hidden from it. */
  lemma CursorsComeFromDeliveries(f: Feed, states: seq<State>, events: seq<Event>, n: nat, r: Recipient)
    requires Run(f, states, events) && n <= |events|
    ensures r in states[n].cursors ==>
              states[n].cursors[r] > 0 && Got(states, events, n, Local(r), states[n].cursors[r])
    ensures forall m: nat :: m > 0 && Got(states, events, n, Local(r), m) ==>
              r in states[n].cursors && m <= states[n].cursors[r]
  {
    RunFurthest(f, states, events, n, r);
    hide Got;
    forall m: nat ensures (Local(r), m) in states[n].history.received <==> Got(states, events, n, Local(r), m) {
      HistoryTells(f, states, events, n, Local(r), m);
    }
  }

  /** What an acknowledgement means for a recipient among the targets of the message: the
      message is hidden from it by configuration, or it has received it or a later one. */
  lemma AcknowledgedIsServed(f: Feed, states: seq<State>, events: seq<Event>, i: nat, recipient: Recipient)
    requires Run(f, states, events) && i < |events| && events[i].Return?
    requires Enabled(f, states[i], events[i]) && !states[i].phase.call.refused
    requires Local(recipient) in states[i].phase.call.targets && Source(states[i].phase.batch) > 0
    ensures var source := Source(states[i].phase.batch);
            || Was(states, events, i, Local(recipient), source, Hidden)
            || exists m: nat :: m >= source && Got(states, events, i, Local(recipient), m)
  {
    var s, source := states[i], Source(states[i].phase.batch);
    RunNoRepeat(f, states, events, i);
    var k :| 0 <= k < |s.phase.call.targets| && s.phase.call.targets[k] == Local(recipient);
    assert Served(s.cursors, s.history.hidden, Local(recipient), source);
    HistoryTells(f, states, events, i, Local(recipient), source);
    CursorsComeFromDeliveries(f, states, events, i, recipient);
    hide Was, Got;
  }

  // --- Every line reaches ---

  ghost predicate ResolvedBy(f: Feed, h: History, r: Recipient, line: nat, m: nat) {
    Reader.LineOf(f.text, m) == line && ((Local(r), m) in h.received || (Local(r), m) in h.hidden)
  }

  /** The line yields no message, or one of its messages was received, or is hidden. */
  ghost predicate Resolved(f: Feed, h: History, r: Recipient, line: nat) {
    line in h.silent || exists m: nat :: ResolvedBy(f, h, r, line, m)
  }

  ghost predicate LineResolved(f: Feed, h: History, r: Recipient, m: nat) {
    m > 0 && (Entry(f, Reader.LineOf(f.text, m)) ==> Resolved(f, h, r, Reader.LineOf(f.text, m)))
  }

  ghost predicate BelowOk(f: Feed, cursors: map<Recipient, nat>, h: History, r: Recipient) {
    r in cursors ==> forall line: nat :: Entry(f, line) && line < cursors[r] ==> Resolved(f, h, r, line)
  }

  ghost predicate PassedOk(cursors: map<Recipient, nat>, h: History, r: Recipient) {
    h.passed > 0 ==> r in cursors && h.passed <= cursors[r]
  }

  ghost predicate AckedOk(f: Feed, h: History, r: Recipient) {
    forall m :: m in h.acked ==> LineResolved(f, h, r, m)
  }

  ghost predicate DoneOk(f: Feed, h: History, phase: Phase, r: Recipient) {
    phase.Calling? || phase.Sending? ==>
      && Local(r) in phase.call.targets && phase.call.done <= |phase.call.targets|
      && phase.batch.index < |phase.batch.messages|
      && (Source(phase.batch) > 0 && Local(r) in phase.call.targets[..phase.call.done] && !phase.call.refused ==>
            LineResolved(f, h, r, Source(phase.batch)))
  }

  ghost predicate MidOk(f: Feed, h: History, phase: Phase, r: Recipient) {
    MidLine(phase) ==> LineResolved(f, h, r, Source(phase.batch))
  }

  ghost predicate Tended(f: Feed, s: State, r: Recipient) {
    && BelowOk(f, s.cursors, s.history, r)
    && PassedOk(s.cursors, s.history, r)
    && AckedOk(f, s.history, r)
    && DoneOk(f, s.history, s.phase, r)
    && MidOk(f, s.history, s.phase, r)
  }

  /** The recipient is among the targets of every message, and bound, with a cursor in the
      file, at every poll that is fast-forwarded. */
  ghost predicate Attends(s: State, e: Event, r: Recipient) {
    match e
    case Notify(targets) => Local(r) in targets
    case Poll(bound, counts, saved) =>
      Start(s, bound) > From(s.offsets.tracked) ==> r in bound && r in s.cursors && 0 < s.cursors[r] <= s.size
    case _ => true
  }

  ghost predicate AlwaysThere(f: Feed, states: seq<State>, events: seq<Event>, r: Recipient)
    requires Run(f, states, events)
  {
    forall i :: 0 <= i < |events| ==> Attends(states[i], events[i], r)
  }

  lemma HistoryGrows(f: Feed, s: State, e: Event)
    requires Enabled(f, s, e)
    ensures var before, after := s.history, Step(f, s, e).history;
            && before.silent <= after.silent && before.received <= after.received && before.hidden <= after.hidden
  {
    hide HasIt, Marked, Read, Start, Messages, Silent;
  }

  lemma ResolvedLater(f: Feed, before: History, after: History, r: Recipient)
    requires before.silent <= after.silent && before.received <= after.received && before.hidden <= after.hidden
    ensures forall line: nat :: Resolved(f, before, r, line) ==> Resolved(f, after, r, line)
    ensures forall m: nat :: LineResolved(f, before, r, m) ==> LineResolved(f, after, r, m)
  {
    hide Reader.LineOf, Entry;
    forall line: nat | Resolved(f, before, r, line) ensures Resolved(f, after, r, line) {
      if m: nat :| ResolvedBy(f, before, r, line, m) {
        assert ResolvedBy(f, after, r, line, m);
      }
    }
  }

  /** Whatever is handled is resolved for a recipient that attended. */
  lemma HandledResolved(f: Feed, s: State, r: Recipient, line: nat)
    requires Tended(f, s, r) && Entry(f, line) && Handled(f, s.history, line)
    ensures Resolved(f, s.history, r, line)
  {
    hide Reader.LineOf, Entry, DoneOk, MidOk;
  }

  /** Everything below the message at the index is resolved once the message is. */
  lemma BelowSource(f: Feed, s: State, h: History, r: Recipient, line: nat)
    requires Tended(f, s, r) && Safe(f, s) && InSending(s) && Source(s.phase.batch) > 0
    requires s.history.silent <= h.silent && s.history.received <= h.received && s.history.hidden <= h.hidden
    requires (Local(r), Source(s.phase.batch)) in h.received
    requires Entry(f, line) && line < Source(s.phase.batch)
    ensures Resolved(f, h, r, line)
  {
    ResolvedLater(f, s.history, h, r);
    if Handled(f, s.history, line) {
      HandledResolved(f, s, r, line);
    } else {
      OwnLine(f, s, line);
      hide Reader.LineOf, Entry;
      assert ResolvedBy(f, h, r, line, Source(s.phase.batch));
    }
  }

  lemma SettledTended(f: Feed, s: State, result: Result, r: Recipient)
    requires Tended(f, s, r) && Safe(f, s) && NoRepeat(s) && Enabled(f, s, Settle(result))
    ensures Tended(f, Settled(s, result), r)
  {
    var n, source := Settled(s, result), Source(s.phase.batch);
    HistoryGrows(f, s, Settle(result));
    ResolvedLater(f, s.history, n.history, r);
    hide Reader.LineOf, Entry, Safe, Resolved;
    assert BelowOk(f, n.cursors, n.history, r) by {
      if r in n.cursors && !(r in s.cursors && n.cursors[r] == s.cursors[r]) {
        forall line: nat | Entry(f, line) && line < n.cursors[r] ensures Resolved(f, n.history, r, line) {
          BelowSource(f, s, n.history, r, line);
        }
      }
    }
    assert PassedOk(n.cursors, n.history, r);
    hide HasIt, Marked, NoRepeat;
    assert DoneOk(f, n.history, n.phase, r) by {
      if NextTarget(s) == Local(r) && !result.Refused? && source > 0 {
        SettledResolves(f, n.history, r, source);
      }
    }
    assert MidOk(f, n.history, n.phase, r);
  }

  lemma SettledResolves(f: Feed, h: History, r: Recipient, source: nat)
    requires source > 0 && ((Local(r), source) in h.received || (Local(r), source) in h.hidden)
    ensures LineResolved(f, h, r, source)
  {
    hide Reader.LineOf, Entry;
    assert ResolvedBy(f, h, r, Reader.LineOf(f.text, source), source);
  }

  lemma SkippedTended(f: Feed, s: State, r: Recipient)
    requires Tended(f, s, r) && Enabled(f, s, Skip)
    ensures Tended(f, Step(f, s, Skip), r)
  {
    hide Entry, Resolved;
    var n := Step(f, s, Skip);
    if NextTarget(s) == Local(r) && Source(s.phase.batch) > 0 {
      assert LineResolved(f, s.history, r, Source(s.phase.batch));
    }
    hide LineResolved, Reader.LineOf;
    assert n.phase.call.targets[..n.phase.call.done] == s.phase.call.targets[..s.phase.call.done] + [NextTarget(s)];
  }

  lemma ReturnedTended(f: Feed, s: State, saved: bool, r: Recipient)
    requires Tended(f, s, r) && Enabled(f, s, Return(saved))
    ensures Tended(f, Returned(s, saved), r)
  {
    var n := Returned(s, saved);
    HistoryGrows(f, s, Return(saved));
    ResolvedLater(f, s.history, n.history, r);
    hide Reader.LineOf, Entry, Resolved, LineResolved;
    assert s.phase.call.targets[..s.phase.call.done] == s.phase.call.targets;
  }

  lemma PolledTended(f: Feed, s: State, bound: set<Recipient>, counts: seq<nat>, saved: bool, r: Recipient)
    requires Tended(f, s, r) && Enabled(f, s, Poll(bound, counts, saved)) && Attends(s, Poll(bound, counts, saved), r)
    ensures Tended(f, Polled(f, s, bound, counts, saved), r)
  {
    var n := Polled(f, s, bound, counts, saved);
    HistoryGrows(f, s, Poll(bound, counts, saved));
    ResolvedLater(f, s.history, n.history, r);
    PolledIs(f, s, bound, counts, saved);
    hide Polled;
    if Start(s, bound) > From(s.offsets.tracked) {
      FastForwardWaits(s, bound, r);
    }
    hide Start, Entry, Resolved, LineResolved;
  }

  lemma PolledIs(f: Feed, s: State, bound: set<Recipient>, counts: seq<nat>, saved: bool)
    requires Enabled(f, s, Poll(bound, counts, saved))
    ensures var n, start := Polled(f, s, bound, counts, saved), Start(s, bound);
            && n.cursors == s.cursors && n.history.acked == s.history.acked
            && n.history.passed == Passed(s, start) && (n.phase.Idle? || (n.phase.Group? && n.phase.batch.index == 0))
  {
    hide Read, Start, Messages, Silent;
  }

  lemma QuietTended(f: Feed, s: State, e: Event, r: Recipient)
    requires Tended(f, s, r) && Enabled(f, s, e) && Attends(s, e, r)
    requires !e.Poll? && !e.Return? && !e.Settle? && !e.Skip?
    ensures Tended(f, Step(f, s, e), r)
  {
    var n := Step(f, s, e);
    HistoryGrows(f, s, e);
    ResolvedLater(f, s.history, n.history, r);
    hide Reader.LineOf, Entry, Resolved, LineResolved, HasIt;
  }

  lemma StepTended(f: Feed, s: State, e: Event, r: Recipient)
    requires Tended(f, s, r) && Safe(f, s) && NoRepeat(s) && Enabled(f, s, e) && Attends(s, e, r)
    ensures Tended(f, Step(f, s, e), r)
  {
    hide Tended, Safe, NoRepeat, Polled, Returned, Settled;
    match e
    case Poll(bound, counts, saved) => PolledTended(f, s, bound, counts, saved, r);
    case Return(saved) => ReturnedTended(f, s, saved, r);
    case Settle(result) => SettledTended(f, s, result, r);
    case Skip => SkippedTended(f, s, r);
    case _ => QuietTended(f, s, e, r);
  }

  lemma {:induction false} RunTended(f: Feed, states: seq<State>, events: seq<Event>, n: nat, r: Recipient)
    requires Run(f, states, events) && n <= |events| && NoDrops(f, states, events, n)
    requires AlwaysThere(f, states, events, r)
    ensures Tended(f, states[n], r)
  {
    if n > 0 {
      RunTended(f, states, events, n - 1, r);
      RunSafe(f, states, events, n - 1);
      RunNoRepeat(f, states, events, n - 1);
      StepOf(f, states, events, n - 1);
      assert Attends(states[n - 1], events[n - 1], r);
      hide *;
      StepTended(f, states[n - 1], events[n - 1], r);
    }
  }

  /** A recipient that attends the whole run: for each entry line that starts below the
      saved offset, a poll read it and it yielded no message, or one of its messages was
      delivered to the recipient, or needed no content there, or is hidden from it. */
  lemma EveryLineReaches(f: Feed, states: seq<State>, events: seq<Event>, n: nat, r: Recipient, line: nat)
    requires Run(f, states, events) && n <= |events| && NoDrops(f, states, events, n)
    requires AlwaysThere(f, states, events, r)
    requires Entry(f, line) && line < From(states[n].disk)
    ensures WasSilent(f, states, events, n, line)
            || exists m: nat :: && Reader.LineOf(f.text, m) == line
                                && (Got(states, events, n, Local(r), m) || Was(states, events, n, Local(r), m, Hidden))
  {
    var s := states[n];
    RunTended(f, states, events, n, r);
    TranscriptNotLost(f, states, events, n, line);
    if Handled(f, s.history, line) {
      HandledResolved(f, s, r, line);
    }
    HistoryTellsSilent(f, states, events, n, line);
    hide Handled, Reader.LineOf, Entry, Was, Got, WasSilent, BelowOk, AckedOk, DoneOk;
    assert Resolved(f, s.history, r, line);
    if m: nat :| ResolvedBy(f, s.history, r, line, m) {
      HistoryTells(f, states, events, n, Local(r), m);
    }
  }
}
