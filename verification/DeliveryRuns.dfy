/** Every run of the delivery of one transcript: a growing file, polls that read what is
    visible of it, pauses, failing and interrupted deliveries, failing saves, restarts. */
module DeliveryRuns {
  import opened Basics
  import opened Delivery
  import Reader = TranscriptReader

  /** What the reader makes of a line, and the whole text that the agent will have
      written; at any moment a prefix of it is visible. */
  datatype Feed = Feed(parser: Reader.Parser, text: string)

  /** The batch of one poll and the position in it. */
  datatype Batch = Batch(messages: seq<nat>, index: nat)

  /** The callback working on the message at the batch index: `done` targets are handled
      already, `refused` if one of them failed. */
  datatype Call = Call(targets: seq<Target>, done: nat, refused: bool)

  datatype Phase =
    | Idle
    | Group(batch: Batch)
    | Calling(batch: Batch, call: Call)
    | Sending(batch: Batch, call: Call)   // one delivery is in progress

  /** `silent` are the starts of lines that were read and yielded no message, `acked` the
      offsets of lines all of whose messages were acknowledged, `passed` the furthest
      fast-forward point used. `received` are the messages whose content was delivered to a
      target, or that needed no content there, `hidden` those that it is configured not to
      see, `served` those acknowledged while it was among the targets. `sends` counts the
      contents that reached a target, `unknown` the deliveries that were interrupted before
      their outcome was recorded. */
  datatype History = History(
    silent: set<nat>,
    acked: set<nat>,
    passed: nat,
    served: set<(Target, nat)>,
    received: set<(Target, nat)>,
    hidden: set<(Target, nat)>,
    sends: multiset<(Target, nat)>,
    unknown: multiset<(Target, nat)>)

  datatype State = State(
    size: nat,                      // how much of the text is visible
    disk: Option<nat>,
    offsets: Offsets,
    cursors: map<Recipient, nat>,   // cursors recorded for this session
    phase: Phase,
    history: History)

  /** `counts[k]` tells how many messages entry `k` of the poll yields, `saved` whether a
      write of the monitor state reached the disk, `arrived` whether an interrupted
      delivery had reached its target. */
  datatype Event =
    | Append(size: nat)
    | Poll(bound: set<Recipient>, counts: seq<nat>, saved: bool)
    | Notify(targets: seq<Target>)
    | Skip
    | Attempt
    | Settle(result: Result)
    | Return(saved: bool)
    | Complete(saved: bool)
    | Pause
    | Abort(arrived: bool)
    | Flush
    | Restart(arrived: bool)

  ghost function From(o: Option<nat>): nat {
    if o.Some? then o.value else 0
  }

  /** The earliest cursor among the bound recipients that have one within the file. */
  ghost predicate IsResumePoint(cursors: map<Recipient, nat>, bound: set<Recipient>, size: nat, point: nat) {
    var known := set r | r in bound && r in cursors && 0 < cursors[r] <= size;
    && (known == {} ==> point == 0)
    && (known != {} ==>
          (exists r :: r in known && cursors[r] == point) && forall r :: r in known ==> point <= cursors[r])
  }

  ghost function ResumePoint(cursors: map<Recipient, nat>, bound: set<Recipient>, size: nat): (point: nat)
    ensures IsResumePoint(cursors, bound, size, point)
  {
    var known := set r | r in bound && r in cursors && 0 < cursors[r] <= size;
    if known == {} then 0 else Earliest(cursors, known)
  }

  ghost function Earliest(cursors: map<Recipient, nat>, known: set<Recipient>): (point: nat)
    requires known != {} && known <= cursors.Keys
    ensures exists r :: r in known && cursors[r] == point
    ensures forall r :: r in known ==> point <= cursors[r]
  {
    var r :| r in known;
    if known == {r} then cursors[r] else Min(cursors[r], Earliest(cursors, known - {r}))
  }

  ghost function Visible(f: Feed, size: nat): string {
    f.text[..Min(size, |f.text|)]
  }

  /** Where the poll starts reading. */
  ghost function Start(s: State, bound: set<Recipient>): nat {
    var resume := ResumePoint(s.cursors, bound, s.size);
    if resume > From(s.offsets.tracked) then resume else From(s.offsets.tracked)
  }

  /** What the poll reads. */
  ghost function Read(f: Feed, s: State, bound: set<Recipient>): Reader.Pass {
    Reader.Poll(f.parser, Visible(f, s.size), Start(s, bound))
  }

  ghost function Copies(source: nat, n: nat): seq<nat> {
    seq(n, _ => source)
  }

  /** The messages of the entries, each with the offset of its line. */
  ghost function Sources(entries: seq<Reader.Entry>, counts: seq<nat>): seq<nat>
    requires |counts| == |entries|
  {
    if entries == [] then []
    else
      var n := |entries| - 1;
      Sources(entries[..n], counts[..n]) + Copies(entries[n].end, counts[n])
  }

  /** Usage-limit notices come first. */
  ghost function Messages(r: Reader.Pass, counts: seq<nat>): seq<nat>
    requires |counts| == |r.entries|
  {
    Copies(0, |r.limits|) + Sources(r.entries, counts)
  }

  /** The lines that yield no message. */
  ghost function Silent(f: Feed, entries: seq<Reader.Entry>, counts: seq<nat>): set<nat>
    requires |counts| == |entries|
  {
    set k | 0 <= k < |entries| && counts[k] == 0 :: Reader.LineOf(f.text, entries[k].end)
  }

  ghost function Source(b: Batch): nat
    requires b.index < |b.messages|
  {
    b.messages[b.index]
  }

  ghost function Save(s: State, saved: bool): State {
    if saved then s.(disk := s.offsets.tracked) else s
  }

  ghost function Passed(s: State, start: nat): nat {
    if start > From(s.offsets.tracked) && start > s.history.passed then start else s.history.passed
  }

  ghost function Polled(f: Feed, s: State, bound: set<Recipient>, counts: seq<nat>, saved: bool): State
    requires |counts| == |Read(f, s, bound).entries|
  {
    var start, r := Start(s, bound), Read(f, s, bound);
    var batch := Messages(r, counts);
    var read := s.(
      offsets := s.offsets.(deferred := Some(r.offset)),
      history := s.history.(passed := Passed(s, start),
                            silent := s.history.silent + Silent(f, r.entries, counts)));
    if batch == [] then Save(read.(offsets := Committed(read.offsets)), saved)
    else read.(phase := Group(Batch(batch, 0)))
  }

  /** The message at the index is the last one of its line. */
  ghost predicate LastOfLine(b: Batch)
    requires b.index < |b.messages|
  {
    b.index + 1 == |b.messages| || b.messages[b.index + 1] != Source(b)
  }

  /** The callback has been through all targets: it raises, or the message is
      acknowledged and the offset committed this far. */
  ghost function Returned(s: State, saved: bool): State
    requires s.phase.Calling? && s.phase.batch.index < |s.phase.batch.messages|
  {
    var batch, call := s.phase.batch, s.phase.call;
    var source := Source(batch);
    if call.refused then Aborted(s, false)
    else
      var acked := s.(
        offsets := DeliveredTo(s.offsets, source),
        history := s.history.(acked := if source > 0 && LastOfLine(batch) then s.history.acked + {source}
                                       else s.history.acked,
                              served := s.history.served + (set t | t in call.targets :: (t, source))),
        phase := Group(batch.(index := batch.index + 1)));
      if source == 0 then acked else Save(acked, saved)
  }

  ghost function NextTarget(s: State): Target
    requires s.phase.Calling? || s.phase.Sending?
    requires s.phase.call.done < |s.phase.call.targets|
  {
    s.phase.call.targets[s.phase.call.done]
  }

  ghost predicate InSending(s: State) {
    s.phase.Sending? && s.phase.call.done < |s.phase.call.targets| && s.phase.batch.index < |s.phase.batch.messages|
  }

  ghost function Settled(s: State, result: Result): State
    requires InSending(s)
  {
    var call, source, h := s.phase.call, Source(s.phase.batch), s.history;
    var one := (NextTarget(s), source);
    s.(cursors := Marked(s.cursors, NextTarget(s), source, result),
       phase := Calling(s.phase.batch, call.(done := call.done + 1, refused := call.refused || result.Refused?)),
       history := h.(sends := if result.Delivered? then h.sends + multiset{one} else h.sends,
                     received := if result.Delivered? || result.Quiet? then h.received + {one} else h.received,
                     hidden := if result.Hidden? then h.hidden + {one} else h.hidden))
  }

  /** The group is given up, by an error, a timeout or a cancellation. */
  ghost function Aborted(s: State, arrived: bool): State {
    var h := s.history;
    s.(phase := Idle,
       offsets := s.offsets.(deferred := None),
       history := if !InSending(s) then h
                  else
                    var one := (NextTarget(s), Source(s.phase.batch));
                    h.(unknown := h.unknown + multiset{one},
                       sends := if arrived then h.sends + multiset{one} else h.sends))
  }

  ghost predicate Enabled(f: Feed, s: State, e: Event) {
    match e
    case Append(size) => s.size <= size <= |f.text|
    case Poll(bound, counts, saved) => s.phase.Idle? && |counts| == |Read(f, s, bound).entries|
    case Notify(targets) =>
      s.phase.Group? && s.phase.batch.index < |s.phase.batch.messages| && s.phase.batch.index < GROUP_LIMIT
    case Skip =>
      && s.phase.Calling? && s.phase.call.done < |s.phase.call.targets|
      && s.phase.batch.index < |s.phase.batch.messages|
      && HasIt(s.cursors, NextTarget(s), Source(s.phase.batch))
    case Attempt =>
      && s.phase.Calling? && s.phase.call.done < |s.phase.call.targets|
      && s.phase.batch.index < |s.phase.batch.messages|
      && !HasIt(s.cursors, NextTarget(s), Source(s.phase.batch))
    case Settle(result) => InSending(s) && !result.Raised?
    case Return(saved) =>
      && s.phase.Calling? && s.phase.batch.index < |s.phase.batch.messages|
      && s.phase.call.done == |s.phase.call.targets|
    case Complete(saved) => s.phase.Group? && s.phase.batch.index == |s.phase.batch.messages|
    case Pause => s.phase.Group? && 0 < s.phase.batch.index < |s.phase.batch.messages|
    case Abort(arrived) => !s.phase.Idle?
    case Flush => true
    case Restart(arrived) => true
  }

  ghost function Step(f: Feed, s: State, e: Event): State
    requires Enabled(f, s, e)
  {
    match e
    case Append(size) => s.(size := size)
    case Poll(bound, counts, saved) => Polled(f, s, bound, counts, saved)
    case Notify(targets) => s.(phase := Calling(s.phase.batch, Call(targets, 0, false)))
    case Skip => s.(phase := Calling(s.phase.batch, s.phase.call.(done := s.phase.call.done + 1)))
    case Attempt => s.(phase := Sending(s.phase.batch, s.phase.call))
    case Settle(result) => Settled(s, result)
    case Return(saved) => Returned(s, saved)
    case Complete(saved) => Save(s.(phase := Idle, offsets := Committed(s.offsets)), saved)
    case Pause => Aborted(s, false)
    case Abort(arrived) => Aborted(s, arrived)
    case Flush => Save(s, true)
    case Restart(arrived) => Aborted(s, arrived).(offsets := Offsets(s.disk, None))
  }

  ghost function Initial(): State {
    State(0, None, Offsets(None, None), map[], Idle, History({}, {}, 0, {}, {}, {}, multiset{}, multiset{}))
  }

  ghost predicate Run(f: Feed, states: seq<State>, events: seq<Event>) {
    && |states| == |events| + 1
    && states[0] == Initial()
    && forall i :: 0 <= i < |events| ==>
         Enabled(f, states[i], events[i]) && states[i + 1] == Step(f, states[i], events[i])
  }

  // --- Lost lines ---

  /** The line at `start` yielded no message, or all its messages were acknowledged. */
  ghost predicate Finished(f: Feed, h: History, start: nat) {
    start in h.silent || exists m :: m in h.acked && Reader.LineOf(f.text, m) == start
  }

  ghost predicate Handled(f: Feed, h: History, start: nat) {
    Finished(f, h, start) || start < h.passed
  }

  /** The line at `start` has a message from the index on. */
  ghost predicate InBatch(f: Feed, messages: seq<nat>, index: nat, start: nat) {
    exists i :: && index <= i < |messages| && messages[i] > 0
                && Reader.LineOf(f.text, messages[i]) == start
  }

  ghost predicate Waits(f: Feed, phase: Phase, start: nat) {
    !phase.Idle? && InBatch(f, phase.batch.messages, phase.batch.index, start)
  }

  /** How far the monitor has read. */
  ghost function ReadTo(o: Offsets): nat {
    if o.deferred.Some? then o.deferred.value else From(o.tracked)
  }

  ghost predicate Entry(f: Feed, start: nat) {
    Reader.IsEntry(f.parser, f.text, start)
  }

  /** An entry line that the monitor has read past, and that is neither handled, nor
      behind a fast-forward point, nor still in its batch. */
  ghost predicate Lost(f: Feed, s: State, start: nat) {
    && Entry(f, start) && start < ReadTo(s.offsets)
    && !Handled(f, s.history, start) && !Waits(f, s.phase, start)
  }

  ghost predicate NothingLost(f: Feed, s: State) {
    forall start: nat :: !Lost(f, s, start)
  }

  /** The poll moves past an entry line that it does not return. */
  ghost predicate Passes(f: Feed, s: State, bound: set<Recipient>, start: nat) {
    var r := Read(f, s, bound);
    && Entry(f, start) && Start(s, bound) <= start < r.offset
    && !Finished(f, s.history, start) && start >= Passed(s, Start(s, bound))
    && forall k :: 0 <= k < |r.entries| ==> Reader.LineOf(f.text, r.entries[k].end) != start
  }

  ghost predicate SkipsNew(f: Feed, s: State, bound: set<Recipient>) {
    exists start: nat :: Passes(f, s, bound, start)
  }

  /** The message at the index is not the first one of its line. */
  ghost predicate MidLine(phase: Phase) {
    !phase.Idle? &&
    var b := phase.batch;
    0 < b.index < |b.messages| && b.messages[b.index] == b.messages[b.index - 1] > 0
  }

  /** The group is given up between two messages of one line, behind which the offset is
      already. */
  ghost predicate Splits(f: Feed, s: State, offset: nat) {
    MidLine(s.phase) &&
    var start := Reader.LineOf(f.text, Source(s.phase.batch));
    Entry(f, start) && start < offset && !Handled(f, s.history, start)
  }

  ghost predicate Drops(f: Feed, s: State, e: Event) {
    match e
    case Poll(bound, counts, saved) => SkipsNew(f, s, bound)
    case Return(saved) => s.phase.Calling? && s.phase.call.refused && Splits(f, s, From(s.offsets.tracked))
    case Pause => Splits(f, s, From(s.offsets.tracked))
    case Abort(arrived) => Splits(f, s, From(s.offsets.tracked))
    case Restart(arrived) => Splits(f, s, From(s.disk))
    case _ => false
  }

  // --- The shape of offsets and batches ---

  ghost predicate OffsetsOk(disk: Option<nat>, offsets: Offsets, size: nat) {
    && From(disk) <= From(offsets.tracked) <= size
    && (offsets.deferred.Some? ==> From(offsets.tracked) <= offsets.deferred.value <= size)
  }

  /** Messages stand in the order of their lines. */
  ghost predicate InLines(f: Feed, messages: seq<nat>) {
    forall i, j :: 0 <= i < j < |messages| && messages[i] > 0 ==>
      && messages[i] <= messages[j]
      && (messages[i] < messages[j] ==> messages[i] <= Reader.LineOf(f.text, messages[j]))
  }

  ghost predicate BatchOk(f: Feed, offsets: Offsets, b: Batch) {
    && offsets.deferred.Some? && b.index <= |b.messages|
    && InLines(f, b.messages)
    && (forall i :: b.index <= i < |b.messages| && b.messages[i] > 0 ==>
          From(offsets.tracked) <= b.messages[i] <= offsets.deferred.value)
    && (b.index > 0 && b.messages[b.index - 1] > 0 ==> From(offsets.tracked) == b.messages[b.index - 1])
  }

  ghost predicate PhaseOk(f: Feed, offsets: Offsets, phase: Phase) {
    match phase
    case Idle => offsets.deferred.None?
    case Group(b) => BatchOk(f, offsets, b)
    case Calling(b, call) => BatchOk(f, offsets, b) && b.index < |b.messages|
    case Sending(b, call) => BatchOk(f, offsets, b) && b.index < |b.messages|
  }

  /** Every entry line below the offset is handled, or in progress. */
  ghost predicate Covered(f: Feed, h: History, phase: Phase, offset: nat) {
    forall start: nat :: Entry(f, start) && start < offset ==>
      Handled(f, h, start) || (MidLine(phase) && start == Reader.LineOf(f.text, Source(phase.batch)))
  }

  ghost predicate ShapeOk(f: Feed, s: State) {
    && s.size <= |f.text|
    && OffsetsOk(s.disk, s.offsets, s.size)
    && PhaseOk(f, s.offsets, s.phase)
  }

  ghost predicate Safe(f: Feed, s: State) {
    ShapeOk(f, s) && Covered(f, s.history, s.phase, From(s.offsets.tracked)) && NothingLost(f, s)
  }

  /** `source` is the offset of entry `k`, which yields a message. */
  ghost predicate Yields(entries: seq<Reader.Entry>, counts: seq<nat>, source: nat, k: nat)
    requires |counts| == |entries|
  {
    k < |entries| && entries[k].end == source && counts[k] > 0
  }

  lemma {:induction false} SourcesAre(entries: seq<Reader.Entry>, counts: seq<nat>, source: nat)
    requires |counts| == |entries|
    ensures source in Sources(entries, counts) <==> exists k: nat :: Yields(entries, counts, source, k)
  {
    if entries != [] {
      var n := |entries| - 1;
      var before, last := Sources(entries[..n], counts[..n]), Copies(entries[n].end, counts[n]);
      SourcesAre(entries[..n], counts[..n], source);
      assert source in last <==> Yields(entries, counts, source, n) by {
        assert counts[n] > 0 ==> last[0] == entries[n].end;
      }
      assert forall k: nat :: k < n ==>
        (Yields(entries[..n], counts[..n], source, k) <==> Yields(entries, counts, source, k));
      if k: nat :| Yields(entries, counts, source, k) {
        assert k < n ==> Yields(entries[..n], counts[..n], source, k);
      }
      if k: nat :| Yields(entries[..n], counts[..n], source, k) {
        assert Yields(entries, counts, source, k);
      }
    }
  }

  /** The lines of a new batch are those of the entries that yield messages. */
  lemma MessagesAre(f: Feed, r: Reader.Pass, counts: seq<nat>, line: nat)
    requires |counts| == |r.entries|
    requires forall k :: 0 <= k < |r.entries| ==> r.entries[k].end > 0
    ensures InBatch(f, Messages(r, counts), 0, line)
            <==> exists k :: 0 <= k < |r.entries| && counts[k] > 0 && Reader.LineOf(f.text, r.entries[k].end) == line
  {
    var sources, all, zeros := Sources(r.entries, counts), Messages(r, counts), |r.limits|;
    hide Sources, Reader.LineOf;
    if InBatch(f, all, 0, line) {
      var i :| 0 <= i < |all| && all[i] > 0 && Reader.LineOf(f.text, all[i]) == line;
      assert all[i] == sources[i - zeros];
      SourcesAre(r.entries, counts, all[i]);
      var k: nat :| Yields(r.entries, counts, all[i], k);
    }
    if k :| 0 <= k < |r.entries| && counts[k] > 0 && Reader.LineOf(f.text, r.entries[k].end) == line {
      var source := r.entries[k].end;
      assert Yields(r.entries, counts, source, k);
      SourcesAre(r.entries, counts, source);
      var i :| 0 <= i < |sources| && sources[i] == source;
      assert all[zeros + i] == source;
    }
  }

  lemma {:induction false} SourcesInLines(f: Feed, entries: seq<Reader.Entry>, counts: seq<nat>, low: nat, high: nat)
    requires |counts| == |entries| && Reader.EndsAscend(entries, low, high)
    requires Reader.OwnLines(f.text, entries, low)
    ensures InLines(f, Sources(entries, counts))
    ensures forall source :: source in Sources(entries, counts) ==> low < source <= high
  {
    if entries != [] {
      var n := |entries| - 1;
      var init := entries[..n];
      SourcesInLines(f, init, counts[..n], low, high);
      var before := Sources(init, counts[..n]);
      forall i | 0 <= i < |before|
        ensures before[i] < entries[n].end && before[i] <= Reader.LineOf(f.text, entries[n].end)
      {
        SourcesAre(init, counts[..n], before[i]);
        var k: nat :| Yields(init, counts[..n], before[i], k);
        assert init[k] == entries[k];
      }
      hide Reader.LineOf, InLines;
      InLinesAppend(f, before, entries[n].end, counts[n]);
    }
  }

  lemma InLinesAppend(f: Feed, before: seq<nat>, end: nat, count: nat)
    requires InLines(f, before) && end > 0
    requires forall i :: 0 <= i < |before| ==> before[i] < end && before[i] <= Reader.LineOf(f.text, end)
    ensures InLines(f, before + Copies(end, count))
  {
    hide Reader.LineOf;
    var all := before + Copies(end, count);
    assert forall i :: |before| <= i < |all| ==> all[i] == end;
    assert forall i :: 0 <= i < |before| ==> all[i] == before[i];
  }

  lemma InLinesPrepend(f: Feed, zeros: nat, messages: seq<nat>)
    requires InLines(f, messages)
    ensures InLines(f, Copies(0, zeros) + messages)
  {
    hide Reader.LineOf;
    var all := Copies(0, zeros) + messages;
    assert forall i :: zeros <= i < |all| ==> all[i] == messages[i - zeros];
    assert forall i :: 0 <= i < zeros ==> all[i] == 0;
  }

  // --- Polls ---

  lemma ReadEnds(f: Feed, s: State, bound: set<Recipient>)
    requires s.size <= |f.text| && From(s.offsets.tracked) <= s.size
    ensures var start, r := Start(s, bound), Read(f, s, bound);
            && From(s.offsets.tracked) <= start <= r.offset <= s.size
            && Reader.EndsAscend(r.entries, start, r.offset)
            && Reader.OwnLines(f.text, r.entries, start)
  {
    var start := Start(s, bound);
    Reader.PollEnds(f.parser, Visible(f, s.size), start);
    Reader.ScanOwnLines(f.parser, f.text, s.size, start);
    hide Reader.Scan, Reader.LineOf, Reader.LineEnd;
  }

  lemma MessagesInLines(f: Feed, r: Reader.Pass, counts: seq<nat>, low: nat)
    requires |counts| == |r.entries| && Reader.EndsAscend(r.entries, low, r.offset)
    requires Reader.OwnLines(f.text, r.entries, low)
    ensures InLines(f, Messages(r, counts))
    ensures forall i :: 0 <= i < |Messages(r, counts)| && Messages(r, counts)[i] > 0 ==>
              low < Messages(r, counts)[i] <= r.offset
  {
    var sources, all, zeros := Sources(r.entries, counts), Messages(r, counts), |r.limits|;
    SourcesInLines(f, r.entries, counts, low, r.offset);
    InLinesPrepend(f, zeros, sources);
    hide InLines, Sources;
    forall i | 0 <= i < |all| && all[i] > 0 ensures low < all[i] <= r.offset {
      assert all[i] == sources[i - zeros] && sources[i - zeros] in sources;
    }
  }

  lemma PolledShape(f: Feed, s: State, bound: set<Recipient>, counts: seq<nat>, saved: bool)
    requires ShapeOk(f, s) && Enabled(f, s, Poll(bound, counts, saved))
    ensures ShapeOk(f, Polled(f, s, bound, counts, saved))
    ensures From(s.disk) <= From(Polled(f, s, bound, counts, saved).disk)
  {
    hide Start, Read, Reader.LineOf, Reader.OwnLines, Reader.EndsAscend, Messages, Silent, InLines, Reader.IsEntry;
    ReadEnds(f, s, bound);
    MessagesInLines(f, Read(f, s, bound), counts, Start(s, bound));
  }

  lemma PolledSafe(f: Feed, s: State, bound: set<Recipient>, counts: seq<nat>, saved: bool)
    requires Safe(f, s) && Enabled(f, s, Poll(bound, counts, saved)) && !SkipsNew(f, s, bound)
    ensures Safe(f, Polled(f, s, bound, counts, saved))
  {
    var r, n := Read(f, s, bound), Polled(f, s, bound, counts, saved);
    PolledShape(f, s, bound, counts, saved);
    forall line: nat | Entry(f, line) && line < r.offset
      ensures Handled(f, n.history, line) || InBatch(f, Messages(r, counts), 0, line)
    {
      PolledCovers(f, s, bound, counts, saved, line);
    }
    TrackedCovered(f, s, bound, counts, saved);
    hide Start, Read, Entry, Handled, SkipsNew, Messages, Silent, ShapeOk;
    if Messages(r, counts) == [] {
      assert forall line: nat :: !InBatch(f, Messages(r, counts), 0, line);
    }
    hide InBatch;
  }

  lemma TrackedCovered(f: Feed, s: State, bound: set<Recipient>, counts: seq<nat>, saved: bool)
    requires Safe(f, s) && Enabled(f, s, Poll(bound, counts, saved))
    ensures forall line: nat :: Entry(f, line) && line < From(s.offsets.tracked) ==>
              Handled(f, Polled(f, s, bound, counts, saved).history, line)
  {
    var n := Polled(f, s, bound, counts, saved);
    hide Read, Start, Entry, Messages, InBatch;
    forall line: nat | Entry(f, line) && line < From(s.offsets.tracked) ensures Handled(f, n.history, line) {
      HandledLater(f, s.history, n.history, line);
    }
  }

  /** Every entry line up to the new offset is handled or in the batch. */
  lemma PolledCovers(f: Feed, s: State, bound: set<Recipient>, counts: seq<nat>, saved: bool, line: nat)
    requires Safe(f, s) && Enabled(f, s, Poll(bound, counts, saved))
    requires !SkipsNew(f, s, bound) && Entry(f, line) && line < Read(f, s, bound).offset
    ensures var r, h := Read(f, s, bound), Polled(f, s, bound, counts, saved).history;
            Handled(f, h, line) || InBatch(f, Messages(r, counts), 0, line)
  {
    var start, r, h := Start(s, bound), Read(f, s, bound), Polled(f, s, bound, counts, saved).history;
    ReadEnds(f, s, bound);
    MessagesAre(f, r, counts, line);
    HandledLater(f, s.history, h, line);
    hide Read, Reader.LineOf, Messages, Reader.OwnLines, InBatch, NothingLost;
    if line < From(s.offsets.tracked) {
      TrackedCovered(f, s, bound, counts, saved);
    } else if line >= start && !Handled(f, h, line) {
      assert !Passes(f, s, bound, line);
      var k :| 0 <= k < |r.entries| && Reader.LineOf(f.text, r.entries[k].end) == line;
      SilentHas(f, r.entries, counts, k);
    }
  }

  lemma SilentHas(f: Feed, entries: seq<Reader.Entry>, counts: seq<nat>, k: nat)
    requires |counts| == |entries| && k < |entries|
    ensures counts[k] == 0 ==> Reader.LineOf(f.text, entries[k].end) in Silent(f, entries, counts)
  {
  }

  lemma HandledLater(f: Feed, before: History, after: History, line: nat)
    requires before.silent <= after.silent && before.acked <= after.acked && before.passed <= after.passed
    ensures Handled(f, before, line) ==> Handled(f, after, line)
    ensures Finished(f, before, line) ==> Finished(f, after, line)
  {
  }

  /** A line the poll skips is lost. */
  lemma PolledLoses(f: Feed, s: State, bound: set<Recipient>, counts: seq<nat>, saved: bool, line: nat)
    requires ShapeOk(f, s) && Enabled(f, s, Poll(bound, counts, saved)) && Passes(f, s, bound, line)
    ensures Lost(f, Polled(f, s, bound, counts, saved), line)
  {
    var r, n := Read(f, s, bound), Polled(f, s, bound, counts, saved);
    ReadEnds(f, s, bound);
    MessagesAre(f, r, counts, line);
    hide Read, Start, Reader.LineOf, Entry, Messages, InBatch, Reader.OwnLines;
    assert !Finished(f, n.history, line);
  }

  // --- The other steps ---

  lemma ReturnedIs(s: State, saved: bool)
    requires s.phase.Calling? && s.phase.batch.index < |s.phase.batch.messages| && !s.phase.call.refused
    ensures var n, b := Returned(s, saved), s.phase.batch;
            && n.phase == Group(Batch(b.messages, b.index + 1)) && n.size == s.size
            && n.offsets == DeliveredTo(s.offsets, Source(b)) && (n.disk == s.disk || n.disk == n.offsets.tracked)
            && n.history.silent == s.history.silent && n.history.passed == s.history.passed
            && n.history.acked
                 == if Source(b) > 0 && LastOfLine(b) then s.history.acked + {Source(b)} else s.history.acked
  {
  }

  lemma ReturnedShape(f: Feed, s: State, saved: bool)
    requires ShapeOk(f, s) && Enabled(f, s, Return(saved))
    ensures ShapeOk(f, Returned(s, saved)) && From(s.disk) <= From(Returned(s, saved).disk)
  {
    if !s.phase.call.refused {
      ReturnedIs(s, saved);
      NextBatch(f, s.offsets, s.phase.batch);
      hide InLines, BatchOk, Returned;
    } else {
      hide InLines;
    }
  }

  lemma NextBatch(f: Feed, offsets: Offsets, b: Batch)
    requires BatchOk(f, offsets, b) && b.index < |b.messages|
    requires offsets.deferred.Some? ==> From(offsets.tracked) <= offsets.deferred.value
    ensures var o := DeliveredTo(offsets, Source(b));
            && BatchOk(f, o, Batch(b.messages, b.index + 1)) && o.deferred == offsets.deferred
            && From(offsets.tracked) <= From(o.tracked) <= offsets.deferred.value
  {
    hide Reader.LineOf;
    var i := b.index;
    assert forall j :: i < j < |b.messages| && b.messages[i] > 0 ==> b.messages[i] <= b.messages[j];
    hide InLines;
  }

  /** Offsets and batches keep their shape, whatever is lost. */
  lemma StepShape(f: Feed, s: State, e: Event)
    requires ShapeOk(f, s) && Enabled(f, s, e)
    ensures ShapeOk(f, Step(f, s, e)) && From(s.disk) <= From(Step(f, s, e).disk)
  {
    match e
    case Poll(bound, counts, saved) =>
      hide ShapeOk, Polled;
      PolledShape(f, s, bound, counts, saved);
    case Return(saved) =>
      hide ShapeOk, Returned;
      ReturnedShape(f, s, saved);
    case _ => hide InLines, HasIt, Marked;
  }

  lemma ReturnedSafe(f: Feed, s: State, saved: bool)
    requires Safe(f, s) && Enabled(f, s, Return(saved)) && !s.phase.call.refused
    ensures Safe(f, Returned(s, saved))
  {
    hide Reader.LineOf, Entry, ShapeOk, Handled, Waits, Returned, NothingLost;
    var n := Returned(s, saved);
    ReturnedShape(f, s, saved);
    forall line: nat | Entry(f, line) && line < ReadTo(n.offsets) && !Handled(f, n.history, line)
      ensures Waits(f, n.phase, line)
    {
      ReturnedWaits(f, s, saved, line);
    }
    forall line: nat | Entry(f, line) && line < From(n.offsets.tracked) && !Handled(f, n.history, line)
      ensures MidLine(n.phase) && line == Reader.LineOf(f.text, Source(n.phase.batch))
    {
      ReturnedCovers(f, s, saved, line);
    }
    assert NothingLost(f, n) by { NoneLost(f, n); }
  }

  lemma NoneLost(f: Feed, s: State)
    requires forall line: nat :: Entry(f, line) && line < ReadTo(s.offsets) && !Handled(f, s.history, line) ==>
               Waits(f, s.phase, line)
    ensures NothingLost(f, s)
  {
    hide Entry, Handled, Waits;
  }

  /** An entry line that was waiting waits on, unless its last message was acknowledged. */
  lemma ReturnedWaits(f: Feed, s: State, saved: bool, line: nat)
    requires Safe(f, s) && Enabled(f, s, Return(saved)) && !s.phase.call.refused
    requires Entry(f, line) && line < ReadTo(Returned(s, saved).offsets)
    requires !Handled(f, Returned(s, saved).history, line)
    ensures Waits(f, Returned(s, saved).phase, line)
  {
    hide Reader.LineOf, Entry, Covered, Handled, ShapeOk, Returned;
    var b, n := s.phase.batch, Returned(s, saved);
    var source := Source(b);
    ReturnedIs(s, saved);
    HandledLater(f, s.history, n.history, line);
    AckedIsHandled(f, n.history, source);
    assert !Lost(f, s, line);
    hide NothingLost;
    var i :| b.index <= i < |b.messages| && b.messages[i] > 0 && Reader.LineOf(f.text, b.messages[i]) == line;
    if b.messages[i] == source {
      assert b.index + 1 < |b.messages| && b.messages[b.index + 1] == source;
    }
  }

  lemma AckedIsHandled(f: Feed, h: History, source: nat)
    ensures source in h.acked ==> Handled(f, h, Reader.LineOf(f.text, source))
  {
  }

  lemma ReturnedCovers(f: Feed, s: State, saved: bool, line: nat)
    requires Safe(f, s) && Enabled(f, s, Return(saved)) && !s.phase.call.refused
    requires Entry(f, line) && line < From(Returned(s, saved).offsets.tracked)
    requires !Handled(f, Returned(s, saved).history, line)
    ensures var n := Returned(s, saved); MidLine(n.phase) && line == Reader.LineOf(f.text, Source(n.phase.batch))
  {
    var b, n := s.phase.batch, Returned(s, saved);
    var source := Source(b);
    HandledLater(f, s.history, n.history, line);
    if source > 0 {
      OwnLine(f, s, line);
      hide Reader.LineOf, Entry, NothingLost, Covered, ShapeOk;
      assert !LastOfLine(b) by { AckedIsHandled(f, n.history, source); }
    } else {
      NoticeCovers(f, s, saved, line);
    }
  }

  /** Below the message at the index only its own line can be unhandled. */
  lemma OwnLine(f: Feed, s: State, line: nat)
    requires Safe(f, s) && !s.phase.Idle? && s.phase.batch.index < |s.phase.batch.messages|
    requires Source(s.phase.batch) > 0
    requires Entry(f, line) && line < Source(s.phase.batch) && !Handled(f, s.history, line)
    ensures line == Reader.LineOf(f.text, Source(s.phase.batch))
  {
    var b := s.phase.batch;
    hide Reader.LineOf, Entry, Handled, Covered;
    assert !Lost(f, s, line);
    hide NothingLost;
    var i :| b.index <= i < |b.messages| && b.messages[i] > 0 && Reader.LineOf(f.text, b.messages[i]) == line;
  }

  lemma NoticeCovers(f: Feed, s: State, saved: bool, line: nat)
    requires Safe(f, s) && Enabled(f, s, Return(saved)) && !s.phase.call.refused
    requires Source(s.phase.batch) == 0 && Entry(f, line) && line < From(s.offsets.tracked)
    ensures Handled(f, s.history, line)
  {
    hide Reader.LineOf, Entry, Handled, NothingLost, ShapeOk;
  }

  lemma CompleteSafe(f: Feed, s: State, saved: bool)
    requires Safe(f, s) && Enabled(f, s, Complete(saved))
    ensures Safe(f, Step(f, s, Complete(saved)))
  {
    hide Reader.LineOf, Entry, Handled;
    var n := Step(f, s, Complete(saved));
    forall line: nat | Entry(f, line) && line < From(n.offsets.tracked) ensures Handled(f, n.history, line) {
      assert !Lost(f, s, line);
    }
  }

  /** Giving a group up loses nothing if and only if it splits no line. */
  lemma GivenUp(f: Feed, s: State, arrived: bool, offset: nat, n: State)
    requires Safe(f, s) && offset <= From(s.offsets.tracked)
    requires n.history.silent == s.history.silent && n.history.acked == s.history.acked
    requires n.history.passed == s.history.passed && n.phase.Idle?
    requires n.offsets.deferred.None? && From(n.offsets.tracked) == offset
    ensures NothingLost(f, n) <==> !Splits(f, s, offset)
    ensures NothingLost(f, n) ==> Covered(f, n.history, n.phase, offset)
  {
    hide Reader.LineOf, Entry;
    assert forall line: nat :: Handled(f, n.history, line) <==> Handled(f, s.history, line);
    hide Handled;
    if Splits(f, s, offset) {
      assert Lost(f, n, Reader.LineOf(f.text, Source(s.phase.batch)));
    } else {
      forall line: nat ensures !Lost(f, n, line) {
        if Entry(f, line) && line < offset {
          assert Handled(f, s.history, line);
        }
      }
    }
    if NothingLost(f, n) {
      forall line: nat | Entry(f, line) && line < offset ensures Handled(f, n.history, line) {
        assert !Lost(f, n, line);
      }
    }
  }

  lemma AbortedIs(s: State, arrived: bool)
    ensures var n := Aborted(s, arrived);
            && n.history.silent == s.history.silent && n.history.acked == s.history.acked
            && n.history.passed == s.history.passed && n.phase.Idle? && n.size == s.size && n.disk == s.disk
            && n.offsets == Offsets(s.offsets.tracked, None)
  {
  }

  lemma QuietStep(f: Feed, s: State, e: Event)
    requires Safe(f, s) && Enabled(f, s, e)
    requires e.Append? || e.Notify? || e.Skip? || e.Attempt? || e.Settle? || e.Flush?
    ensures Safe(f, Step(f, s, e))
  {
    hide Reader.LineOf, Entry, HasIt, Marked;
    var n := Step(f, s, e);
    assert n.history.silent == s.history.silent && n.history.acked == s.history.acked;
    assert n.history.passed == s.history.passed && n.offsets == s.offsets;
    assert forall line: nat :: Handled(f, n.history, line) <==> Handled(f, s.history, line);
    hide Handled;
    SamePhase(f, s.phase, n.phase);
    assert forall line: nat :: Lost(f, n, line) ==> Lost(f, s, line);
  }

  lemma SamePhase(f: Feed, before: Phase, after: Phase)
    requires before.Idle? <==> after.Idle?
    requires !before.Idle? ==> before.batch == after.batch
    ensures MidLine(before) <==> MidLine(after)
    ensures forall line: nat :: Waits(f, before, line) <==> Waits(f, after, line)
  {
  }

  /** A step keeps everything unless it drops a line, and then a line is lost. */
  lemma StepExact(f: Feed, s: State, e: Event)
    requires Safe(f, s) && Enabled(f, s, e)
    ensures NothingLost(f, Step(f, s, e)) <==> !Drops(f, s, e)
    ensures !Drops(f, s, e) ==> Safe(f, Step(f, s, e))
  {
    hide Lost, Covered, Splits, SkipsNew, PhaseOk, Polled, Returned, Aborted;
    match e
    case Poll(bound, counts, saved) => PollExact(f, s, bound, counts, saved);
    case Return(saved) =>
      if s.phase.call.refused {
        StopExact(f, s, e);
      } else {
        ReturnedSafe(f, s, saved);
      }
    case Complete(saved) => CompleteSafe(f, s, saved);
    case Pause => StopExact(f, s, e);
    case Abort(arrived) => StopExact(f, s, e);
    case Restart(arrived) => StopExact(f, s, e);
    case _ => QuietStep(f, s, e);
  }

  lemma PollExact(f: Feed, s: State, bound: set<Recipient>, counts: seq<nat>, saved: bool)
    requires Safe(f, s) && Enabled(f, s, Poll(bound, counts, saved))
    ensures var n := Polled(f, s, bound, counts, saved);
            && (NothingLost(f, n) <==> !SkipsNew(f, s, bound))
            && (!SkipsNew(f, s, bound) ==> Safe(f, n))
  {
    hide Lost, Passes, Polled, ShapeOk;
    if SkipsNew(f, s, bound) {
      var line :| Passes(f, s, bound, line);
      PolledLoses(f, s, bound, counts, saved, line);
    } else {
      PolledSafe(f, s, bound, counts, saved);
    }
  }

  lemma StopExact(f: Feed, s: State, e: Event)
    requires Safe(f, s) && Enabled(f, s, e)
    requires e.Pause? || e.Abort? || e.Restart? || (e.Return? && s.phase.call.refused)
    ensures NothingLost(f, Step(f, s, e)) <==> !Drops(f, s, e)
    ensures !Drops(f, s, e) ==> Safe(f, Step(f, s, e))
  {
    hide Lost, Covered, Splits, Aborted, NothingLost;
    var arrived := match e case Abort(a) => a case Restart(a) => a case _ => false;
    var offset := From(if e.Restart? then s.disk else s.offsets.tracked);
    AbortedIs(s, arrived);
    GivenUp(f, s, arrived, offset, Step(f, s, e));
  }

  // --- No duplicates ---

  /** A content reached a recipient at most once, apart from interrupted deliveries,
      and then the recipient's cursor says so. */
  ghost predicate SendsOk(cursors: map<Recipient, nat>, h: History) {
    forall t: Target, m: nat {:trigger h.sends[(t, m)]} :: t.Local? && m > 0 ==>
      h.sends[(t, m)] <= h.unknown[(t, m)] + if HasIt(cursors, t, m) then 1 else 0
  }

  ghost predicate ServedOk(cursors: map<Recipient, nat>, h: History) {
    forall t: Target, m: nat :: (t, m) in h.served ==> Served(cursors, h.hidden, t, m)
  }

  ghost predicate CallOk(cursors: map<Recipient, nat>, h: History, b: Batch, call: Call) {
    && b.index < |b.messages| && call.done <= |call.targets|
    && forall i :: 0 <= i < call.done ==>
         call.refused || Served(cursors, h.hidden, call.targets[i], b.messages[b.index])
  }

  ghost predicate NoRepeat(s: State) {
    && SendsOk(s.cursors, s.history)
    && ServedOk(s.cursors, s.history)
    && (s.phase.Calling? || s.phase.Sending? ==> CallOk(s.cursors, s.history, s.phase.batch, s.phase.call))
    && (s.phase.Sending? ==> InSending(s) && !HasIt(s.cursors, NextTarget(s), Source(s.phase.batch)))
  }

  /** Cursors only ever move forward. */
  ghost predicate Grows(before: map<Recipient, nat>, after: map<Recipient, nat>) {
    forall r :: r in before ==> r in after && (after[r] == before[r] || after[r] > before[r])
  }

  lemma ServedLater(before: map<Recipient, nat>, after: map<Recipient, nat>,
                    hidden: set<(Target, nat)>, more: set<(Target, nat)>)
    requires Grows(before, after) && hidden <= more
    ensures forall t: Target, m: nat :: Served(before, hidden, t, m) ==> Served(after, more, t, m)
    ensures forall t: Target, m: nat :: HasIt(before, t, m) ==> HasIt(after, t, m)
  {
  }

  lemma SettledNoRepeat(s: State, result: Result)
    requires NoRepeat(s) && InSending(s) && !result.Raised?
    ensures NoRepeat(Settled(s, result)) && Grows(s.cursors, Settled(s, result).cursors)
  {
    var n := Settled(s, result);
    var target, source := NextTarget(s), Source(s.phase.batch);
    assert Grows(s.cursors, n.cursors);
    ServedLater(s.cursors, n.cursors, s.history.hidden, n.history.hidden);
    assert result.Delivered? && target.Local? && source > 0 ==> HasIt(n.cursors, target, source);
    hide HasIt, Marked, Grows;
    if !result.Refused? {
      SettledServed(s.cursors, s.history.hidden, target, source, result);
    }
    hide Served;
    assert SendsOk(n.cursors, n.history) by { hide ServedOk, CallOk; }
    assert CallOk(n.cursors, n.history, n.phase.batch, n.phase.call);
  }

  lemma SettledServed(cursors: map<Recipient, nat>, hidden: set<(Target, nat)>, target: Target, source: nat,
                      result: Result)
    requires !result.Refused? && !result.Raised?
    ensures Served(Marked(cursors, target, source, result),
                   if result.Hidden? then hidden + {(target, source)} else hidden, target, source)
  {
  }

  lemma ReturnedNoRepeat(f: Feed, s: State, saved: bool)
    requires NoRepeat(s) && Enabled(f, s, Return(saved))
    ensures NoRepeat(Returned(s, saved))
  {
    hide HasIt, Served;
    if !s.phase.call.refused {
      var n := Returned(s, saved);
      assert SendsOk(n.cursors, n.history);
      forall t: Target, m: nat | (t, m) in n.history.served ensures Served(n.cursors, n.history.hidden, t, m) {
        if (t, m) !in s.history.served {
          var i :| 0 <= i < |s.phase.call.targets| && s.phase.call.targets[i] == t;
        }
      }
    }
  }

  lemma AbortedNoRepeat(s: State, arrived: bool)
    requires NoRepeat(s)
    ensures NoRepeat(Aborted(s, arrived))
  {
    hide HasIt, Served;
  }

  lemma StepNoRepeat(f: Feed, s: State, e: Event)
    requires NoRepeat(s) && Enabled(f, s, e)
    ensures NoRepeat(Step(f, s, e)) && Grows(s.cursors, Step(f, s, e).cursors)
  {
    if e.Settle? {
      SettledNoRepeat(s, e.result);
    } else {
      KeepsCursors(f, s, e);
      if e.Return? {
        ReturnedNoRepeat(f, s, e.saved);
      } else if e.Pause? || e.Abort? || e.Restart? {
        AbortedNoRepeat(s, match e case Abort(arrived) => arrived case Restart(arrived) => arrived case _ => false);
        hide SendsOk, ServedOk, CallOk, Aborted, HasIt;
      } else if e.Poll? {
        PolledNoRepeat(f, s, e.bound, e.counts, e.saved);
      } else {
        QuietNoRepeat(f, s, e);
      }
    }
  }

  lemma KeepsCursors(f: Feed, s: State, e: Event)
    requires Enabled(f, s, e) && !e.Settle?
    ensures Step(f, s, e).cursors == s.cursors
  {
    hide HasIt, Read, Start, Messages, Silent;
  }

  lemma PolledNoRepeat(f: Feed, s: State, bound: set<Recipient>, counts: seq<nat>, saved: bool)
    requires NoRepeat(s) && Enabled(f, s, Poll(bound, counts, saved))
    ensures NoRepeat(Polled(f, s, bound, counts, saved))
  {
    hide HasIt, Served, Read, Start, Messages, Silent;
  }

  lemma QuietNoRepeat(f: Feed, s: State, e: Event)
    requires NoRepeat(s) && Enabled(f, s, e)
    requires e.Append? || e.Notify? || e.Skip? || e.Attempt? || e.Complete? || e.Flush?
    ensures NoRepeat(Step(f, s, e))
  {
    hide SendsOk, ServedOk;
  }

  // --- Main results ---

  lemma {:induction false} RunNoRepeat(f: Feed, states: seq<State>, events: seq<Event>, n: nat)
    requires Run(f, states, events) && n <= |events|
    ensures NoRepeat(states[n])
  {
    if n > 0 {
      RunNoRepeat(f, states, events, n - 1);
      hide NoRepeat, Step, Enabled;
      assert states[n - 1 + 1] == Step(f, states[n - 1], events[n - 1]);
      StepNoRepeat(f, states[n - 1], events[n - 1]);
    }
  }

  lemma InitialSafe(f: Feed)
    ensures Safe(f, Initial())
  {
  }

  ghost predicate NoDrops(f: Feed, states: seq<State>, events: seq<Event>, n: nat)
    requires Run(f, states, events) && n <= |events|
  {
    forall i :: 0 <= i < n ==> !Drops(f, states[i], events[i])
  }

  lemma {:induction false} RunSafe(f: Feed, states: seq<State>, events: seq<Event>, n: nat)
    requires Run(f, states, events) && n <= |events| && NoDrops(f, states, events, n)
    ensures Safe(f, states[n])
  {
    if n == 0 {
      InitialSafe(f);
    } else {
      RunSafe(f, states, events, n - 1);
      hide Safe, Step, Enabled, Drops;
      assert states[n - 1 + 1] == Step(f, states[n - 1], events[n - 1]);
      StepExact(f, states[n - 1], events[n - 1]);
    }
  }

  /** Exactly when a run loses an entry line: over growing files, pauses, failing and
      interrupted callbacks, failing saves and restarts, no line is ever lost if and only
      if no poll moves past a new entry that it does not return and no group is given up
      between two messages of one line. */
  lemma {:induction false} NothingLostExact(f: Feed, states: seq<State>, events: seq<Event>, n: nat)
    requires Run(f, states, events) && n <= |events|
    ensures (forall i :: 0 <= i <= n ==> NothingLost(f, states[i])) <==> NoDrops(f, states, events, n)
  {
    if n == 0 {
      InitialSafe(f);
    } else {
      NothingLostExact(f, states, events, n - 1);
      hide NothingLost, Step, Enabled, Drops, Safe;
      if NoDrops(f, states, events, n - 1) {
        RunSafe(f, states, events, n - 1);
        assert states[n - 1 + 1] == Step(f, states[n - 1], events[n - 1]);
        StepExact(f, states[n - 1], events[n - 1]);
        assert Safe(f, states[n - 1]);
        assert NoDrops(f, states, events, n) <==> !Drops(f, states[n - 1], events[n - 1]);
      } else {
        assert !NoDrops(f, states, events, n);
      }
    }
  }

  /** Then a line that starts below the saved offset is handled, lies behind a fast-forward
      point, or is the one whose messages are being handed out. */
  lemma TranscriptNotLost(f: Feed, states: seq<State>, events: seq<Event>, n: nat, line: nat)
    requires Run(f, states, events) && n <= |events| && NoDrops(f, states, events, n)
    requires Entry(f, line) && line < From(states[n].disk)
    ensures Handled(f, states[n].history, line)
            || (MidLine(states[n].phase) && line == Reader.LineOf(f.text, Source(states[n].phase.batch)))
  {
    RunSafe(f, states, events, n);
    hide Entry, Handled, MidLine;
  }

  /** A poll that is fast-forwarded skips nothing that a bound recipient with a cursor in
      the file still waits for. */
  lemma FastForwardWaits(s: State, bound: set<Recipient>, recipient: Recipient)
    requires recipient in bound && recipient in s.cursors && 0 < s.cursors[recipient] <= s.size
    ensures Start(s, bound) <= s.cursors[recipient] || Start(s, bound) == From(s.offsets.tracked)
  {
    var point := ResumePoint(s.cursors, bound, s.size);
    var known := set r | r in bound && r in s.cursors && 0 < s.cursors[r] <= s.size;
    assert recipient in known;
  }

  /** Where a poll starts: at the earliest cursor of the bound recipients that have one in
      the file, if all of these lie ahead of the recorded offset, and there otherwise. */
  lemma StartIs(s: State, bound: set<Recipient>)
    ensures var known := set r | r in bound && r in s.cursors && 0 < s.cursors[r] <= s.size;
            var start, tracked := Start(s, bound), From(s.offsets.tracked);
            && (known == {} || (exists r :: r in known && s.cursors[r] <= tracked) ==> start == tracked)
            && (known != {} && (forall r :: r in known ==> s.cursors[r] > tracked) ==>
                  && (forall r :: r in known ==> start <= s.cursors[r])
                  && exists r :: r in known && s.cursors[r] == start)
  {
    var point := ResumePoint(s.cursors, bound, s.size);
    assert IsResumePoint(s.cursors, bound, s.size, point);
  }

  /** What each event does to the offset: a finished batch takes it over the whole of what
      was read, an acknowledged message as far as its line, and a batch that is given up
      leaves it where the last acknowledgement put it. What reaches the disk is what is
      recorded in memory, and a restart falls back to the disk. */
  lemma OffsetMoves(f: Feed, s: State, e: Event)
    requires ShapeOk(f, s) && Enabled(f, s, e)
    ensures var n := Step(f, s, e);
            && (e.Complete? ==> n.offsets.tracked == s.offsets.deferred && s.offsets.deferred.Some?)
            && (e.Return? && !s.phase.call.refused && Source(s.phase.batch) > 0 ==>
                  n.offsets.tracked == Some(Source(s.phase.batch)))
            && (e.Poll? && Messages(Read(f, s, e.bound), e.counts) == [] ==>
                  n.offsets.tracked == Some(Read(f, s, e.bound).offset))
            && (e.Poll? && n.phase.Group? ==>
                  n.offsets == Offsets(s.offsets.tracked, Some(Read(f, s, e.bound).offset)))
            && (e.Restart? ==> n.offsets.tracked == s.disk)
            && ((e.Return? && (s.phase.call.refused || Source(s.phase.batch) == 0)) || e.Pause? || e.Abort?
                || e.Append? || e.Notify? || e.Skip? || e.Attempt? || e.Settle? || e.Flush? ==>
                  n.offsets.tracked == s.offsets.tracked)
            && (n.disk == s.disk || n.disk == n.offsets.tracked)
            && (e.Flush? || (e.Complete? && e.saved)
                || (e.Return? && e.saved && !s.phase.call.refused && Source(s.phase.batch) > 0)
                || (e.Poll? && e.saved && Messages(Read(f, s, e.bound), e.counts) == []) ==>
                  n.disk == n.offsets.tracked)
  {
    hide HasIt, Marked, Read, Start, Messages, Silent, Passed, InLines;
  }

  // --- Offsets, cursors and copies ---

  lemma {:induction false} RunShape(f: Feed, states: seq<State>, events: seq<Event>, n: nat)
    requires Run(f, states, events) && n <= |events|
    ensures ShapeOk(f, states[n])
  {
    if n > 0 {
      RunShape(f, states, events, n - 1);
      hide ShapeOk, Step, Enabled;
      assert states[n - 1 + 1] == Step(f, states[n - 1], events[n - 1]);
      StepShape(f, states[n - 1], events[n - 1]);
    }
  }

  lemma OneStep(f: Feed, states: seq<State>, events: seq<Event>, n: nat)
    requires Run(f, states, events) && n < |events|
    ensures |states| == |events| + 1 && From(states[n].disk) <= From(states[n + 1].disk)
    ensures forall r :: r in states[n].cursors ==>
              r in states[n + 1].cursors && states[n].cursors[r] <= states[n + 1].cursors[r]
  {
    RunShape(f, states, events, n);
    RunNoRepeat(f, states, events, n);
    hide ShapeOk, NoRepeat, Step, Enabled;
    assert states[n + 1] == Step(f, states[n], events[n]);
    StepShape(f, states[n], events[n]);
    StepNoRepeat(f, states[n], events[n]);
  }

  /** The saved offset never goes back. */
  lemma {:induction false} SavedOffsetGrows(f: Feed, states: seq<State>, events: seq<Event>, i: nat, j: nat)
    requires Run(f, states, events) && i <= j <= |events|
    ensures From(states[i].disk) <= From(states[j].disk)
    decreases j - i
  {
    if i < j {
      SavedOffsetGrows(f, states, events, i, j - 1);
      OneStep(f, states, events, j - 1);
      hide *;
    }
  }

  /** A recipient's cursor never goes back; a recorded delivery moves it forward. */
  lemma {:induction false} CursorsGrow(f: Feed, states: seq<State>, events: seq<Event>, i: nat, j: nat,
                                       recipient: Recipient)
    requires Run(f, states, events) && i <= j <= |events| && recipient in states[i].cursors
    ensures recipient in states[j].cursors && states[i].cursors[recipient] <= states[j].cursors[recipient]
    decreases j - i
  {
    if i < j {
      OneStep(f, states, events, i);
      CursorsGrow(f, states, events, i + 1, j, recipient);
      hide *;
    }
  }

  lemma DeliveryAdvances(f: Feed, states: seq<State>, events: seq<Event>, n: nat)
    requires Run(f, states, events) && n < |events|
    requires events[n] == Settle(Delivered) || events[n] == Settle(Quiet)
    requires Enabled(f, states[n], events[n])
    requires NextTarget(states[n]).Local? && Source(states[n].phase.batch) > 0
    ensures var r, source := NextTarget(states[n]).recipient, Source(states[n].phase.batch);
            && (r in states[n].cursors ==> states[n].cursors[r] < source)
            && r in states[n + 1].cursors && states[n + 1].cursors[r] == source
  {
    RunNoRepeat(f, states, events, n);
    assert states[n + 1] == Step(f, states[n], events[n]);
  }

  /** Once one message of a line has reached a recipient, no other message of that line is
      ever tried for it. */
  lemma SiblingsSkipped(f: Feed, states: seq<State>, events: seq<Event>, i: nat, j: nat)
    requires Run(f, states, events) && i < j < |events|
    requires events[i] == Settle(Delivered) || events[i] == Settle(Quiet)
    requires Enabled(f, states[i], events[i]) && states[j].phase.Calling?
    requires states[j].phase.call.done < |states[j].phase.call.targets|
    requires states[j].phase.batch.index < |states[j].phase.batch.messages|
    requires NextTarget(states[i]).Local? && NextTarget(states[j]) == NextTarget(states[i])
    requires Source(states[j].phase.batch) == Source(states[i].phase.batch) > 0
    ensures !Enabled(f, states[j], Attempt) && Enabled(f, states[j], Skip)
  {
    DeliveryAdvances(f, states, events, i);
    CursorsGrow(f, states, events, i + 1, j, NextTarget(states[i]).recipient);
  }

  // --- The callback as events ---

  /** The events lead from one state to the other. */
  ghost predicate Leads(f: Feed, s: State, events: seq<Event>, t: State)
    decreases |events|
  {
    if events == [] then s == t
    else Enabled(f, s, events[0]) && Leads(f, Step(f, s, events[0]), events[1..], t)
  }

  lemma {:induction false} LeadsThen(f: Feed, s: State, a: seq<Event>, t: State, b: seq<Event>, u: State)
    requires Leads(f, s, a, t) && Leads(f, t, b, u)
    ensures Leads(f, s, a + b, u)
    decreases |a|
  {
    if a == [] {
      assert a + b == b;
    } else {
      hide Step, Enabled;
      assert (a + b)[1..] == a[1..] + b;
      LeadsThen(f, Step(f, s, a[0]), a[1..], t, b, u);
    }
  }

  lemma LeadsOne(f: Feed, s: State, e: Event)
    requires Enabled(f, s, e)
    ensures Leads(f, s, [e], Step(f, s, e))
  {
    hide Enabled, Step;
    assert [e][1..] == [];
  }

  lemma LeadsTwo(f: Feed, s: State, e: Event, e': Event)
    requires Enabled(f, s, e) && Enabled(f, Step(f, s, e), e')
    ensures Leads(f, s, [e, e'], Step(f, Step(f, s, e), e'))
  {
    LeadsOne(f, s, e);
    LeadsOne(f, Step(f, s, e), e');
    hide Enabled, Step;
    LeadsThen(f, s, [e], Step(f, s, e), [e'], Step(f, Step(f, s, e), e'));
    assert [e] + [e'] == [e, e'];
  }

  ghost function Reached(sent: seq<Target>, source: nat): multiset<(Target, nat)> {
    if sent == [] then multiset{} else Reached(sent[..|sent| - 1], source) + multiset{(sent[|sent| - 1], source)}
  }

  /** The state that handling leaves after the first `k` targets. */
  ghost predicate HandledTo(s: State, t: State, targets: seq<Target>, h: Handling, k: nat)
    requires s.phase.Calling? && s.phase.batch.index < |s.phase.batch.messages|
  {
    && t.phase == Calling(s.phase.batch, Call(targets, k, h.refused)) && t.cursors == h.cursors
    && t.offsets == s.offsets && t.disk == s.disk && t.size == s.size
    && t.history.sends == s.history.sends + Reached(h.sent, Source(s.phase.batch))
    && t.history.acked == s.history.acked && t.history.unknown == s.history.unknown
  }

  lemma SkippedTarget(f: Feed, s: State, t: State, targets: seq<Target>, h: Handling, k: nat)
    requires s.phase.Calling? && s.phase.batch.index < |s.phase.batch.messages| && k < |targets|
    requires HandledTo(s, t, targets, h, k) && HasIt(h.cursors, targets[k], Source(s.phase.batch))
    ensures Enabled(f, t, Skip) && HandledTo(s, Step(f, t, Skip), targets, h, k + 1)
  {
    hide HasIt, Reached;
    assert NextTarget(t) == targets[k];
  }

  lemma TriedTarget(f: Feed, s: State, t: State, targets: seq<Target>, h: Handling, k: nat, result: Result)
    requires s.phase.Calling? && s.phase.batch.index < |s.phase.batch.messages| && k < |targets|
    requires HandledTo(s, t, targets, h, k) && !h.raised && !result.Raised?
    requires !HasIt(h.cursors, targets[k], Source(s.phase.batch))
    ensures Enabled(f, t, Attempt) && Enabled(f, Step(f, t, Attempt), Settle(result))
    ensures HandledTo(s, Step(f, Step(f, t, Attempt), Settle(result)), targets,
                      Handle(h, targets[k], Source(s.phase.batch), result), k + 1)
  {
    hide HasIt, Marked, Reached, Settled;
    assert NextTarget(t) == targets[k];
    var mid := Step(f, t, Attempt);
    assert InSending(mid) && NextTarget(mid) == targets[k];
    assert mid == t.(phase := Sending(t.phase.batch, t.phase.call));
    assert Step(f, mid, Settle(result)) == Settled(mid, result);
    hide Enabled, Step;
    SettledTo(s, mid, targets, h, k, result);
  }

  lemma SettledTo(s: State, mid: State, targets: seq<Target>, h: Handling, k: nat, result: Result)
    requires s.phase.Calling? && s.phase.batch.index < |s.phase.batch.messages| && k < |targets|
    requires InSending(mid) && NextTarget(mid) == targets[k] && !h.raised && !result.Raised?
    requires HandledTo(s, mid.(phase := Calling(mid.phase.batch, mid.phase.call)), targets, h, k)
    requires !HasIt(h.cursors, targets[k], Source(s.phase.batch))
    ensures HandledTo(s, Settled(mid, result), targets, Handle(h, targets[k], Source(s.phase.batch), result), k + 1)
  {
    var source := Source(s.phase.batch);
    ReachedNext(h.sent, targets[k], source);
    SettledIs(mid, result);
    SumsAgree(s.history.sends, Reached(h.sent, source), multiset{(targets[k], source)});
    hide HasIt, Marked, Reached, Settled;
  }

  lemma SumsAgree<T>(a: multiset<T>, b: multiset<T>, c: multiset<T>)
    ensures a + b + c == a + (b + c)
  {
  }

  lemma SettledIs(s: State, result: Result)
    requires InSending(s)
    ensures var n, call, one := Settled(s, result), s.phase.call, (NextTarget(s), Source(s.phase.batch));
            && n.phase == Calling(s.phase.batch, Call(call.targets, call.done + 1, call.refused || result.Refused?))
            && n.cursors == Marked(s.cursors, NextTarget(s), Source(s.phase.batch), result)
            && n.offsets == s.offsets && n.disk == s.disk && n.size == s.size
            && n.history.sends == (if result.Delivered? then s.history.sends + multiset{one} else s.history.sends)
            && n.history.acked == s.history.acked && n.history.unknown == s.history.unknown
  {
  }

  lemma ReachedNext(sent: seq<Target>, target: Target, source: nat)
    ensures Reached(sent + [target], source) == Reached(sent, source) + multiset{(target, source)}
  {
    assert (sent + [target])[..|sent|] == sent;
  }

  lemma OneTarget(f: Feed, s: State, t: State, targets: seq<Target>, h: Handling, k: nat, result: Result)
    returns (events: seq<Event>, u: State)
    requires s.phase.Calling? && s.phase.batch.index < |s.phase.batch.messages| && k < |targets|
    requires HandledTo(s, t, targets, h, k) && !h.raised
    requires !Handle(h, targets[k], Source(s.phase.batch), result).raised
    ensures Leads(f, t, events, u)
    ensures HandledTo(s, u, targets, Handle(h, targets[k], Source(s.phase.batch), result), k + 1)
  {
    var source := Source(s.phase.batch);
    if HasIt(h.cursors, targets[k], source) {
      SkippedTarget(f, s, t, targets, h, k);
      hide HasIt, Marked, Leads, HandledTo, Enabled, Step;
      LeadsOne(f, t, Skip);
      events, u := [Skip], Step(f, t, Skip);
    } else {
      TriedTarget(f, s, t, targets, h, k, result);
      hide HasIt, Marked, Leads, HandledTo, Enabled, Step;
      LeadsTwo(f, t, Attempt, Settle(result));
      events, u := [Attempt, Settle(result)], Step(f, Step(f, t, Attempt), Settle(result));
    }
  }

  /** The loop over the recipients is a run of skips, attempts and settlements, as far as
      no delivery raises. */
  lemma {:induction false} HandlingIsRun(f: Feed, s: State, targets: seq<Target>, results: seq<Result>, k: nat)
    returns (events: seq<Event>, t: State)
    requires s.phase.Calling? && s.phase.call == Call(targets, 0, false)
    requires s.phase.batch.index < |s.phase.batch.messages| && |results| == |targets| && k <= |targets|
    requires !HandleAll(s.cursors, Source(s.phase.batch), targets[..k], results[..k]).raised
    ensures Leads(f, s, events, t)
    ensures HandledTo(s, t, targets, HandleAll(s.cursors, Source(s.phase.batch), targets[..k], results[..k]), k)
  {
    if k == 0 {
      events, t := [], s;
      assert s.history.sends + multiset{} == s.history.sends;
    } else {
      var source, n := Source(s.phase.batch), k - 1;
      assert targets[..k][..n] == targets[..n] && results[..k][..n] == results[..n];
      var h := HandleAll(s.cursors, source, targets[..n], results[..n]);
      hide HasIt, Marked;
      assert !h.raised;
      var before, mid := HandlingIsRun(f, s, targets, results, n);
      var last, u := OneTarget(f, s, mid, targets, h, n, results[n]);
      hide *;
      LeadsThen(f, s, before, mid, last, u);
      events, t := before + last, u;
    }
  }

  /** A delivery that raises ends the group with its outcome unknown: the rest of the
      recipients are not tried, nor are the other messages of the batch. */
  lemma RaisedAborts(f: Feed, s: State, targets: seq<Target>, results: seq<Result>, k: nat, arrived: bool)
    returns (events: seq<Event>, t: State)
    requires s.phase.Calling? && s.phase.call == Call(targets, 0, false)
    requires s.phase.batch.index < |s.phase.batch.messages| && |results| == |targets| && k < |targets|
    requires var source := Source(s.phase.batch);
             && !HandleAll(s.cursors, source, targets[..k], results[..k]).raised
             && HandleAll(s.cursors, source, targets[..k + 1], results[..k + 1]).raised
    ensures Leads(f, s, events, t) && t.phase.Idle? && t.offsets == Offsets(s.offsets.tracked, None)
    ensures var source := Source(s.phase.batch);
            && t.cursors == HandleAll(s.cursors, source, targets, results).cursors
            && t.history.acked == s.history.acked
            && t.history.unknown == s.history.unknown + multiset{(targets[k], source)}
  {
    var source := Source(s.phase.batch);
    var before, mid := HandlingIsRun(f, s, targets, results, k);
    assert targets[..k + 1][..k] == targets[..k] && results[..k + 1][..k] == results[..k];
    StaysRaised(s.cursors, source, targets, results, k + 1, |targets|);
    assert targets[..|targets|] == targets && results[..|targets|] == results;
    hide HandleAll, HasIt, Leads;
    assert !HasIt(mid.cursors, NextTarget(mid), source) && results[k].Raised?;
    var sending := Step(f, mid, Attempt);
    t := Step(f, sending, Abort(arrived));
    var last := [Attempt, Abort(arrived)];
    LeadsTwo(f, mid, Attempt, Abort(arrived));
    LeadsThen(f, s, before, mid, last, t);
    events := before + last;
  }
}
