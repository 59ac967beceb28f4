/** Which schedules of file growth and polls lose a transcript line. */
module DeliverySchedules {
  import opened Basics
  import opened Delivery
  import opened DeliveryRuns
  import Reader = TranscriptReader

  /** A text of objects on lines, read by a parser that ignores a newline behind them. */
  ghost predicate Proper(f: Feed) {
    Reader.NewlineBlind(f.parser) && Reader.Transcript(f.parser, f.text, 0)
  }

  /** Every poll sees the text up to one of the `ends`. */
  ghost predicate SeenAt(states: seq<State>, events: seq<Event>, ends: set<nat>)
    requires |states| == |events| + 1
  {
    forall i :: 0 <= i < |events| && events[i].Poll? ==> states[i].size in ends
  }

  /** No line yields more than one message. */
  ghost predicate Single(events: seq<Event>) {
    forall i :: 0 <= i < |events| && events[i].Poll? ==> AtMostOne(events[i].counts)
  }

  ghost predicate AtMostOne(counts: seq<nat>) {
    forall k :: 0 <= k < |counts| ==> counts[k] <= 1
  }

  /** After a poll that sees an object and not its newline, with an entry on the next line,
      no poll sees more than that newline. */
  ghost predicate Apart(f: Feed, ends: set<nat>) {
    forall a, b :: a in ends && b in ends && Reader.TornAt(f.text, a) && Entry(f, a + 1) ==> b <= a + 1
  }

  // --- Lines of a proper text ---

  lemma {:induction false} TranscriptAt(p: Reader.Parser, text: string, from: nat, pos: nat)
    requires from <= pos <= |text| && Reader.Transcript(p, text, from)
    requires Reader.Boundary(text, from) && Reader.Boundary(text, pos)
    ensures Reader.Transcript(p, text, pos)
    decreases |text| - from
  {
    if from < pos {
      var end := Reader.LineEnd(text, from);
      Reader.TranscriptNext(p, text, from);
      Reader.LineEndIs(text, from);
      assert end <= pos;
      TranscriptAt(p, text, end, pos);
    }
  }

  /** A line start holds an object, and lies in no other line. */
  lemma LineStart(f: Feed, pos: nat)
    requires Proper(f) && Reader.Boundary(f.text, pos)
    ensures pos <= |f.text| && Reader.Transcript(f.parser, f.text, pos)
    ensures pos < |f.text| ==> f.text[pos] == '{'
    ensures !Reader.TornAt(f.text, pos)
    ensures forall start: nat :: Entry(f, start) && start < pos ==> Reader.LineEnd(f.text, start) <= pos
  {
    TranscriptAt(f.parser, f.text, 0, pos);
    Reader.BoundaryNotTorn(f.parser, f.text, pos);
    if pos == |f.text| {
      Reader.NotTornAtEnd(f.text);
    }
    forall start: nat | Entry(f, start) && start < pos ensures Reader.LineEnd(f.text, start) <= pos {
      Reader.LineEndIs(f.text, start);
    }
  }

  // --- Offsets ---

  /** Not inside an entry, and behind an object without its newline only where a poll saw
      the text up to there. */
  ghost predicate Good(f: Feed, ends: set<nat>, pos: nat) {
    && pos <= |f.text|
    && (Reader.TornAt(f.text, pos) ==> pos in ends)
    && forall start: nat :: Entry(f, start) && start < pos ==> Reader.LineEnd(f.text, start) <= pos + 1
  }

  lemma StartIsGood(f: Feed, ends: set<nat>, pos: nat)
    requires Proper(f) && Reader.Boundary(f.text, pos)
    ensures Good(f, ends, pos)
  {
    LineStart(f, pos);
    hide Reader.LineEnd, Entry;
  }

  /** Reading on to the end of a line, or of what is visible of it. */
  lemma EndIsGood(f: Feed, ends: set<nat>, v: nat, pos: nat)
    requires Proper(f) && Good(f, ends, pos) && pos < v <= |f.text| && v in ends
    requires Reader.Boundary(f.text, pos) ==> !Entry(f, pos)
    ensures var end := Reader.LineEnd(f.text[..v], pos);
            && Good(f, ends, end) && pos < end
            && forall start: nat :: Entry(f, start) && pos <= start ==> end <= start
  {
    var end := Reader.LineEnd(f.text[..v], pos);
    Reader.LineEndIs(f.text[..v], pos);
    forall start: nat | Entry(f, start) && pos <= start ensures end <= start {
      assert start > pos && f.text[start - 1] == '\n';
    }
    if f.text[end - 1] == '\n' {
      StartIsGood(f, ends, end);
    } else {
      assert end == v;
      forall start: nat | Entry(f, start) && start < end ensures Reader.LineEnd(f.text, start) <= end + 1 {
        EntryEndsBy(f, pos, end, start);
      }
    }
  }

  lemma EntryEndsBy(f: Feed, pos: nat, end: nat, start: nat)
    requires pos < end <= |f.text| && Entry(f, start) && start < pos
    requires Reader.LineEnd(f.text, start) <= pos + 1
    ensures Reader.LineEnd(f.text, start) <= end + 1
  {
  }

  // --- One poll ---

  /** Every entry line from `pos` to the stop was read, and all positions are good. */
  ghost predicate ReadsAll(f: Feed, ends: set<nat>, pos: nat, r: Reader.Pass) {
    && Good(f, ends, r.offset)
    && (forall k :: 0 <= k < |r.entries| ==> Good(f, ends, r.entries[k].end))
    && forall start: nat :: Entry(f, start) && pos <= start < r.offset ==> LineRead(f, r.entries, start)
  }

  ghost predicate LineRead(f: Feed, entries: seq<Reader.Entry>, start: nat) {
    exists k :: 0 <= k < |entries| && Reader.LineOf(f.text, entries[k].end) == start
  }

  lemma ReadsFirst(f: Feed, ends: set<nat>, pos: nat, end: nat, first: seq<Reader.Entry>, rest: Reader.Pass)
    requires ReadsAll(f, ends, end, rest) && |first| <= 1
    requires first != [] ==> first[0].end == end && Good(f, ends, end)
    requires forall start: nat :: Entry(f, start) && pos <= start < end ==> LineRead(f, first, start)
    ensures ReadsAll(f, ends, pos, rest.(entries := first + rest.entries))
  {
    hide Good, Entry, Reader.LineOf;
    var all := first + rest.entries;
    assert forall k :: 0 <= k < |first| ==> all[k] == first[k];
    assert forall k :: 0 <= k < |rest.entries| ==> all[|first| + k] == rest.entries[k];
    forall start: nat | Entry(f, start) && pos <= start < rest.offset ensures LineRead(f, all, start) {
      if start < end {
        var k :| 0 <= k < |first| && Reader.LineOf(f.text, first[k].end) == start;
        assert all[k] == first[k];
      } else {
        var k :| 0 <= k < |rest.entries| && Reader.LineOf(f.text, rest.entries[k].end) == start;
        assert all[|first| + k] == rest.entries[k];
      }
    }
  }

  lemma NextLine(f: Feed, pos: nat, start: nat)
    requires pos < start && Entry(f, start)
    ensures Reader.LineEnd(f.text, pos) <= start
  {
    Reader.LineEndIs(f.text, pos);
  }

  /** A line read from its start, as far as it is visible. */
  lemma WholeLineRead(f: Feed, ends: set<nat>, v: nat, pos: nat)
    requires Proper(f) && pos < v <= |f.text| && v in ends && Reader.Boundary(f.text, pos)
    ensures var end, line := Reader.LineEnd(f.text, pos), Reader.Line(f.text, pos);
            var stop := Min(end, v);
            && Reader.Transcript(f.parser, f.text, pos) && Reader.Boundary(f.text, end) && pos < end
            && (end <= v + 1 ==>
                  && Good(f, ends, stop)
                  && (forall start: nat :: Entry(f, start) && pos <= start < stop ==>
                        LineRead(f, Reader.EntryOf(f.parser, line, stop), start)))
  {
    var end := Reader.LineEnd(f.text, pos);
    LineStart(f, pos);
    Reader.TranscriptNext(f.parser, f.text, pos);
    StartIsGood(f, ends, end);
    if end <= v + 1 {
      FirstLineReads(f, pos, Min(end, v));
      if v < end {
        TornIsGood(f, ends, pos);
      }
    }
    hide Reader.LineEnd, Reader.Line, Reader.Transcript, LineRead, Good, Proper, Reader.Boundary, Reader.EntryOf;
  }

  lemma FirstLineReads(f: Feed, pos: nat, stop: nat)
    requires Reader.Boundary(f.text, pos) && pos < stop <= Reader.LineEnd(f.text, pos) <= stop + 1
    ensures forall start: nat :: Entry(f, start) && pos <= start < stop ==>
              LineRead(f, Reader.EntryOf(f.parser, Reader.Line(f.text, pos), stop), start)
  {
    var line := Reader.Line(f.text, pos);
    Reader.LineEndIs(f.text, pos);
    Reader.LineOfIs(f.text, pos, stop);
    hide Reader.LineOf;
    forall start: nat | Entry(f, start) && pos <= start < stop
      ensures LineRead(f, Reader.EntryOf(f.parser, line, stop), start)
    {
      if start > pos {
        NextLine(f, pos, start);
      }
      assert Reader.EntryOf(f.parser, line, stop)[0].end == stop;
    }
  }

  lemma TornIsGood(f: Feed, ends: set<nat>, pos: nat)
    requires Proper(f) && Reader.Boundary(f.text, pos) && pos < |f.text|
    requires Reader.LineEnd(f.text, pos) - 1 in ends && pos < Reader.LineEnd(f.text, pos) - 1
    ensures Good(f, ends, Reader.LineEnd(f.text, pos) - 1)
  {
    var end := Reader.LineEnd(f.text, pos);
    Reader.LineEndIs(f.text, pos);
    LineStart(f, pos);
    forall start: nat | Entry(f, start) && start < end - 1 ensures Reader.LineEnd(f.text, start) <= end {
      if start > pos {
        NextLine(f, pos, start);
      }
    }
  }

  lemma {:induction false} ScanReadsAll(f: Feed, ends: set<nat>, v: nat, pos: nat)
    requires Proper(f) && Good(f, ends, pos) && pos <= v <= |f.text| && v in ends
    ensures ReadsAll(f, ends, pos, Reader.Scan(f.parser, f.text[..v], pos))
    decreases v - pos
  {
    hide Reader.Scan, Reader.LineOf, Good, Reader.Transcript, Reader.LineEnd, Reader.Line, Reader.NewlineBlind;
    hide Reader.Boundary, LineRead;
    if pos == v {
      assert Reader.Scan(f.parser, f.text[..v], pos) == Reader.Pass([], [], pos) by { ScanNothing(f, v); }
    } else if Reader.Boundary(f.text, pos) {
      ScanFromStart(f, ends, v, pos);
      if Reader.LineEnd(f.text, pos) <= v {
        var end := Reader.LineEnd(f.text, pos);
        WholeLineRead(f, ends, v, pos);
        ScanReadsAll(f, ends, v, end);
        var rest := Reader.Scan(f.parser, f.text[..v], end);
        var first := Reader.EntryOf(f.parser, Reader.Line(f.text, pos), end);
        ReadsFirst(f, ends, pos, end, first, rest);
        SameReads(f, ends, pos, rest.(entries := first + rest.entries), Reader.Scan(f.parser, f.text[..v], pos));
      }
    } else {
      var file := f.text[..v];
      var end := Reader.LineEnd(file, pos);
      EndIsGood(f, ends, v, pos);
      Reader.ScanOne(f.parser, file, pos);
      if Reader.Consumable(f.parser, Reader.Line(file, pos)) {
        ScanReadsAll(f, ends, v, end);
        var rest := Reader.Scan(f.parser, file, end);
        var first := Reader.EntryOf(f.parser, Reader.Line(file, pos), end);
        ReadsFirst(f, ends, pos, end, first, rest);
        SameReads(f, ends, pos, rest.(entries := first + rest.entries), Reader.Scan(f.parser, file, pos));
      }
    }
  }

  lemma ScanNothing(f: Feed, v: nat)
    requires v <= |f.text|
    ensures Reader.Scan(f.parser, f.text[..v], v) == Reader.Pass([], [], v)
  {
  }

  lemma SameReads(f: Feed, ends: set<nat>, pos: nat, a: Reader.Pass, b: Reader.Pass)
    requires ReadsAll(f, ends, pos, a) && a.entries == b.entries && a.offset == b.offset
    ensures ReadsAll(f, ends, pos, b)
  {
  }

  /** The pass over the first line, when the pass starts with it. */
  lemma ScanFromStart(f: Feed, ends: set<nat>, v: nat, pos: nat)
    requires Proper(f) && Good(f, ends, pos) && pos < v <= |f.text| && v in ends && Reader.Boundary(f.text, pos)
    ensures var end, r := Reader.LineEnd(f.text, pos), Reader.Scan(f.parser, f.text[..v], pos);
            && pos < end
            && (end > v ==> ReadsAll(f, ends, pos, r))
            && (end <= v ==>
                  var rest := Reader.Scan(f.parser, f.text[..v], end);
                  && r.entries == Reader.EntryOf(f.parser, Reader.Line(f.text, pos), end) + rest.entries
                  && r.offset == rest.offset)
  {
    WholeLineRead(f, ends, v, pos);
    Reader.PrefixLine(f.parser, f.text, v, pos);
    hide Reader.Scan, Reader.LineOf, Good, Reader.Transcript, Reader.LineEnd, Reader.Line, Reader.NewlineBlind;
    hide Entry;
  }

  lemma PollReadsAll(f: Feed, ends: set<nat>, v: nat, offset: nat)
    requires Proper(f) && Apart(f, ends) && v in ends && offset <= v <= |f.text| && Good(f, ends, offset)
    ensures ReadsAll(f, ends, offset, Reader.Poll(f.parser, f.text[..v], offset))
  {
    var file := f.text[..v];
    if 0 < offset < v && file[offset] != '{' {
      assert !Reader.Boundary(f.text, offset) by {
        if Reader.Boundary(f.text, offset) {
          LineStart(f, offset);
        }
      }
      SkipReadsAll(f, ends, v, offset);
    } else {
      ScanReadsAll(f, ends, v, offset);
    }
  }

  lemma SkipReadsAll(f: Feed, ends: set<nat>, v: nat, offset: nat)
    requires Proper(f) && Apart(f, ends) && v in ends && Good(f, ends, offset)
    requires 0 < offset < v <= |f.text| && !Reader.Boundary(f.text, offset)
    ensures ReadsAll(f, ends, offset, Reader.Pass([], [], Reader.LineEnd(f.text[..v], offset + 1)))
  {
    var file := f.text[..v];
    if f.text[offset] != '\n' {
      EndIsGood(f, ends, v, offset);
      assert Reader.LineEnd(file, offset) == Reader.LineEnd(file, offset + 1);
    } else {
      StartIsGood(f, ends, offset + 1);
      if offset + 1 < v {
        assert !Entry(f, offset + 1);
        EndIsGood(f, ends, v, offset + 1);
      }
      hide Good, Reader.LineEnd, Entry;
      assert forall start: nat :: Entry(f, start) && offset <= start ==> offset < start by {
        EntryIsBoundary(f, offset);
      }
    }
  }

  lemma EntryIsBoundary(f: Feed, pos: nat)
    ensures Entry(f, pos) ==> Reader.Boundary(f.text, pos)
  {
  }

  // --- Runs ---

  ghost predicate GoodState(f: Feed, ends: set<nat>, s: State) {
    && Good(f, ends, From(s.disk)) && Good(f, ends, From(s.offsets.tracked))
    && (s.offsets.deferred.Some? ==> Good(f, ends, s.offsets.deferred.value))
    && (forall r :: r in s.cursors ==> Good(f, ends, s.cursors[r]))
    && (!s.phase.Idle? ==> forall i :: 0 <= i < |s.phase.batch.messages| ==> Good(f, ends, s.phase.batch.messages[i]))
  }

  lemma StartGood(f: Feed, ends: set<nat>, s: State, bound: set<Recipient>)
    requires Proper(f) && GoodState(f, ends, s)
    ensures Good(f, ends, Start(s, bound))
  {
    hide Good, Reader.Transcript;
    StartIsGood(f, ends, 0);
    var point := ResumePoint(s.cursors, bound, s.size);
    assert IsResumePoint(s.cursors, bound, s.size, point);
  }

  lemma ReadIsGood(f: Feed, ends: set<nat>, s: State, bound: set<Recipient>)
    requires Proper(f) && Apart(f, ends) && ShapeOk(f, s) && GoodState(f, ends, s) && s.size in ends
    ensures ReadsAll(f, ends, Start(s, bound), Read(f, s, bound)) && !SkipsNew(f, s, bound)
  {
    StartGood(f, ends, s, bound);
    ReadEnds(f, s, bound);
    PollReadsAll(f, ends, s.size, Start(s, bound));
    hide Good, Entry, Reader.Poll, Start, Reader.LineOf;
    assert Visible(f, s.size) == f.text[..s.size];
  }

  lemma MessagesGood(f: Feed, ends: set<nat>, r: Reader.Pass, counts: seq<nat>, i: nat)
    requires |counts| == |r.entries| && i < |Messages(r, counts)| && Good(f, ends, 0)
    requires forall k :: 0 <= k < |r.entries| ==> Good(f, ends, r.entries[k].end)
    ensures Good(f, ends, Messages(r, counts)[i])
  {
    hide Good, Sources;
    var sources := Sources(r.entries, counts);
    if i >= |r.limits| {
      var source := sources[i - |r.limits|];
      assert source in sources;
      SourcesAre(r.entries, counts, source);
      var k: nat :| Yields(r.entries, counts, source, k);
    }
  }

  lemma PolledGood(f: Feed, ends: set<nat>, s: State, bound: set<Recipient>, counts: seq<nat>, saved: bool)
    requires Proper(f) && Apart(f, ends) && ShapeOk(f, s) && GoodState(f, ends, s) && s.size in ends
    requires Enabled(f, s, Poll(bound, counts, saved))
    ensures GoodState(f, ends, Polled(f, s, bound, counts, saved))
  {
    var r := Read(f, s, bound);
    ReadIsGood(f, ends, s, bound);
    StartIsGood(f, ends, 0);
    forall i | 0 <= i < |Messages(r, counts)| ensures Good(f, ends, Messages(r, counts)[i]) {
      MessagesGood(f, ends, r, counts, i);
    }
    hide Good, Read, Messages, Silent, Start;
  }

  lemma StepGood(f: Feed, ends: set<nat>, s: State, e: Event)
    requires Proper(f) && Apart(f, ends) && ShapeOk(f, s) && GoodState(f, ends, s) && Enabled(f, s, e)
    requires e.Poll? ==> s.size in ends
    ensures GoodState(f, ends, Step(f, s, e))
  {
    hide Good, Proper, Apart, InLines;
    match e
    case Poll(bound, counts, saved) => PolledGood(f, ends, s, bound, counts, saved);
    case _ =>
  }

  lemma {:induction false} RunGood(f: Feed, ends: set<nat>, states: seq<State>, events: seq<Event>, n: nat)
    requires Proper(f) && Apart(f, ends) && Run(f, states, events) && n <= |events| && SeenAt(states, events, ends)
    ensures GoodState(f, ends, states[n])
  {
    if n == 0 {
      StartIsGood(f, ends, 0);
    } else {
      RunGood(f, ends, states, events, n - 1);
      RunShape(f, states, events, n - 1);
      hide Proper, Apart, GoodState, ShapeOk, Step, Enabled;
      assert states[n - 1 + 1] == Step(f, states[n - 1], events[n - 1]);
      StepGood(f, ends, states[n - 1], events[n - 1]);
    }
  }

  /** If no visible end is torn with more to be seen later, no poll skips a line: only a
      group given up between two messages of one line loses any. */
  lemma ApartNeverSkips(f: Feed, ends: set<nat>, states: seq<State>, events: seq<Event>, n: nat)
    requires Proper(f) && Apart(f, ends) && Run(f, states, events) && SeenAt(states, events, ends)
    requires n < |events| && Drops(f, states[n], events[n])
    ensures !events[n].Poll? && MidLine(states[n].phase)
  {
    hide Proper, Apart, GoodState, ShapeOk, SkipsNew, MidLine;
    if events[n].Poll? {
      RunGood(f, ends, states, events, n);
      RunShape(f, states, events, n);
      ReadIsGood(f, ends, states[n], events[n].bound);
    }
  }

  // --- One message a line ---

  ghost predicate Distinct(messages: seq<nat>) {
    forall i, j :: 0 <= i < j < |messages| && messages[i] > 0 ==> messages[i] != messages[j]
  }

  ghost predicate BatchDistinct(s: State) {
    !s.phase.Idle? ==> Distinct(s.phase.batch.messages)
  }

  lemma {:induction false} SourcesDistinct(entries: seq<Reader.Entry>, counts: seq<nat>, low: nat, high: nat)
    requires |counts| == |entries| && AtMostOne(counts) && Reader.EndsAscend(entries, low, high)
    ensures Distinct(Sources(entries, counts))
  {
    if entries != [] {
      var n := |entries| - 1;
      var init := entries[..n];
      SourcesDistinct(init, counts[..n], low, high);
      var before, last := Sources(init, counts[..n]), Copies(entries[n].end, counts[n]);
      forall i | 0 <= i < |before| ensures before[i] < entries[n].end {
        SourcesAre(init, counts[..n], before[i]);
        var k: nat :| Yields(init, counts[..n], before[i], k);
        assert init[k] == entries[k];
      }
      assert |last| <= 1 && forall i :: 0 <= i < |last| ==> last[i] == entries[n].end;
    }
  }

  lemma PolledDistinct(f: Feed, s: State, bound: set<Recipient>, counts: seq<nat>, saved: bool)
    requires ShapeOk(f, s) && Enabled(f, s, Poll(bound, counts, saved)) && AtMostOne(counts)
    ensures BatchDistinct(Polled(f, s, bound, counts, saved))
  {
    var r := Read(f, s, bound);
    var sources, all, zeros := Sources(r.entries, counts), Messages(r, counts), |r.limits|;
    ReadEnds(f, s, bound);
    SourcesDistinct(r.entries, counts, Start(s, bound), r.offset);
    hide Read, Sources, Start, Silent, Reader.OwnLines;
    assert forall i :: zeros <= i < |all| ==> all[i] == sources[i - zeros];
    assert forall i :: 0 <= i < zeros ==> all[i] == 0;
  }

  lemma {:induction false} RunDistinct(f: Feed, states: seq<State>, events: seq<Event>, n: nat)
    requires Run(f, states, events) && n <= |events| && Single(events)
    ensures BatchDistinct(states[n]) && !MidLine(states[n].phase)
  {
    if n > 0 {
      RunDistinct(f, states, events, n - 1);
      RunShape(f, states, events, n - 1);
      assert states[n - 1 + 1] == Step(f, states[n - 1], events[n - 1]);
      hide Distinct, AtMostOne;
      assert BatchDistinct(states[n]) by {
        if events[n - 1].Poll? {
          PolledDistinct(f, states[n - 1], events[n - 1].bound, events[n - 1].counts, events[n - 1].saved);
        } else {
          DistinctStays(f, states[n - 1], events[n - 1]);
        }
      }
      hide *;
      assert !MidLine(states[n].phase) by { DistinctNotMid(states[n]); }
    }
  }

  lemma DistinctNotMid(s: State)
    requires BatchDistinct(s)
    ensures !MidLine(s.phase)
  {
  }

  lemma DistinctStays(f: Feed, s: State, e: Event)
    requires BatchDistinct(s) && Enabled(f, s, e) && !e.Poll?
    ensures BatchDistinct(Step(f, s, e))
  {
    hide Distinct, HasIt, Marked;
  }

  // --- Which schedules lose a line ---

  /** No run that sees the text up to these ends, with one message a line at most, loses
      a line. */
  ghost predicate Lossless(f: Feed, ends: set<nat>) {
    forall states: seq<State>, events: seq<Event>, n: nat {:trigger Lossy(f, ends, states, events, n)} ::
      !Lossy(f, ends, states, events, n)
  }

  ghost predicate Lossy(f: Feed, ends: set<nat>, states: seq<State>, events: seq<Event>, n: nat) {
    && Run(f, states, events) && n <= |events| && SeenAt(states, events, ends) && Single(events)
    && !NothingLost(f, states[n])
  }

  ghost predicate Noticeless(f: Feed) {
    forall line: string :: f.parser.limit(line).None?
  }

  lemma {:induction false} ScanNoLimits(f: Feed, file: string, pos: nat)
    requires Noticeless(f) && pos <= |file|
    ensures Reader.Scan(f.parser, file, pos).limits == []
    decreases |file| - pos
  {
    if pos < |file| {
      ScanNoLimits(f, file, Reader.LineEnd(file, pos));
      assert f.parser.limit(Reader.Line(file, pos)).None?;
    }
  }

  lemma NoneBound(s: State)
    ensures Start(s, {}) == From(s.offsets.tracked)
  {
    assert IsResumePoint(s.cursors, {}, s.size, ResumePoint(s.cursors, {}, s.size));
  }

  lemma FirstRead(f: Feed, a: nat)
    requires Proper(f) && Noticeless(f) && Reader.TornAt(f.text, a)
    ensures var r := Read(f, Initial().(size := a), {});
            && r.offset == a && r.limits == [] && forall k :: 0 <= k < |r.entries| ==> 0 < r.entries[k].end <= a
  {
    var s := Initial().(size := a);
    NoneBound(s);
    assert Visible(f, a) == f.text[..a];
    Reader.PrefixStops(f.parser, f.text, a, 0);
    ScanNoLimits(f, f.text[..a], 0);
    Reader.ScanEnds(f.parser, f.text[..a], 0);
    hide Reader.Scan, Start;
  }

  lemma SecondRead(f: Feed, s: State, a: nat, b: nat)
    requires Reader.TornAt(f.text, a) && a + 1 < b <= |f.text| && s.size == b && s.offsets == Offsets(Some(a), None)
    ensures var r := Read(f, s, {}); r.offset > a + 1 && r.limits == [] && r.entries == []
  {
    NoneBound(s);
    assert Visible(f, b) == f.text[..b] && f.text[..b][a] == '\n';
    hide Start;
  }

  lemma {:induction false} SourcesNone(entries: seq<Reader.Entry>, counts: seq<nat>)
    requires |counts| == |entries| && forall k :: 0 <= k < |counts| ==> counts[k] == 0
    ensures Sources(entries, counts) == []
  {
    if entries != [] {
      SourcesNone(entries[..|entries| - 1], counts[..|entries| - 1]);
    }
  }

  /** A poll whose entries yield no message is committed at once. */
  lemma CommittedAtOnce(f: Feed, s: State, counts: seq<nat>)
    requires |counts| == |Read(f, s, {}).entries| && Read(f, s, {}).limits == []
    requires forall k :: 0 <= k < |counts| ==> counts[k] == 0
    ensures var r, n := Read(f, s, {}), Polled(f, s, {}, counts, true);
            && n.offsets == Offsets(Some(r.offset), None) && n.size == s.size && n.phase == s.phase
            && n.history.acked == s.history.acked && n.history.passed == s.history.passed
            && n.history.silent == s.history.silent + Silent(f, r.entries, counts)
  {
    NoneBound(s);
    SourcesNone(Read(f, s, {}).entries, counts);
    hide Read, Sources, Silent, Start;
  }

  lemma SilentBelow(f: Feed, entries: seq<Reader.Entry>, counts: seq<nat>, high: nat)
    requires |counts| == |entries| && forall k :: 0 <= k < |entries| ==> 0 < entries[k].end <= high
    ensures forall line :: line in Silent(f, entries, counts) ==> line < high
  {
  }

  /** The run: the monitor reads the object without its newline, then sees more. */
  lemma TornRun(f: Feed, a: nat, b: nat) returns (states: seq<State>, events: seq<Event>)
    requires Proper(f) && Noticeless(f) && a + 1 < b <= |f.text|
    requires Reader.TornAt(f.text, a) && Entry(f, a + 1)
    ensures Lossy(f, {a, b}, states, events, |events|) && Lost(f, states[|events|], a + 1)
  {
    var s0 := Initial();
    var s1 := s0.(size := a);
    var r := Read(f, s1, {});
    FirstRead(f, a);
    var counts := seq(|r.entries|, _ => 0);
    var s2 := Polled(f, s1, {}, counts, true);
    CommittedAtOnce(f, s1, counts);
    SilentBelow(f, r.entries, counts, a);
    var s3 := s2.(size := b);
    SecondRead(f, s3, a, b);
    var s4 := Polled(f, s3, {}, [], true);
    CommittedAtOnce(f, s3, []);
    SilentBelow(f, [], [], 0);
    states, events := [s0, s1, s2, s3, s4], [Append(a), Poll({}, counts, true), Append(b), Poll({}, [], true)];
    hide Read, Polled, Reader.LineOf, Entry, Reader.TornAt, Proper, Noticeless, Silent;
    assert Lost(f, s4, a + 1);
    assert Steps(f, s0, events[0], s1) && Steps(f, s1, events[1], s2);
    assert Steps(f, s2, events[2], s3) && Steps(f, s3, events[3], s4);
    hide Steps, Lost;
    IsRun(f, states, events);
  }

  ghost predicate Steps(f: Feed, s: State, e: Event, t: State) {
    Enabled(f, s, e) && t == Step(f, s, e)
  }

  lemma IsRun(f: Feed, states: seq<State>, events: seq<Event>)
    requires |states| == |events| + 1 && states[0] == Initial()
    requires forall i :: 0 <= i < |events| ==> Steps(f, states[i], events[i], states[i + 1])
    ensures Run(f, states, events)
  {
    hide Enabled, Step;
    forall i | 0 <= i < |events|
      ensures Enabled(f, states[i], events[i]) && states[i + 1] == Step(f, states[i], events[i])
    {
      assert Steps(f, states[i], events[i], states[i + 1]);
    }
  }

  /** The exact condition on the schedule: no run loses a line, whatever is paused, failed,
      interrupted or restarted, if and only if no poll sees an object without its newline
      and a later one more than that newline, where the next line is an entry. */
  lemma ScheduleExact(f: Feed, ends: set<nat>)
    requires Proper(f) && Noticeless(f) && forall v :: v in ends ==> v <= |f.text|
    ensures Lossless(f, ends) <==> Apart(f, ends)
  {
    hide Proper, Noticeless, Reader.TornAt, Entry;
    if Apart(f, ends) {
      forall states: seq<State>, events: seq<Event>, n: nat ensures !Lossy(f, ends, states, events, n) {
        if Run(f, states, events) && n <= |events| && SeenAt(states, events, ends) && Single(events) {
          ApartIsLossless(f, ends, states, events, n);
        }
      }
    } else {
      var a, b :| a in ends && b in ends && Reader.TornAt(f.text, a) && Entry(f, a + 1) && b > a + 1;
      var states, events := TornRun(f, a, b);
      assert SeenAt(states, events, ends);
      assert Lossy(f, ends, states, events, |events|);
    }
  }

  lemma ApartIsLossless(f: Feed, ends: set<nat>, states: seq<State>, events: seq<Event>, n: nat)
    requires Proper(f) && Apart(f, ends) && Run(f, states, events) && n <= |events|
    requires SeenAt(states, events, ends) && Single(events)
    ensures NothingLost(f, states[n])
  {
    hide Proper, Apart, Drops, MidLine, NothingLost;
    forall i | 0 <= i < n ensures !Drops(f, states[i], events[i]) {
      if Drops(f, states[i], events[i]) {
        ApartNeverSkips(f, ends, states, events, i);
        RunDistinct(f, states, events, i);
      }
    }
    RunSafe(f, states, events, n);
  }

  // --- Inputs that lose a line ---

  /** Two entries of one message each, first seen without the newline between them. */
  lemma TornDelivery()
    ensures var f := Feed(Reader.TwoEntries(), Reader.LINES);
            && Proper(f) && Noticeless(f) && !Lossless(f, {3, 8}) && Lossless(f, {4, 8})
  {
    var f := Feed(Reader.TwoEntries(), Reader.LINES);
    Reader.TwoEntriesBlind();
    Reader.LinesAreEntries();
    SecondEntry();
    assert Reader.LINES[3] == '\n' && Reader.LINES[4] == '{';
    hide Reader.TwoEntries, Reader.NewlineBlind, Reader.Transcript, Entry, Lossless;
    assert Noticeless(f) by { NoNotices(); }
    hide Noticeless;
    assert !Apart(f, {3, 8});
    assert Apart(f, {4, 8});
    ScheduleExact(f, {3, 8});
    ScheduleExact(f, {4, 8});
  }

  lemma NoNotices()
    ensures Noticeless(Feed(Reader.TwoEntries(), Reader.LINES))
  {
  }

  lemma SecondEntry()
    ensures Entry(Feed(Reader.TwoEntries(), Reader.LINES), 0) && Entry(Feed(Reader.TwoEntries(), Reader.LINES), 4)
  {
    Reader.LinesAreEntries();
    Reader.RecognisedEntry("{a}\n");
    Reader.RecognisedEntry("{b}\n");
    hide Reader.LineEnd, Reader.TwoEntries;
    assert Reader.Line(Reader.LINES, 0) == "{a}\n" && Reader.Line(Reader.LINES, 4) == "{b}\n";
  }

  lemma FirstLineRead(f: Feed)
    requires Proper(f) && Noticeless(f) && Entry(f, 0)
    ensures var e := Reader.LineEnd(f.text, 0);
            var r := Read(f, Initial().(size := e), {});
            && 0 < e <= |f.text| && r.offset == e && r.limits == []
            && |r.entries| == 1 && r.entries[0].end == e && Reader.LineOf(f.text, e) == 0
  {
    var e := Reader.LineEnd(f.text, 0);
    NoneBound(Initial().(size := e));
    assert Visible(f, e) == f.text[..e];
    Reader.PrefixLine(f.parser, f.text, e, 0);
    ScanNothing(f, e);
    ScanNoLimits(f, f.text[..e], 0);
    Reader.LineEndIs(f.text, 0);
    Reader.LineOfIs(f.text, 0, e);
    hide Reader.Scan, Start, Reader.LineOf;
  }

  /** The first line yields two messages, the first is acknowledged and the group fails at
      the second: the saved offset is behind the line, and the second message is lost. */
  lemma SplitRun(f: Feed) returns (states: seq<State>, events: seq<Event>)
    requires Proper(f) && Noticeless(f) && Entry(f, 0)
    ensures Run(f, states, events) && |events| == 5 && events[4] == Abort(false)
    ensures Lost(f, states[|events|], 0) && states[|events|].disk == Some(Reader.LineEnd(f.text, 0))
  {
    var e := Reader.LineEnd(f.text, 0);
    FirstLineRead(f);
    var s0 := Initial();
    var s1 := s0.(size := e);
    var r := Read(f, s1, {});
    var s2 := Polled(f, s1, {}, [2], true);
    TwoMessages(f, s1);
    var s3 := s2.(phase := Calling(s2.phase.batch, Call([], 0, false)));
    var s4 := Returned(s3, true);
    var s5 := Aborted(s4, false);
    states := [s0, s1, s2, s3, s4, s5];
    events := [Append(e), Poll({}, [2], true), Notify([]), Return(true), Abort(false)];
    hide Read, Polled, Reader.LineOf, Entry, Proper, Noticeless, Silent;
    assert s4.offsets.tracked == Some(e) && s5.history.acked == {} && s5.history.passed == 0;
    assert Lost(f, s5, 0);
    assert Steps(f, s0, events[0], s1) && Steps(f, s1, events[1], s2) && Steps(f, s2, events[2], s3);
    assert Steps(f, s3, events[3], s4) && Steps(f, s4, events[4], s5);
    hide Steps, Lost;
    IsRun(f, states, events);
  }

  lemma TwoMessages(f: Feed, s: State)
    requires var r := Read(f, s, {}); |r.entries| == 1 && r.limits == []
    ensures var r, n := Read(f, s, {}), Polled(f, s, {}, [2], true);
            && n.phase == Group(Batch([r.entries[0].end, r.entries[0].end], 0)) && n.size == s.size
            && n.offsets == Offsets(s.offsets.tracked, Some(r.offset)) && n.disk == s.disk
            && n.history == s.history
  {
    var r := Read(f, s, {});
    var counts := [2];
    NoneBound(s);
    assert Sources(r.entries[..0], counts[..0]) == [];
    assert Copies(r.entries[0].end, 2) == [r.entries[0].end, r.entries[0].end];
    assert Silent(f, r.entries, counts) == {};
    hide Read, Start, Silent;
    assert Messages(r, counts) == [r.entries[0].end, r.entries[0].end];
  }

  // --- Notices ---

  /** A group that starts with `GROUP_LIMIT` notices and holds more. */
  ghost predicate Stalling(s: State, tracked: Option<nat>) {
    && s.offsets.tracked == tracked
    && (!s.phase.Idle? ==>
          var b := s.phase.batch;
          && b.index <= GROUP_LIMIT < |b.messages|
          && forall i :: 0 <= i < GROUP_LIMIT ==> b.messages[i] == 0)
  }

  lemma StepStalls(f: Feed, s: State, e: Event, tracked: Option<nat>)
    requires Stalling(s, tracked) && Enabled(f, s, e) && !e.Poll? && !e.Restart?
    requires s.phase.Calling? || s.phase.Sending? ==> s.phase.batch.index < GROUP_LIMIT
    ensures var n := Step(f, s, e);
            && Stalling(n, tracked)
            && (n.phase.Calling? || n.phase.Sending? ==> n.phase.batch.index < GROUP_LIMIT)
  {
    hide HasIt, Marked;
  }

  /** A poll that reads as many usage-limit notices as a group may hold, and anything else
      to hand out, moves the offset nowhere, whatever its callbacks answer. */
  lemma {:induction false} NoticesStall(f: Feed, states: seq<State>, events: seq<Event>, i: nat, j: nat)
    requires Run(f, states, events) && i < j <= |events| && events[i].Poll? && Enabled(f, states[i], events[i])
    requires |Read(f, states[i], events[i].bound).limits| >= GROUP_LIMIT
    requires |Messages(Read(f, states[i], events[i].bound), events[i].counts)| > GROUP_LIMIT
    requires forall k :: i < k < j ==> !events[k].Poll? && !events[k].Restart?
    ensures Stalling(states[j], states[i].offsets.tracked)
    ensures states[j].phase.Calling? || states[j].phase.Sending? ==> states[j].phase.batch.index < GROUP_LIMIT
  {
    assert states[j - 1 + 1] == Step(f, states[j - 1], events[j - 1]);
    if j == i + 1 {
      hide Read, Start, Sources, Silent;
    } else {
      NoticesStall(f, states, events, i, j - 1);
      hide Read, Messages, Stalling, Step, Enabled;
      assert Enabled(f, states[j - 1], events[j - 1]);
      StepStalls(f, states[j - 1], events[j - 1], states[i].offsets.tracked);
    }
  }
}
