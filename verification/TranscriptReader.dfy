/** Incremental reading of an append-only transcript, one JSON object on each line.

    A file is the text visible at one moment; an offset is a position in it. What a
    line means is left to the parser, given as three functions. */
module TranscriptReader {
  import opened Basics

  /** `parse` yields the entry of a line, if the line is an object that is not empty;
      `complete` says whether a line is valid JSON at all; `limit` finds a usage-limit
      notice in it. */
  datatype Parser = Parser(parse: string -> Option<string>, complete: string -> bool, limit: string -> Option<string>)

  /** An entry with the offset just behind its line. */
  datatype Entry = Entry(data: string, end: nat)

  predicate Blank(line: string) {
    forall i :: 0 <= i < |line| ==> IsSpace(line[i])
  }

  /** The offset behind the line that starts at `pos`. */
  function LineEnd(file: string, pos: nat): (end: nat)
    requires pos <= |file|
    ensures pos <= end <= |file|
    ensures pos < |file| ==> pos < end
    decreases |file| - pos
  {
    if pos == |file| then pos
    else if file[pos] == '\n' then pos + 1
    else LineEnd(file, pos + 1)
  }

  lemma {:induction false} LineEndIs(file: string, pos: nat)
    requires pos <= |file|
    ensures var end := LineEnd(file, pos);
            && (forall i :: pos <= i < end - 1 ==> file[i] != '\n')
            && (end < |file| ==> file[end - 1] == '\n')
    decreases |file| - pos
  {
    if pos < |file| && file[pos] != '\n' {
      LineEndIs(file, pos + 1);
    }
  }

  function Line(file: string, pos: nat): string
    requires pos <= |file|
  {
    file[pos..LineEnd(file, pos)]
  }

  /** Lines the reader gets past; any other line ends the pass, to be read again later. */
  predicate Consumable(p: Parser, line: string) {
    p.parse(line).Some? || Blank(line) || p.complete(line)
  }

  function EntryOf(p: Parser, line: string, end: nat): seq<Entry> {
    if p.parse(line).Some? then [Entry(p.parse(line).value, end)] else []
  }

  function LimitOf(p: Parser, line: string): seq<string> {
    if p.limit(line).Some? && p.limit(line).value != "" then [p.limit(line).value] else []
  }

  datatype Pass = Pass(entries: seq<Entry>, limits: seq<string>, offset: nat)

  /** Reading on from `pos`. */
  function Scan(p: Parser, file: string, pos: nat): (r: Pass)
    requires pos <= |file|
    ensures pos <= r.offset <= |file|
    decreases |file| - pos
  {
    if pos == |file| then Pass([], [], pos)
    else
      var end := LineEnd(file, pos);
      var line := Line(file, pos);
      if Consumable(p, line) then
        var rest := Scan(p, file, end);
        Pass(EntryOf(p, line, end) + rest.entries, LimitOf(p, line) + rest.limits, rest.offset)
      else Pass([], LimitOf(p, line), pos)
  }

  /** One poll. A recorded offset behind the end means a truncated file, read from the
      start; an offset that is not at the start of an object is moved behind the next
      line end, without reading. */
  function Poll(p: Parser, file: string, offset: nat): (r: Pass)
    ensures r.offset <= |file|
  {
    var from := if offset > |file| then 0 else offset;
    if 0 < from < |file| && file[from] != '{' then Pass([], [], LineEnd(file, from + 1))
    else Scan(p, file, from)
  }

  /** A pass that has read `entries` and `limits` already and goes on with `rest`. */
  ghost function Joined(entries: seq<Entry>, limits: seq<string>, rest: Pass): Pass {
    Pass(entries + rest.entries, limits + rest.limits, rest.offset)
  }

  lemma JoinedLine(p: Parser, file: string, pos: nat, entries: seq<Entry>, limits: seq<string>)
    requires pos < |file|
    ensures var end := LineEnd(file, pos);
            var line := Line(file, pos);
            Joined(entries, limits, Scan(p, file, pos))
              == if Consumable(p, line)
                 then Joined(entries + EntryOf(p, line, end), limits + LimitOf(p, line), Scan(p, file, end))
                 else Pass(entries, limits + LimitOf(p, line), pos)
  {
    var end := LineEnd(file, pos);
    var line := Line(file, pos);
    if Consumable(p, line) {
      var rest := Scan(p, file, end);
      hide EntryOf, LimitOf, Consumable;
      assert entries + (EntryOf(p, line, end) + rest.entries) == entries + EntryOf(p, line, end) + rest.entries;
      assert limits + (LimitOf(p, line) + rest.limits) == limits + LimitOf(p, line) + rest.limits;
    }
  }

  lemma JoinedNothing(p: Parser, file: string, entries: seq<Entry>, limits: seq<string>)
    ensures Joined(entries, limits, Scan(p, file, |file|)) == Pass(entries, limits, |file|)
  {
  }

  lemma JoinedStart(rest: Pass)
    ensures Joined([], [], rest) == rest
  {
  }

  // --- What one poll returns ---

  /** Reading from `from` comes to the line at `q`: every line ahead of it is an entry,
      blank, or valid JSON. */
  ghost predicate Visits(p: Parser, file: string, from: nat, q: nat)
    requires from <= |file|
    decreases |file| - from
  {
    from < |file| &&
    var line := Line(file, from);
    q == from || ((p.parse(line).Some? || Blank(line) || p.complete(line)) && Visits(p, file, LineEnd(file, from), q))
  }

  ghost predicate Returns(p: Parser, file: string, from: nat, q: nat, e: Entry)
    requires from <= |file|
  {
    q < |file| && Visits(p, file, from, q) && p.parse(Line(file, q)) == Some(e.data) && e.end == LineEnd(file, q)
  }

  ghost predicate Notices(p: Parser, file: string, from: nat, q: nat, text: string)
    requires from <= |file|
  {
    q < |file| && Visits(p, file, from, q) && p.limit(Line(file, q)) == Some(text) && text != ""
  }

  /** Reading on from `from` returns the entries and the notices of all lines that it comes
      to, and leaves the offset at the end, or at the line it does not get past. */
  ghost predicate IsReading(p: Parser, file: string, from: nat, r: Pass)
    requires from <= |file|
  {
    && from <= r.offset <= |file|
    && (forall e: Entry :: e in r.entries <==> exists q: nat :: Returns(p, file, from, q, e))
    && (forall text: string :: text in r.limits <==> exists q: nat :: Notices(p, file, from, q, text))
    && (forall q: nat :: Visits(p, file, from, q) ==> q <= r.offset)
    && (r.offset < |file| ==>
          && Visits(p, file, from, r.offset)
          && var line := Line(file, r.offset); p.parse(line).None? && !Blank(line) && !p.complete(line))
  }

  /** The first offset from `from` on behind a newline, or the end of the file. */
  ghost predicate NextLine(file: string, from: nat, end: nat) {
    && from <= end <= |file| && (end == from ==> end == |file|)
    && (forall i :: from <= i < end - 1 ==> file[i] != '\n')
    && (end < |file| ==> file[end - 1] == '\n')
  }

  lemma {:induction false} ScanIs(p: Parser, file: string, pos: nat)
    requires pos <= |file|
    ensures IsReading(p, file, pos, Scan(p, file, pos))
    decreases |file| - pos
  {
    if pos < |file| {
      var end, line := LineEnd(file, pos), Line(file, pos);
      if Consumable(p, line) {
        ScanIs(p, file, end);
        ReadingNext(p, file, pos, Scan(p, file, end));
      } else {
        ReadingStops(p, file, pos);
      }
    }
  }

  lemma ReadingNext(p: Parser, file: string, pos: nat, rest: Pass)
    requires pos < |file| && Consumable(p, Line(file, pos)) && IsReading(p, file, LineEnd(file, pos), rest)
    ensures var end, line := LineEnd(file, pos), Line(file, pos);
            IsReading(p, file, pos,
                      Pass(EntryOf(p, line, end) + rest.entries, LimitOf(p, line) + rest.limits, rest.offset))
  {
    var end, line := LineEnd(file, pos), Line(file, pos);
    assert forall q: nat :: Visits(p, file, pos, q) <==> q == pos || Visits(p, file, end, q);
    hide Visits, LineEnd, Line, Blank;
    forall e: Entry
      ensures e in EntryOf(p, line, end) + rest.entries <==> exists q: nat :: Returns(p, file, pos, q, e)
    {
      if q: nat :| Returns(p, file, end, q, e) {
        assert Returns(p, file, pos, q, e);
      }
      if e in EntryOf(p, line, end) {
        assert Returns(p, file, pos, pos, e);
      }
      if q: nat :| Returns(p, file, pos, q, e) {
        assert q == pos || Returns(p, file, end, q, e);
      }
    }
    forall text: string
      ensures text in LimitOf(p, line) + rest.limits <==> exists q: nat :: Notices(p, file, pos, q, text)
    {
      if q: nat :| Notices(p, file, end, q, text) {
        assert Notices(p, file, pos, q, text);
      }
      if text in LimitOf(p, line) {
        assert Notices(p, file, pos, pos, text);
      }
      if q: nat :| Notices(p, file, pos, q, text) {
        assert q == pos || Notices(p, file, end, q, text);
      }
    }
  }

  lemma ReadingStops(p: Parser, file: string, pos: nat)
    requires pos < |file| && !Consumable(p, Line(file, pos))
    ensures IsReading(p, file, pos, Pass([], LimitOf(p, Line(file, pos)), pos))
  {
    assert forall q: nat :: Visits(p, file, pos, q) <==> q == pos;
    hide Visits, LineEnd, Line, Blank;
    forall text: string
      ensures text in LimitOf(p, Line(file, pos)) <==> exists q: nat :: Notices(p, file, pos, q, text)
    {
      if text in LimitOf(p, Line(file, pos)) {
        assert Notices(p, file, pos, pos, text);
      }
    }
  }

  /** What one poll returns, for any file and any recorded offset: a truncated file is read
      from its start, an offset that is not at an object only moves behind the next line end. */
  lemma PollIs(p: Parser, file: string, offset: nat)
    ensures var r, from := Poll(p, file, offset), if offset > |file| then 0 else offset;
            if 0 < from < |file| && file[from] != '{'
            then r.entries == [] && r.limits == [] && NextLine(file, from + 1, r.offset)
            else IsReading(p, file, from, r)
  {
    var from := if offset > |file| then 0 else offset;
    if 0 < from < |file| && file[from] != '{' {
      LineEndIs(file, from + 1);
    } else {
      ScanIs(p, file, from);
      hide IsReading;
    }
  }

  class TrackedSession {
    var lastByteOffset: nat

    constructor (offset: nat)
      ensures lastByteOffset == offset
    {
      lastByteOffset := offset;
    }

    /** The loop over the lines of the open file. */
    method ReadNewLines(p: Parser, file: string) returns (entries: seq<Entry>, limits: seq<string>)
      modifies this
      ensures Pass(entries, limits, lastByteOffset) == Poll(p, file, old(lastByteOffset))
      ensures var from := if old(lastByteOffset) > |file| then 0 else old(lastByteOffset);
              if 0 < from < |file| && file[from] != '{'
              then entries == [] && limits == [] && NextLine(file, from + 1, lastByteOffset)
              else IsReading(p, file, from, Pass(entries, limits, lastByteOffset))
    {
      PollIs(p, file, lastByteOffset);
      hide IsReading, NextLine;
      hide Scan, Blank, LineEnd, Line, Joined;
      entries, limits := [], [];
      if lastByteOffset > |file| {
        lastByteOffset := 0;
      }
      if 0 < lastByteOffset < |file| && file[lastByteOffset] != '{' {
        lastByteOffset := LineEnd(file, lastByteOffset + 1);
        return;
      }
      ghost var from := lastByteOffset;
      JoinedStart(Scan(p, file, from));
      var pos, safeOffset := lastByteOffset, lastByteOffset;
      var partial := false;
      while pos < |file| && !partial
        invariant from <= safeOffset <= pos <= |file|
        invariant !partial ==> safeOffset == pos
        invariant !partial ==> Scan(p, file, from) == Joined(entries, limits, Scan(p, file, pos))
        invariant partial ==> Scan(p, file, from) == Pass(entries, limits, safeOffset)
        decreases |file| - pos
      {
        var end := LineEnd(file, pos);
        var line := Line(file, pos);
        JoinedLine(p, file, pos, entries, limits);
        assert entries + [] == entries && limits + [] == limits;
        if p.limit(line).Some? && p.limit(line).value != "" {
          limits := limits + [p.limit(line).value];
        }
        if p.parse(line).Some? {
          entries := entries + [Entry(p.parse(line).value, end)];
          safeOffset := end;
        } else if Blank(line) {
          safeOffset := end;
        } else if p.complete(line) {
          safeOffset := end;
        } else {
          partial := true;
        }
        pos := end;
      }
      JoinedNothing(p, file, entries, limits);
      lastByteOffset := safeOffset;
    }
  }

  // --- Any file, any offset ---

  /** Ends strictly increase and lie in the part just read. */
  ghost predicate EndsAscend(entries: seq<Entry>, low: nat, high: nat) {
    && (forall i :: 0 <= i < |entries| ==> low < entries[i].end <= high)
    && (forall i, j :: 0 <= i < j < |entries| ==> entries[i].end < entries[j].end)
  }

  ghost predicate Boundary(file: string, pos: nat) {
    pos <= |file| && (pos == 0 || file[pos - 1] == '\n')
  }

  lemma EndsPrepend(first: seq<Entry>, rest: seq<Entry>, low: nat, mid: nat, high: nat)
    requires |first| <= 1 && (first != [] ==> first[0].end == mid) && low < mid <= high
    requires EndsAscend(rest, mid, high)
    ensures EndsAscend(first + rest, low, high)
  {
  }

  ghost predicate EndsOk(p: Parser, file: string, pos: nat)
    requires pos <= |file|
  {
    var r := Scan(p, file, pos);
    && EndsAscend(r.entries, pos, r.offset)
    && (r.offset == pos || r.offset == |file| || Boundary(file, r.offset))
  }

  lemma EndIsBoundary(file: string, pos: nat)
    requires pos < |file|
    ensures LineEnd(file, pos) == |file| || Boundary(file, LineEnd(file, pos))
  {
    LineEndIs(file, pos);
  }

  lemma EndsNext(p: Parser, file: string, pos: nat)
    requires pos < |file| && EndsOk(p, file, LineEnd(file, pos))
    ensures EndsOk(p, file, pos)
  {
    hide LineEnd, Line, Consumable, Scan, Boundary, EndsAscend, LimitOf;
    var end := LineEnd(file, pos);
    var rest, first := Scan(p, file, end), EntryOf(p, Line(file, pos), end);
    EndIsBoundary(file, pos);
    ScanOne(p, file, pos);
    if Consumable(p, Line(file, pos)) {
      EndsPrepend(first, rest.entries, pos, end, rest.offset);
    } else {
      NothingAscends(pos);
    }
  }

  lemma NothingAscends(pos: nat)
    ensures EndsAscend([], pos, pos)
  {
  }

  lemma ScanOne(p: Parser, file: string, pos: nat)
    requires pos < |file|
    ensures var end := LineEnd(file, pos);
            var r, rest := Scan(p, file, pos), Scan(p, file, end);
            if Consumable(p, Line(file, pos))
            then r.entries == EntryOf(p, Line(file, pos), end) + rest.entries && r.offset == rest.offset
            else r.entries == [] && r.offset == pos
  {
    hide LineEnd, Line, Consumable, EntryOf, LimitOf;
  }

  lemma {:induction false} ScanEnds(p: Parser, file: string, pos: nat)
    requires pos <= |file|
    ensures EndsOk(p, file, pos)
    decreases |file| - pos
  {
    if pos < |file| {
      ScanEnds(p, file, LineEnd(file, pos));
      EndsNext(p, file, pos);
    }
  }

  /** Whatever the file and the recorded offset: entry ends strictly increase, and the
      new offset is at a line end, at the end of the file, or where it was. */
  lemma PollEnds(p: Parser, file: string, offset: nat)
    ensures var r, from := Poll(p, file, offset), if offset > |file| then 0 else offset;
            && EndsAscend(r.entries, from, r.offset) && from <= r.offset
            && (r.offset == from || r.offset == |file| || Boundary(file, r.offset))
  {
    var from := if offset > |file| then 0 else offset;
    ScanEnds(p, file, from);
    if from < |file| {
      LineEndIs(file, from + 1);
    }
  }

  // --- Incremental reading refines one reading ---

  /** The part of `file` from `pos` is objects on lines of their own, each parsed to an
      entry, and a last line without newline that the reader does not yet get past. */
  ghost predicate Objects(p: Parser, file: string, pos: nat)
    requires pos <= |file|
    decreases |file| - pos
  {
    pos == |file| ||
    (&& file[pos] == '{'
     && var end := LineEnd(file, pos);
        if file[end - 1] == '\n' then p.parse(Line(file, pos)).Some? && Objects(p, file, end)
        else !Consumable(p, Line(file, pos)))
  }

  lemma {:induction false} LineEndLater(file: string, later: string, pos: nat)
    requires pos < |file| && file <= later && file[LineEnd(file, pos) - 1] == '\n'
    ensures LineEnd(later, pos) == LineEnd(file, pos)
    decreases |file| - pos
  {
    if file[pos] != '\n' {
      LineEndLater(file, later, pos + 1);
    }
  }

  ghost predicate WholeLine(file: string, pos: nat) {
    pos < |file| && file[LineEnd(file, pos) - 1] == '\n'
  }

  lemma LastPartial(file: string, pos: nat)
    requires pos < |file| && !WholeLine(file, pos)
    ensures LineEnd(file, pos) == |file| && '\n' !in file[pos..]
  {
    LineEndIs(file, pos);
    assert forall i :: pos <= i < |file| ==> file[i] != '\n';
  }

  lemma ScanLine(p: Parser, file: string, pos: nat)
    requires pos < |file| && Objects(p, file, pos)
    ensures var end := LineEnd(file, pos);
            if WholeLine(file, pos) then
              && p.parse(Line(file, pos)).Some? && Objects(p, file, end)
              && Scan(p, file, pos).entries == [Entry(p.parse(Line(file, pos)).value, end)] + Scan(p, file, end).entries
              && Scan(p, file, pos).offset == Scan(p, file, end).offset
            else
              && Scan(p, file, pos).entries == [] && Scan(p, file, pos).offset == pos && end == |file|
              && '\n' !in file[pos..]
  {
    if !WholeLine(file, pos) {
      LastPartial(file, pos);
    }
    ScanOne(p, file, pos);
    hide LineEnd, Line, Scan;
  }

  /** One pass over `file` stops at a line boundary, behind every complete line. */
  lemma {:induction false} PassStops(p: Parser, file: string, pos: nat)
    requires pos <= |file| && Boundary(file, pos) && Objects(p, file, pos)
    ensures var end := Scan(p, file, pos).offset; Boundary(file, end) && '\n' !in file[end..]
    decreases |file| - pos
  {
    if pos < |file| {
      ScanLine(p, file, pos);
      hide Scan, Objects, Consumable, Line, LineEnd;
      if WholeLine(file, pos) {
        PassStops(p, file, LineEnd(file, pos));
      }
    }
  }

  lemma SameLine(p: Parser, file: string, later: string, pos: nat)
    requires file <= later && WholeLine(file, pos)
    ensures var end := LineEnd(file, pos);
            LineEnd(later, pos) == end && Line(later, pos) == Line(file, pos) && WholeLine(later, pos)
  {
    LineEndLater(file, later, pos);
  }

  /** A pass over a longer file goes through there, and reads the same until there. */
  lemma {:induction false} PassContinues(p: Parser, file: string, later: string, pos: nat)
    requires file <= later && pos <= |file|
    requires Objects(p, file, pos) && Objects(p, later, pos)
    ensures var a, b := Scan(p, file, pos), Scan(p, later, Scan(p, file, pos).offset);
            && Objects(p, later, a.offset)
            && Scan(p, later, pos).entries == a.entries + b.entries
            && Scan(p, later, pos).offset == b.offset
    decreases |file| - pos
  {
    if pos < |file| {
      ScanLine(p, file, pos);
      if WholeLine(file, pos) {
        SameLine(p, file, later, pos);
        ScanLine(p, later, pos);
        hide Scan, Objects, Consumable, LineEnd, Line, WholeLine;
        PassContinues(p, file, later, LineEnd(file, pos));
      }
    }
  }

  /** A schedule: `files` are the texts that successive polls see, each extending the
      one before, all of them objects on lines, and no visible end falls between an
      object and its newline. */
  ghost predicate Schedule(p: Parser, files: seq<string>) {
    && (forall i :: 0 <= i < |files| ==> Objects(p, files[i], 0))
    && (forall i, j :: 0 <= i < j < |files| ==> files[i] <= files[j])
  }

  /** The recorded offset after the polls, and all entries they returned. */
  ghost function Polled(p: Parser, files: seq<string>): (seq<Entry>, nat) {
    if files == [] then ([], 0)
    else
      var (entries, offset) := Polled(p, files[..|files| - 1]);
      var r := Poll(p, files[|files| - 1], offset);
      (entries + r.entries, r.offset)
  }

  lemma {:induction false} ScanPrefix(p: Parser, file: string, pos: nat)
    requires pos <= |file| && Objects(p, file, pos)
    ensures var r := Scan(p, file, pos); Scan(p, file[..r.offset], pos).entries == r.entries
    ensures Scan(p, file[..Scan(p, file, pos).offset], pos).offset == Scan(p, file, pos).offset
    decreases |file| - pos
  {
    var r := Scan(p, file, pos);
    var cut := file[..r.offset];
    if pos < |file| {
      var end := LineEnd(file, pos);
      ScanLine(p, file, pos);
      if WholeLine(file, pos) {
        ScanPrefix(p, file, end);
        LineEndSame(file, cut, pos);
        assert Line(cut, pos) == Line(file, pos);
      }
    }
  }

  lemma {:induction false} LineEndSame(file: string, cut: string, pos: nat)
    requires cut <= file && pos < |file| && LineEnd(file, pos) <= |cut|
    requires file[LineEnd(file, pos) - 1] == '\n'
    ensures LineEnd(cut, pos) == LineEnd(file, pos)
    decreases |file| - pos
  {
    if file[pos] != '\n' {
      LineEndSame(file, cut, pos + 1);
    }
  }

  /** Whatever the schedule of appends and polls, the entries returned so far are those
      of a single reading of the part consumed so far, and that part is exactly the
      complete lines that the newest poll saw. */
  lemma {:induction false} IncrementalReading(p: Parser, files: seq<string>)
    requires Schedule(p, files) && files != []
    ensures var file, (entries, offset) := files[|files| - 1], Polled(p, files);
            && Boundary(file, offset) && '\n' !in file[offset..]
            && Scan(p, file[..offset], 0) == Pass(entries, Scan(p, file[..offset], 0).limits, offset)
  {
    PolledIsScan(p, files);
    var file := files[|files| - 1];
    ScanPrefix(p, file, 0);
    PassStops(p, file, 0);
  }

  lemma {:induction false} PolledIsScan(p: Parser, files: seq<string>)
    requires Schedule(p, files) && files != []
    ensures var r := Scan(p, files[|files| - 1], 0); Polled(p, files) == (r.entries, r.offset)
  {
    var before, file := files[..|files| - 1], files[|files| - 1];
    if before == [] {
      assert Polled(p, before) == ([], 0);
      assert [] + Scan(p, file, 0).entries == Scan(p, file, 0).entries;
    } else {
      PolledIsScan(p, before);
      var last := before[|before| - 1];
      assert last == files[|files| - 2] && last <= file;
      PassContinues(p, last, file, 0);
      var offset := Scan(p, last, 0).offset;
      assert offset < |file| ==> file[offset] == '{';
      hide Scan, Objects;
    }
  }

  /** A file that got shorter than the recorded offset is read from its start: the poll
      returns what a poll of a new session would, and when its lines are objects these are
      the entries of a single reading of all its complete lines. */
  lemma TruncatedIsReadAgain(p: Parser, file: string, offset: nat)
    requires offset > |file|
    ensures Poll(p, file, offset) == Poll(p, file, 0)
    ensures Objects(p, file, 0) ==>
              var r := Poll(p, file, offset);
              && Boundary(file, r.offset) && '\n' !in file[r.offset..]
              && Scan(p, file[..r.offset], 0).entries == r.entries
              && Scan(p, file[..r.offset], 0).offset == r.offset
  {
    if Objects(p, file, 0) {
      PassStops(p, file, 0);
      ScanPrefix(p, file, 0);
    }
    hide Scan, Objects;
  }

  // --- When a visible end does fall between an object and its newline ---

  /** The last line was read up to the end of the file, ahead of its newline. */
  ghost predicate Torn(file: string, offset: nat) {
    0 < offset == |file| && file[offset - 1] != '\n'
  }

  /** Then the poll that first sees the newline returns nothing and moves behind the
      line after it: that line is lost, unless nothing of it is visible yet. */
  lemma TornNewlineSkipsNextLine(p: Parser, file: string, later: string)
    requires Torn(file, |file|) && file + "\n" <= later
    ensures var r := Poll(p, later, |file|);
            && r.entries == [] && r.limits == []
            && r.offset == LineEnd(later, |file| + 1)
            && (r.offset == |file| + 1 <==> later == file + "\n")
  {
    assert later[|file|] == '\n';
  }

  /** A line that the reader gets past, with or without its newline, but not before. */
  ghost predicate Recognised(p: Parser, line: string) {
    && 2 <= |line| && line[|line| - 1] == '\n' && line[0] == '{'
    && Consumable(p, line)
    && forall k :: 0 < k < |line| - 1 ==> !Consumable(p, line[..k])
  }

  /** The part of `text` from `pos` is objects on lines of their own: the whole text that
      the agent will have written, of which each poll sees a prefix. */
  ghost predicate Transcript(p: Parser, text: string, pos: nat)
    requires pos <= |text|
    decreases |text| - pos
  {
    pos == |text| ||
    (WholeLine(text, pos) && Recognised(p, Line(text, pos)) && Transcript(p, text, LineEnd(text, pos)))
  }

  /** A newline behind an object changes nothing for the parser. */
  ghost predicate NewlineBlind(p: Parser) {
    forall line: string :: && p.parse(line + "\n") == p.parse(line)
                           && p.complete(line + "\n") == p.complete(line)
  }

  /** The text is visible up to an object, and not its newline. */
  ghost predicate TornAt(text: string, v: nat) {
    0 < v < |text| && text[v] == '\n'
  }

  function Data(entries: seq<Entry>): seq<string> {
    seq(|entries|, i requires 0 <= i < |entries| => entries[i].data)
  }

  lemma DataConcat(a: seq<Entry>, b: seq<Entry>)
    ensures Data(a + b) == Data(a) + Data(b)
  {
  }

  lemma LineEndOfPrefix(text: string, v: nat, pos: nat)
    requires pos < v <= |text| && WholeLine(text, pos)
    ensures LineEnd(text[..v], pos) == Min(LineEnd(text, pos), v)
    ensures Line(text[..v], pos) == text[pos..Min(LineEnd(text, pos), v)]
    decreases v - pos
  {
    if text[pos] != '\n' && pos + 1 < v {
      LineEndOfPrefix(text, v, pos + 1);
    }
  }

  /** The first line of a pass, when the text is visible up to `v`. */
  lemma PrefixLine(p: Parser, text: string, v: nat, pos: nat)
    requires NewlineBlind(p) && pos < v <= |text| && Transcript(p, text, pos)
    ensures var end, r := LineEnd(text, pos), Scan(p, text[..v], pos);
            if end <= v then
              var rest := Scan(p, text[..v], end);
              && r.entries == EntryOf(p, Line(text, pos), end) + rest.entries && r.offset == rest.offset
            else if end == v + 1 then
              r.entries == EntryOf(p, Line(text, pos), v) && r.offset == v
            else r.entries == [] && r.offset == pos
  {
    var end, line := LineEnd(text, pos), Line(text, pos);
    LineEndOfPrefix(text, v, pos);
    ScanOne(p, text[..v], pos);
    if end == v + 1 {
      TornLine(p, line);
      assert line[..|line| - 1] == text[pos..v];
    } else if end > v {
      assert line[..v - pos] == text[pos..v];
    }
  }

  lemma TornLine(p: Parser, line: string)
    requires NewlineBlind(p) && Recognised(p, line)
    ensures var o := line[..|line| - 1]; Consumable(p, o) && p.parse(o) == p.parse(line)
  {
    var o := line[..|line| - 1];
    assert o + "\n" == line;
    assert p.parse(o + "\n") == p.parse(o);
    assert o[0] == line[0];
    assert !Blank(line);
  }

  lemma TranscriptNext(p: Parser, text: string, pos: nat)
    requires pos < |text| && Transcript(p, text, pos)
    ensures Transcript(p, text, LineEnd(text, pos)) && Boundary(text, LineEnd(text, pos)) && text[pos] == '{'
  {
    LineEndIs(text, pos);
    assert text[pos] == Line(text, pos)[0];
  }

  lemma TornInLine(text: string, v: nat, pos: nat)
    requires pos < v < |text| && pos < LineEnd(text, pos)
    ensures TornAt(text, v) && v < LineEnd(text, pos) ==> LineEnd(text, pos) == v + 1
    ensures LineEnd(text, pos) == v + 1 && WholeLine(text, pos) ==> TornAt(text, v)
  {
    LineEndIs(text, pos);
  }

  lemma BoundaryNotTorn(p: Parser, text: string, pos: nat)
    requires pos <= |text| && Transcript(p, text, pos)
    ensures pos < |text| ==> text[pos] == '{' && !TornAt(text, pos) && WholeLine(text, pos)
  {
    if pos < |text| {
      TranscriptNext(p, text, pos);
    }
  }

  /** A pass over a prefix of the text stops at a line start, or at its torn end. */
  lemma {:induction false} PrefixStops(p: Parser, text: string, v: nat, pos: nat)
    requires NewlineBlind(p) && pos <= v <= |text| && Transcript(p, text, pos) && Boundary(text, pos)
    ensures var end := Scan(p, text[..v], pos).offset;
            if TornAt(text, v) && pos < v then end == v
            else end <= v && Boundary(text, end) && (end < |text| ==> text[end] == '{')
    decreases |text| - pos
  {
    BoundaryNotTorn(p, text, pos);
    hide Scan, Transcript, Recognised, NewlineBlind, LineEnd, Line, Boundary, WholeLine, TornAt;
    if pos == v {
      assert Scan(p, text[..v], pos).offset == pos;
    } else {
      var end := LineEnd(text, pos);
      PrefixLine(p, text, v, pos);
      TranscriptNext(p, text, pos);
      if v < |text| {
        TornInLine(text, v, pos);
      } else {
        assert !TornAt(text, v) by { NotTornAtEnd(text); }
      }
      if end <= v {
        BoundaryNotTorn(p, text, end);
        PrefixStops(p, text, v, end);
      }
    }
  }

  lemma NotTornAtEnd(text: string)
    ensures !TornAt(text, |text|)
  {
  }

  lemma SameData(p: Parser, line: string, end: nat, other: nat, rest: seq<Entry>)
    ensures Data(EntryOf(p, line, end) + rest) == Data(EntryOf(p, line, other)) + Data(rest)
  {
  }

  lemma Rejoined(p: Parser, line: string, end: nat, a: seq<Entry>, b: seq<Entry>, c: seq<Entry>)
    requires Data(c) == Data(a) + Data(b)
    ensures Data(EntryOf(p, line, end) + c) == Data(EntryOf(p, line, end) + a) + Data(b)
  {
    DataConcat(EntryOf(p, line, end), c);
    DataConcat(EntryOf(p, line, end), a);
    hide Data, EntryOf;
    var x := Data(EntryOf(p, line, end));
    assert x + (Data(a) + Data(b)) == x + Data(a) + Data(b);
  }

  /** Where a pass goes on that stopped at a line start, or at the torn end `v`. */
  ghost function Resumed(text: string, v: nat, pos: nat, stopped: nat): nat {
    if TornAt(text, v) && pos < v then v + 1 else stopped
  }

  ghost predicate Continues(p: Parser, text: string, v: nat, w: nat, pos: nat)
    requires pos <= v <= w <= |text| && (TornAt(text, v) ==> v < w)
  {
    var a, c := Scan(p, text[..v], pos), Scan(p, text[..w], pos);
    Data(c.entries) == Data(a.entries) + Data(Scan(p, text[..w], Resumed(text, v, pos, a.offset)).entries)
  }

  lemma WholeContinues(p: Parser, text: string, v: nat, w: nat, pos: nat)
    requires NewlineBlind(p) && pos < v <= w <= |text| && Transcript(p, text, pos)
    requires (TornAt(text, v) ==> v < w) && LineEnd(text, pos) <= v
    requires Continues(p, text, v, w, LineEnd(text, pos)) && (TornAt(text, v) ==> LineEnd(text, pos) < v)
    ensures Continues(p, text, v, w, pos)
  {
    var f, g, end := text[..v], text[..w], LineEnd(text, pos);
    PrefixLine(p, text, v, pos);
    PrefixLine(p, text, w, pos);
    hide Scan, Transcript, NewlineBlind, LineEnd, Line, TornAt, EntryOf, Data;
    var resumed := Resumed(text, v, pos, Scan(p, f, pos).offset);
    Rejoined(p, Line(text, pos), end, Scan(p, f, end).entries, Scan(p, g, resumed).entries, Scan(p, g, end).entries);
  }

  lemma CutContinues(p: Parser, text: string, v: nat, w: nat, pos: nat)
    requires NewlineBlind(p) && pos < v <= w <= |text| && Transcript(p, text, pos)
    requires (TornAt(text, v) ==> v < w) && LineEnd(text, pos) > v
    requires TornAt(text, v) <==> LineEnd(text, pos) == v + 1
    ensures Continues(p, text, v, w, pos)
  {
    var f, g, end := text[..v], text[..w], LineEnd(text, pos);
    PrefixLine(p, text, v, pos);
    if end == v + 1 {
      PrefixLine(p, text, w, pos);
      SameData(p, Line(text, pos), end, v, Scan(p, g, end).entries);
      hide Scan, Transcript, NewlineBlind, LineEnd, Line, TornAt, EntryOf, Data, Resumed;
      TornResumes(text, v, pos, Scan(p, f, pos).offset);
    } else {
      DataConcat([], Scan(p, g, pos).entries);
      assert [] + Scan(p, g, pos).entries == Scan(p, g, pos).entries;
      hide Scan, Transcript, NewlineBlind, LineEnd, Line, TornAt, EntryOf, Data;
    }
  }

  lemma TornResumes(text: string, v: nat, pos: nat, stopped: nat)
    requires TornAt(text, v) && pos < v
    ensures Resumed(text, v, pos, stopped) == v + 1
  {
  }

  /** A pass over the text visible up to `w` reads what a pass up to `v` does, and goes on
      from there; behind a torn end it goes on behind the newline. */
  lemma {:induction false} PrefixContinues(p: Parser, text: string, v: nat, w: nat, pos: nat)
    requires NewlineBlind(p) && pos <= v <= w <= |text| && Transcript(p, text, pos) && Boundary(text, pos)
    requires TornAt(text, v) ==> v < w
    ensures Continues(p, text, v, w, pos)
    decreases |text| - pos
  {
    BoundaryNotTorn(p, text, pos);
    if pos == v {
      assert Scan(p, text[..v], pos) == Pass([], [], pos);
      var later := Scan(p, text[..w], pos).entries;
      assert Data([]) + Data(later) == Data(later);
    } else {
      TranscriptNext(p, text, pos);
      if v < |text| {
        TornInLine(text, v, pos);
      } else {
        NotTornAtEnd(text);
      }
      hide *;
      var end := LineEnd(text, pos);
      if end <= v {
        BoundaryNotTorn(p, text, end);
        PrefixContinues(p, text, v, w, end);
        WholeContinues(p, text, v, w, pos);
      } else {
        CutContinues(p, text, v, w, pos);
      }
    }
  }

  /** An entry read ahead of its newline and again with it comes with two offsets. */
  lemma TornComesBack(p: Parser, text: string, v: nat, w: nat, pos: nat)
    requires NewlineBlind(p) && pos < v < w <= |text| && Transcript(p, text, pos)
    requires LineEnd(text, pos) == v + 1 && p.parse(Line(text, pos)).Some?
    ensures var data := p.parse(Line(text, pos)).value;
            && Scan(p, text[..v], pos).entries == [Entry(data, v)]
            && Scan(p, text[..w], pos).entries != [] && Scan(p, text[..w], pos).entries[0] == Entry(data, v + 1)
  {
    PrefixLine(p, text, v, pos);
    PrefixLine(p, text, w, pos);
    hide Scan, Transcript, NewlineBlind, LineEnd, Line;
  }

  /** Exactly when two polls read what one poll would: always, unless the first saw an
      object without its newline and the second sees another whole entry behind it. */
  lemma TwoPolls(p: Parser, text: string, v: nat, w: nat)
    requires NewlineBlind(p) && Transcript(p, text, 0) && v <= w <= |text|
    ensures var a := Poll(p, text[..v], 0);
            var b, c := Poll(p, text[..w], a.offset), Poll(p, text[..w], 0);
            Data(c.entries) == Data(a.entries) + Data(b.entries)
            <==> !(TornAt(text, v) && v < w && Scan(p, text[..w], v + 1).entries != [])
  {
    var f, g := text[..v], text[..w];
    var a := Scan(p, f, 0);
    PrefixStops(p, text, v, 0);
    hide Transcript, Recognised, NewlineBlind, LineEnd, Line;
    if TornAt(text, v) && v < w {
      PrefixContinues(p, text, v, w, 0);
      hide Scan;
      assert g[v] == '\n' && Poll(p, g, v).entries == [];
    } else if TornAt(text, v) {
      assert g == f && Poll(p, g, v).entries == [];
    } else {
      PrefixContinues(p, text, v, w, 0);
      hide Scan;
      assert a.offset < |g| ==> g[a.offset] == '{';
    }
  }

  // --- Lines of the text ---

  /** The start of the line that holds the character ahead of `end`. */
  function LineOf(text: string, end: nat): (start: nat)
    ensures end > 0 ==> start < end
  {
    if end == 0 || end > |text| then 0
    else if end == 1 || text[end - 2] == '\n' then end - 1
    else LineOf(text, end - 1)
  }

  lemma {:induction false} LineOfAbove(text: string, start: nat, end: nat)
    requires Boundary(text, start) && start < end <= |text|
    ensures start <= LineOf(text, end) < end
  {
    if start < end - 1 && text[end - 2] != '\n' {
      LineOfAbove(text, start, end - 1);
    }
  }

  lemma {:induction false} LineOfIs(text: string, start: nat, end: nat)
    requires Boundary(text, start) && start < end <= |text|
    requires forall i :: start <= i < end - 1 ==> text[i] != '\n'
    ensures LineOf(text, end) == start
  {
    if start < end - 1 {
      LineOfIs(text, start, end - 1);
    }
  }

  /** A whole line of the text with an entry on it. */
  ghost predicate IsEntry(p: Parser, text: string, start: nat) {
    Boundary(text, start) && WholeLine(text, start) && p.parse(Line(text, start)).Some?
  }

  /** The entries of a pass are on lines of their own. */
  ghost predicate OwnLines(text: string, entries: seq<Entry>, pos: nat) {
    && (forall i :: 0 <= i < |entries| && Boundary(text, pos) ==> pos <= LineOf(text, entries[i].end))
    && (forall i, j :: 0 <= i < j < |entries| ==> entries[i].end <= LineOf(text, entries[j].end))
  }

  lemma {:induction false} ScanOwnLines(p: Parser, text: string, v: nat, pos: nat)
    requires pos <= v <= |text|
    ensures OwnLines(text, Scan(p, text[..v], pos).entries, pos)
    decreases v - pos
  {
    var file := text[..v];
    if pos < v {
      var end := LineEnd(file, pos);
      ScanOne(p, file, pos);
      ScanOwnLines(p, text, v, end);
      if Boundary(text, pos) {
        LineOfAbove(text, pos, end);
      }
      EndIsBoundary(file, pos);
      hide Scan, LineEnd, Line, Consumable, LineOf;
      FirstOwnLine(text, EntryOf(p, Line(file, pos), end), Scan(p, file, end).entries, pos, end);
    }
  }

  lemma FirstOwnLine(text: string, first: seq<Entry>, rest: seq<Entry>, pos: nat, end: nat)
    requires |first| <= 1 && (first != [] ==> first[0].end == end) && pos < end
    requires OwnLines(text, rest, end) && (rest != [] ==> Boundary(text, end))
    requires Boundary(text, pos) ==> pos <= LineOf(text, end)
    ensures OwnLines(text, first + rest, pos)
  {
    hide LineOf, Boundary;
    var all := first + rest;
    assert forall i :: |first| <= i < |all| ==> all[i] == rest[i - |first|];
  }

  // --- A torn schedule ---

  /** Two entries, each on a line of its own. */
  const LINES := "{a}\n{b}\n"

  function ParseTwo(line: string): Option<string> {
    if "{a}" <= line then Some("{a}") else if "{b}" <= line then Some("{b}") else None
  }

  function TwoEntries(): Parser {
    Parser(ParseTwo, line => false, line => None)
  }

  lemma TwoEntriesBlind()
    ensures NewlineBlind(TwoEntries())
  {
    forall line: string ensures ParseTwo(line + "\n") == ParseTwo(line) {
      if |line| >= 3 {
        assert (line + "\n")[..3] == line[..3];
      } else if |line| == 2 {
        assert (line + "\n")[2] == '\n';
      }
    }
  }

  lemma LineEndAt(file: string, pos: nat, end: nat)
    requires pos < end <= |file| && file[end - 1] == '\n' && '\n' !in file[pos..end - 1]
    ensures LineEnd(file, pos) == end
    decreases end - pos
  {
    if pos + 1 < end {
      assert file[pos] in file[pos..end - 1] && file[pos + 1..end - 1] == file[pos..end - 1][1..];
      LineEndAt(file, pos + 1, end);
    }
  }

  lemma LinesAreEntries()
    ensures LineEnd(LINES, 0) == 4 && LineEnd(LINES, 4) == 8
    ensures Transcript(TwoEntries(), LINES, 0)
  {
    LineEndAt(LINES, 0, 4);
    LineEndAt(LINES, 4, 8);
    hide LineEnd;
    assert Line(LINES, 0) == "{a}\n" && Line(LINES, 4) == "{b}\n";
    RecognisedEntry("{a}\n");
    RecognisedEntry("{b}\n");
    hide Recognised, Line;
    assert Transcript(TwoEntries(), LINES, 4);
  }

  lemma RecognisedEntry(line: string)
    requires line == "{a}\n" || line == "{b}\n"
    ensures Recognised(TwoEntries(), line) && TwoEntries().parse(line) == Some(line[..3])
  {
    assert line[..3] == "{a}" || line[..3] == "{b}";
    forall k | 0 < k < 3 ensures !Consumable(TwoEntries(), line[..k]) {
      assert line[..k][0] == '{';
    }
  }

  /** An entry that is lost: the first poll sees the first object and not its newline, the
      second sees everything, returns nothing and stops at the end of the file. */
  lemma TornLosesEntry()
    ensures var p := TwoEntries();
            var a := Poll(p, LINES[..3], 0);
            var b, c := Poll(p, LINES, a.offset), Poll(p, LINES, 0);
            && NewlineBlind(p) && Transcript(p, LINES, 0)
            && Data(a.entries) == ["{a}"] && b.entries == [] && b.offset == |LINES|
            && Data(c.entries) == ["{a}", "{b}"]
  {
    TwoEntriesBlind();
    LinesAreEntries();
    TornPoll();
    SkippingPoll();
    WholePoll();
    hide TwoEntries, NewlineBlind, Transcript, Poll, Scan;
  }

  lemma LinesHold()
    ensures Line(LINES, 0) == "{a}\n" && Line(LINES, 4) == "{b}\n" && LINES[..8] == LINES
    ensures Transcript(TwoEntries(), LINES, 4)
  {
    LinesAreEntries();
    TranscriptNext(TwoEntries(), LINES, 0);
    hide LineEnd, Transcript, TwoEntries;
  }

  lemma TornPoll()
    ensures var r := Poll(TwoEntries(), LINES[..3], 0); Data(r.entries) == ["{a}"] && r.offset == 3
  {
    TwoEntriesBlind();
    LinesAreEntries();
    LinesHold();
    RecognisedEntry("{a}\n");
    hide TwoEntries, LineEnd, Recognised, NewlineBlind, Transcript, Scan;
    PrefixLine(TwoEntries(), LINES, 3, 0);
  }

  lemma SkippingPoll()
    ensures Poll(TwoEntries(), LINES, 3) == Pass([], [], 8)
  {
    LinesAreEntries();
    assert LINES[3] == '\n';
    hide TwoEntries, LineEnd, Transcript, Scan;
  }

  lemma WholePoll()
    ensures Data(Poll(TwoEntries(), LINES, 0).entries) == ["{a}", "{b}"]
  {
    var p := TwoEntries();
    TwoEntriesBlind();
    LinesAreEntries();
    LinesHold();
    RecognisedEntry("{a}\n");
    RecognisedEntry("{b}\n");
    hide TwoEntries, LineEnd, Recognised, NewlineBlind, Transcript, Scan;
    PrefixLine(p, LINES, 8, 0);
    PrefixLine(p, LINES, 8, 4);
    assert Scan(p, LINES, 8).entries == [] by { AtTheEnd(p, LINES); }
  }

  lemma AtTheEnd(p: Parser, file: string)
    ensures Scan(p, file, |file|) == Pass([], [], |file|)
  {
  }
}
