/** Cutting a long message into chunks that the chat server accepts. */
module Splitter {
  import opened Basics

  // --- Text ---

  function TrimLeft(s: string): (r: string)
    ensures |r| <= |s|
  {
    if s != [] && IsSpace(s[0]) then TrimLeft(s[1..]) else s
  }

  function TrimRight(s: string): (r: string)
    ensures |r| <= |s|
  {
    if s != [] && IsSpace(s[|s| - 1]) then TrimRight(s[..|s| - 1]) else s
  }

  function Trim(s: string): (r: string)
    ensures |r| <= |s|
  {
    TrimRight(TrimLeft(s))
  }

  const FENCE: string := "```"

  predicate IsFence(line: string) {
    FENCE <= Trim(line)
  }

  function DropNewlines(s: string): (r: string)
    ensures |r| <= |s| && r <= s
    ensures |s| > 0 && s[|s| - 1] == '\n' ==> |r| < |s|
  {
    if s != [] && s[|s| - 1] == '\n' then DropNewlines(s[..|s| - 1]) else s
  }

  /** The pieces between newlines; the last piece ends the text. */
  function Lines(text: string): (lines: seq<string>)
    ensures |lines| > 0
  {
    if text == [] then [""]
    else
      var last := text[|text| - 1];
      var before := Lines(text[..|text| - 1]);
      if last == '\n' then before + [""]
      else before[|before| - 1 := before[|before| - 1] + [last]]
  }

  /** A text without its newlines. */
  ghost function Ink(s: string): string {
    if s == [] then []
    else if s[|s| - 1] == '\n' then Ink(s[..|s| - 1])
    else Ink(s[..|s| - 1]) + [s[|s| - 1]]
  }

  ghost function InkOf(parts: seq<string>): string {
    if parts == [] then [] else InkOf(parts[..|parts| - 1]) + Ink(parts[|parts| - 1])
  }

  lemma {:induction false} InkConcat(a: string, b: string)
    ensures Ink(a + b) == Ink(a) + Ink(b)
  {
    if b == [] {
      assert a + b == a;
    } else {
      InkConcat(a, b[..|b| - 1]);
      assert (a + b)[..|a + b| - 1] == a + b[..|b| - 1];
    }
  }

  lemma {:induction false} InkOfConcat(a: seq<string>, b: seq<string>)
    ensures InkOf(a + b) == InkOf(a) + InkOf(b)
  {
    hide Ink;
    if b == [] {
      assert a + b == a;
    } else {
      var init, last := b[..|b| - 1], b[|b| - 1];
      InkOfConcat(a, init);
      InkOfNext(init, last);
      InkOfNext(a + init, last);
      assert init + [last] == b && a + init + [last] == a + b;
      hide InkOf;
      assert InkOf(a) + InkOf(init) + Ink(last) == InkOf(a) + (InkOf(init) + Ink(last));
    }
  }

  lemma InkOfNext(init: seq<string>, last: string)
    ensures InkOf(init + [last]) == InkOf(init) + Ink(last)
  {
    hide Ink;
    assert (init + [last])[..|init|] == init;
  }

  lemma InkOfOne(s: string)
    ensures InkOf([s]) == Ink(s)
  {
    assert [s][..0] == [];
    assert InkOf([s]) == InkOf([]) + Ink(s);
  }

  lemma {:induction false} InkDropNewlines(s: string)
    ensures Ink(DropNewlines(s)) == Ink(s)
  {
    if s != [] && s[|s| - 1] == '\n' {
      InkDropNewlines(s[..|s| - 1]);
    }
  }

  lemma {:induction false} InkLines(text: string)
    ensures InkOf(Lines(text)) == Ink(text)
  {
    if text == [] {
      InkOfOne("");
    } else {
      var last, before := text[|text| - 1], Lines(text[..|text| - 1]);
      InkLines(text[..|text| - 1]);
      var head, tail := before[..|before| - 1], before[|before| - 1];
      if last == '\n' {
        assert Lines(text) == before + [""];
        InkOfConcat(before, [""]);
        InkOfOne("");
      } else {
        assert Lines(text) == head + [tail + [last]];
        assert (head + [tail + [last]])[..|head|] == head;
        InkConcat(tail, [last]);
        assert [last][..0] == [];
        assert Ink([last]) == [last];
      }
    }
  }

  lemma {:induction false} OneLine(line: string)
    requires '\n' !in line
    ensures Lines(line) == [line]
  {
    if line != [] {
      OneLine(line[..|line| - 1]);
      assert line[..|line| - 1] + [line[|line| - 1]] == line;
      assert line[|line| - 1] in line;
    }
  }

  lemma NextChar(text: string, c: char)
    ensures var before := Lines(text);
            Lines(text + [c]) == if c == '\n' then before + [""]
                                 else before[|before| - 1 := before[|before| - 1] + [c]]
  {
    assert (text + [c])[..|text|] == text;
  }

  /** Cutting at the last newline. */
  lemma {:induction false} LastLine(head: string, line: string)
    requires '\n' !in line
    ensures Lines(head + "\n" + line) == Lines(head) + [line]
  {
    hide Lines;
    if line == [] {
      assert head + "\n" + line == head + ['\n'];
      NextChar(head, '\n');
    } else {
      var init, c := line[..|line| - 1], line[|line| - 1];
      assert c in line && init + [c] == line;
      LastLine(head, init);
      NextChar(head + "\n" + init, c);
      assert head + "\n" + line == head + "\n" + init + [c];
    }
  }

  // --- The cutting loop ---

  /** `fence` is the trimmed line that opened the newest code block. */
  datatype State = State(chunks: seq<string>, current: string, inCode: bool, fence: string)

  function Pieces(line: string, size: nat): (pieces: seq<string>)
    requires size > 0
    ensures line == [] ==> pieces == []
    decreases |line|
  {
    if line == [] then []
    else if |line| <= size then [line]
    else [line[..size]] + Pieces(line[size..], size)
  }

  ghost function Rest(line: string, i: nat): string {
    if i < |line| then line[i..] else []
  }

  lemma NextPiece(line: string, i: nat, size: nat)
    requires size > 0 && i < |line|
    ensures var end := if i + size <= |line| then i + size else |line|;
            Pieces(Rest(line, i), size) == [line[i..end]] + Pieces(Rest(line, i + size), size)
  {
    var rest := line[i..];
    if |rest| > size {
      assert rest[..size] == line[i..i + size] && rest[size..] == line[i + size..];
    } else {
      assert rest == line[i..|line|];
    }
  }

  function Toggled(s: State, line: string): State {
    if !IsFence(line) then s
    else if s.inCode then s.(inCode := false)
    else s.(inCode := true, fence := Trim(line))
  }

  function Closed(s: State): string {
    DropNewlines(s.current) + if s.inCode then "\n" + FENCE else ""
  }

  function Reopened(s: State): string {
    if s.inCode then s.fence + "\n" else ""
  }

  /** The current text goes out, closed and reopened inside a code block. */
  function Flushed(s: State): State {
    s.(chunks := s.chunks + [Closed(s)], current := Reopened(s))
  }

  /** `line` goes into the chunks, the fence state being that after `line`. */
  function Placed(s: State, line: string, size: nat): (after: State)
    requires size > 0
    ensures after.inCode == s.inCode
  {
    if |line| > size then
      var f := if s.current == "" then s else Flushed(s);
      f.(chunks := f.chunks + Pieces(line, size))
    else if |s.current| + |line| + 1 > size then
      Flushed(s).(current := Reopened(s) + line + "\n")
    else s.(current := s.current + line + "\n")
  }

  function AddLine(s: State, line: string, size: nat): State
    requires size > 0
  {
    Placed(Toggled(s, line), line, size)
  }

  function AddLines(lines: seq<string>, size: nat): State
    requires size > 0
  {
    if lines == [] then State([], "", false, "")
    else AddLine(AddLines(lines[..|lines| - 1], size), lines[|lines| - 1], size)
  }

  function Final(s: State): seq<string> {
    if s.current == "" then s.chunks else s.chunks + [DropNewlines(s.current)]
  }

  function Split(text: string, size: nat): seq<string>
    requires size > 0
  {
    if |text| <= size then [text] else Final(AddLines(Lines(text), size))
  }

  ghost function Concatenated(parts: seq<string>): string {
    if parts == [] then "" else parts[0] + Concatenated(parts[1..])
  }

  /** A line is cut into full pieces and what is left of it. */
  lemma {:induction false} PiecesAre(line: string, size: nat)
    requires size > 0
    ensures var pieces := Pieces(line, size);
            && Concatenated(pieces) == line
            && forall k :: 0 <= k < |pieces| ==>
                 0 < |pieces[k]| <= size && (k < |pieces| - 1 ==> |pieces[k]| == size)
    decreases |line|
  {
    if |line| > size {
      PiecesAre(line[size..], size);
      assert line == line[..size] + line[size..];
      assert ([line[..size]] + Pieces(line[size..], size))[1..] == Pieces(line[size..], size);
    } else if line != [] {
      assert [line][1..] == [];
    }
  }

  method CutLine(line: string, size: nat) returns (pieces: seq<string>)
    requires size > 0
    ensures pieces == Pieces(line, size)
  {
    hide Pieces;
    pieces := [];
    var i := 0;
    while i < |line|
      invariant 0 <= i
      invariant pieces + Pieces(Rest(line, i), size) == Pieces(line, size)
      decreases |line| - i
    {
      var end := if i + size <= |line| then i + size else |line|;
      NextPiece(line, i, size);
      pieces := pieces + [line[i..end]];
      i := i + size;
    }
  }

  /** The loop over the lines: its chunks are those of `Split`. */
  method SplitMessage(text: string, maxLength: nat) returns (chunks: seq<string>)
    requires maxLength > 0
    ensures chunks == Split(text, maxLength)
  {
    hide Trim, DropNewlines, Lines, Pieces;
    if |text| <= maxLength {
      return [text];
    }
    chunks := [];
    var current, inCode, codeFence := "", false, "";
    var lines := Lines(text);
    for k := 0 to |lines|
      invariant State(chunks, current, inCode, codeFence) == AddLines(lines[..k], maxLength)
    {
      var line := lines[k];
      assert lines[..k + 1][..k] == lines[..k];
      var stripped := Trim(line);
      if FENCE <= stripped {
        if !inCode {
          inCode, codeFence := true, stripped;
        } else {
          inCode := false;
        }
      }
      if |line| > maxLength {
        if current != "" {
          var chunk := DropNewlines(current);
          assert chunk + "" == chunk;
          if inCode {
            chunk := chunk + ("\n" + FENCE);
          }
          chunks := chunks + [chunk];
          current := if inCode then codeFence + "\n" else "";
        }
        var pieces := CutLine(line, maxLength);
        chunks := chunks + pieces;
      } else if |current| + |line| + 1 > maxLength {
        var chunk := DropNewlines(current);
        assert chunk + "" == chunk;
        if inCode {
          chunk := chunk + ("\n" + FENCE);
        }
        chunks := chunks + [chunk];
        current := if inCode then codeFence + "\n" + line + "\n" else line + "\n";
        assert !inCode ==> "" + line + "\n" == current;
      } else {
        current := current + line + "\n";
      }
    }
    assert lines[..|lines|] == lines;
    if current != "" {
      chunks := chunks + [DropNewlines(current)];
    }
  }

  // --- Length ---

  ghost predicate Bounded(chunks: seq<string>, bound: nat) {
    forall k :: 0 <= k < |chunks| ==> |chunks[k]| <= bound
  }

  /** No fence line is longer than `fence`, so no fence the loop remembers is. */
  ghost predicate FencesWithin(lines: seq<string>, fence: nat) {
    forall k :: 0 <= k < |lines| && IsFence(lines[k]) ==> |lines[k]| <= fence
  }

  ghost predicate FenceFree(lines: seq<string>) {
    forall k :: 0 <= k < |lines| ==> !IsFence(lines[k])
  }

  lemma {:induction false} PiecesBounded(line: string, size: nat)
    requires size > 0
    ensures Bounded(Pieces(line, size), size)
    decreases |line|
  {
    if |line| > size {
      PiecesBounded(line[size..], size);
    }
  }

  ghost predicate LengthsOk(s: State, size: nat, fence: nat) {
    && |s.fence| <= fence
    && Bounded(s.chunks, size + 5 + fence)
    && |s.current| <= size + 2 + fence
    && (s.current != "" ==> s.current[|s.current| - 1] == '\n')
  }

  lemma FlushBounded(s: State, size: nat, fence: nat)
    requires LengthsOk(s, size, fence)
    ensures LengthsOk(Flushed(s), size, fence)
    ensures |Reopened(s)| <= fence + 1
  {
  }

  lemma LineBounded(before: State, line: string, size: nat, fence: nat)
    requires size > 0 && (IsFence(line) ==> |line| <= fence)
    requires LengthsOk(before, size, fence)
    ensures LengthsOk(AddLine(before, line, size), size, fence)
  {
    var s := Toggled(before, line);
    assert LengthsOk(s, size, fence);
    hide IsFence, Toggled, Reopened, Closed, Pieces;
    FlushBounded(s, size, fence);
    if |line| > size {
      PiecesBounded(line, size);
    }
  }

  lemma {:induction false} LinesBounded(lines: seq<string>, size: nat, fence: nat)
    requires size > 0 && FencesWithin(lines, fence)
    ensures LengthsOk(AddLines(lines, size), size, fence)
  {
    if lines == [] {
    } else {
      hide LengthsOk, AddLine, IsFence;
      LinesBounded(lines[..|lines| - 1], size, fence);
      LineBounded(AddLines(lines[..|lines| - 1], size), lines[|lines| - 1], size, fence);
    }
  }

  ghost predicate PlainLengthsOk(s: State, size: nat) {
    && !s.inCode
    && Bounded(s.chunks, size)
    && |s.current| <= size + 1
    && (s.current != "" ==> s.current[|s.current| - 1] == '\n')
  }

  lemma {:induction false} PlainBounded(lines: seq<string>, size: nat)
    requires size > 0 && FenceFree(lines)
    ensures PlainLengthsOk(AddLines(lines, size), size)
  {
    if lines != [] {
      var line := lines[|lines| - 1];
      PlainBounded(lines[..|lines| - 1], size);
      PiecesBounded(line, size);
    }
  }

  /** Every chunk fits, up to the reopened fence line, the added newline and the
      closing fence. */
  lemma ChunkBound(text: string, size: nat, fence: nat)
    requires size > 0 && FencesWithin(Lines(text), fence)
    ensures Bounded(Split(text, size), size + 5 + fence)
  {
    LinesBounded(Lines(text), size, fence);
  }

  /** Without fences every chunk fits. */
  lemma PlainChunkBound(text: string, size: nat)
    requires size > 0 && FenceFree(Lines(text))
    ensures Bounded(Split(text, size), size)
  {
    PlainBounded(Lines(text), size);
  }

  // --- Conservation ---

  /** `a` can be obtained from `b` by leaving characters out. */
  ghost predicate Within(a: string, b: string) {
    || a == []
    || (b != [] && (|| (a[|a| - 1] == b[|b| - 1] && Within(a[..|a| - 1], b[..|b| - 1]))
                    || Within(a, b[..|b| - 1])))
  }

  lemma {:induction false} WithinSkip(a: string, b: string, x: string)
    requires Within(a, b)
    ensures Within(a, b + x)
  {
    if x == [] {
      assert b + x == b;
    } else {
      WithinSkip(a, b, x[..|x| - 1]);
      assert (b + x)[..|b + x| - 1] == b + x[..|x| - 1];
    }
  }

  lemma {:induction false} WithinAppend(a: string, b: string, c: string)
    requires Within(a, b)
    ensures Within(a + c, b + c)
  {
    if c == [] {
      assert a + c == a && b + c == b;
    } else {
      WithinAppend(a, b, c[..|c| - 1]);
      assert (a + c)[..|a + c| - 1] == a + c[..|c| - 1];
      assert (b + c)[..|b + c| - 1] == b + c[..|c| - 1];
    }
  }

  /** Everything written so far. */
  ghost function Written(s: State): string {
    InkOf(s.chunks) + Ink(s.current)
  }

  lemma {:induction false} PiecesInk(line: string, size: nat)
    requires size > 0
    ensures InkOf(Pieces(line, size)) == Ink(line)
    decreases |line|
  {
    if line != [] {
      if |line| <= size {
        InkOfOne(line);
      } else {
        PiecesInk(line[size..], size);
        InkOfConcat([line[..size]], Pieces(line[size..], size));
        InkOfOne(line[..size]);
        InkConcat(line[..size], line[size..]);
        assert line[..size] + line[size..] == line;
      }
    }
  }

  lemma InkLine(line: string)
    ensures Ink(line + "\n") == Ink(line)
  {
    assert (line + "\n")[..|line|] == line;
  }

  /** Pushing the current text out adds at most a closing fence. */
  lemma InkClosed(s: State)
    ensures InkOf(s.chunks + [Closed(s)]) == Written(s) + Closing(s)
  {
    InkOfConcat(s.chunks, [Closed(s)]);
    InkOfOne(Closed(s));
    InkConcat(DropNewlines(s.current), if s.inCode then "\n" + FENCE else "");
    InkDropNewlines(s.current);
  }

  ghost function Closing(s: State): string {
    if s.inCode then Ink("\n" + FENCE) else ""
  }

  /** What a line puts ahead of itself when its chunk is full. */
  ghost function Before(s: State, line: string, size: nat): string {
    if |line| > size then (if s.current == "" then "" else Closing(s))
    else if |s.current| + |line| + 1 > size then Closing(s) + Ink(Reopened(s))
    else ""
  }

  /** A line too long for a chunk goes out ahead of the reopened fence. */
  ghost function Behind(s: State, line: string, size: nat): string {
    if |line| > size && s.current != "" then Ink(Reopened(s)) else ""
  }

  lemma LongLineWritten(s: State, line: string, size: nat)
    requires size > 0 && |line| > size
    ensures InkOf(s.chunks + Pieces(line, size)) == InkOf(s.chunks) + Ink(line)
    ensures InkOf(s.chunks + [Closed(s)] + Pieces(line, size)) == Written(s) + Closing(s) + Ink(line)
  {
    PiecesInk(line, size);
    InkOfConcat(s.chunks, Pieces(line, size));
    InkOfConcat(s.chunks + [Closed(s)], Pieces(line, size));
    InkClosed(s);
  }

  lemma LineAppended(head: string, line: string)
    ensures Ink(head + line + "\n") == Ink(head) + Ink(line)
  {
    assert head + line + "\n" == head + (line + "\n");
    InkConcat(head, line + "\n");
    InkLine(line);
  }

  lemma Regroup(a: string, b: string, c: string, d: string)
    ensures a + b + (c + d) == a + (b + c) + d
  {
  }

  lemma Assoc(a: string, b: string, c: string)
    ensures a + b + c == a + (b + c) && a + "" == a
  {
  }

  lemma FullWritten(s: State, line: string, size: nat)
    requires size > 0 && |line| <= size < |s.current| + |line| + 1
    ensures Written(Placed(s, line, size)) == Written(s) + Before(s, line, size) + Ink(line)
  {
    hide Ink, InkOf, Closed, Reopened, Closing;
    InkClosed(s);
    LineAppended(Reopened(s), line);
    Regroup(Written(s), Closing(s), Ink(Reopened(s)), Ink(line));
  }

  lemma FitWritten(s: State, line: string, size: nat)
    requires size > 0 && |line| <= size && |s.current| + |line| + 1 <= size
    ensures Written(Placed(s, line, size)) == Written(s) + Ink(line)
  {
    hide Ink, InkOf;
    LineAppended(s.current, line);
    Assoc(InkOf(s.chunks), Ink(s.current), Ink(line));
  }

  lemma LongWritten(s: State, line: string, size: nat)
    requires size > 0 && |line| > size
    ensures Written(Placed(s, line, size))
              == Written(s) + Before(s, line, size) + Ink(line) + Behind(s, line, size)
  {
    assert Ink("") == "";
    hide Ink, InkOf, Closed, Reopened, Closing, Pieces;
    LongLineWritten(s, line, size);
    Assoc(Written(s), "", "");
    Assoc(Written(s) + Ink(line), "", "");
    Assoc(InkOf(s.chunks), "", "");
  }

  lemma PlacedWritten(s: State, line: string, size: nat)
    requires size > 0
    ensures Written(Placed(s, line, size))
              == Written(s) + Before(s, line, size) + Ink(line) + Behind(s, line, size)
  {
    hide Written, Placed, Ink, Closing, Reopened;
    Assoc(Written(s) + Before(s, line, size) + Ink(line), "", "");
    Assoc(Written(s), "", "");
    if |line| > size {
      LongWritten(s, line, size);
    } else if |s.current| + |line| + 1 > size {
      FullWritten(s, line, size);
    } else {
      FitWritten(s, line, size);
    }
  }

  lemma PlainPlaced(s: State, line: string, size: nat)
    requires size > 0 && !s.inCode
    ensures Written(Placed(s, line, size)) == Written(s) + Ink(line)
  {
    PlacedWritten(s, line, size);
    assert Before(s, line, size) == "" && Behind(s, line, size) == "";
    hide Written, Ink, Before, Behind;
    Assoc(Written(s), "", "");
    Assoc(Written(s) + Ink(line), "", "");
  }

  lemma WrittenToggled(s: State, line: string)
    ensures Written(Toggled(s, line)) == Written(s)
  {
  }

  lemma {:induction false} LinesWithin(lines: seq<string>, size: nat)
    requires size > 0
    ensures Within(InkOf(lines), Written(AddLines(lines, size)))
  {
    if lines != [] {
      var init, line := lines[..|lines| - 1], lines[|lines| - 1];
      LinesWithin(init, size);
      WrittenToggled(AddLines(init, size), line);
      var s := Toggled(AddLines(init, size), line);
      PlacedWritten(s, line, size);
      var w, x, y := Written(s), Before(s, line, size), Behind(s, line, size);
      WithinSkip(InkOf(init), w, x);
      WithinAppend(InkOf(init), w + x, Ink(line));
      WithinSkip(InkOf(lines), w + x + Ink(line), y);
    }
  }

  lemma {:induction false} PlainWritten(lines: seq<string>, size: nat)
    requires size > 0 && FenceFree(lines)
    ensures InkOf(lines) == Written(AddLines(lines, size)) && !AddLines(lines, size).inCode
  {
    if lines == [] {
    } else {
      var init, line := lines[..|lines| - 1], lines[|lines| - 1];
      PlainWritten(init, size);
      var s := AddLines(init, size);
      assert Toggled(s, line) == s;
      hide Ink, IsFence, Placed, Written, Toggled;
      PlainPlaced(s, line, size);
    }
  }

  lemma FinalInk(s: State)
    ensures InkOf(Final(s)) == Written(s)
  {
    InkOfConcat(s.chunks, [DropNewlines(s.current)]);
    InkOfOne(DropNewlines(s.current));
    InkDropNewlines(s.current);
  }

  /** Nothing is lost or reordered: the text can be read off the chunks, newlines aside. */
  lemma TextSurvives(text: string, size: nat)
    requires size > 0
    ensures Within(Ink(text), InkOf(Split(text, size)))
  {
    if |text| <= size {
      InkOfOne(text);
      WithinAppend([], [], Ink(text));
      assert [] + Ink(text) == Ink(text);
    } else {
      InkLines(text);
      LinesWithin(Lines(text), size);
      FinalInk(AddLines(Lines(text), size));
    }
  }

  /** Without fences the chunks are the text, newlines aside. */
  lemma PlainTextConserved(text: string, size: nat)
    requires size > 0 && FenceFree(Lines(text))
    ensures InkOf(Split(text, size)) == Ink(text)
  {
    if |text| <= size {
      InkOfOne(text);
    } else {
      InkLines(text);
      PlainWritten(Lines(text), size);
      FinalInk(AddLines(Lines(text), size));
    }
  }

  // --- No needless cut ---

  ghost predicate ShortLines(lines: seq<string>, size: nat) {
    forall k :: 0 <= k < |lines| ==> |lines[k]| <= size
  }

  ghost function Joined(lines: seq<string>): string {
    if lines == [] then "" else Joined(lines[..|lines| - 1]) + lines[|lines| - 1] + "\n"
  }

  ghost function Ungrouped(groups: seq<seq<string>>): seq<string> {
    if groups == [] then [] else Ungrouped(groups[..|groups| - 1]) + groups[|groups| - 1]
  }

  ghost function Texts(groups: seq<seq<string>>): seq<string> {
    seq(|groups|, k requires 0 <= k < |groups| => DropNewlines(Joined(groups[k])))
  }

  /** Each group fits, unless a single line with its newline does not, and has no room for
      the line that begins the next one. */
  ghost predicate Greedy(groups: seq<seq<string>>, size: nat) {
    && (forall k :: 0 <= k < |groups| ==> |groups[k]| == 1 || |Joined(groups[k])| <= size)
    && (forall k :: 0 < k < |groups| ==>
          groups[k] != [] && |Joined(groups[k - 1])| + |groups[k][0]| + 1 > size)
  }

  lemma JoinedNext(lines: seq<string>, line: string)
    ensures Joined(lines + [line]) == Joined(lines) + line + "\n"
  {
    assert (lines + [line])[..|lines|] == lines;
  }

  lemma UngroupedNext(groups: seq<seq<string>>, group: seq<string>)
    ensures Ungrouped(groups + [group]) == Ungrouped(groups) + group
  {
    assert (groups + [group])[..|groups|] == groups;
  }

  lemma TextsNext(groups: seq<seq<string>>, group: seq<string>)
    ensures Texts(groups + [group]) == Texts(groups) + [DropNewlines(Joined(group))]
  {
  }

  /** The next line in the loop: it starts a group of its own, or joins the last one. */
  lemma LineGrouped(s: State, line: string, size: nat)
    requires size > 0 && !s.inCode && s.fence == "" && !IsFence(line) && |line| <= size
    ensures AddLine(s, line, size)
              == if |s.current| + |line| + 1 > size
                 then State(s.chunks + [DropNewlines(s.current)], line + "\n", false, "")
                 else s.(current := s.current + line + "\n")
  {
    hide IsFence, Pieces, DropNewlines;
    assert DropNewlines(s.current) + "" == DropNewlines(s.current);
    assert "" + line + "\n" == line + "\n";
  }

  lemma GreedyNext(done: seq<seq<string>>, last: seq<string>, line: string, size: nat)
    requires Greedy(done + [last], size) && |line| <= size
    ensures |Joined(last)| + |line| + 1 > size ==> Greedy(done + [last] + [[line]], size)
    ensures |Joined(last)| + |line| + 1 <= size && (last == [] ==> done == []) ==>
              Greedy(done + [last + [line]], size)
  {
    JoinedNext(last, line);
    hide Joined;
    var before := done + [last];
    var apart, joined := before + [[line]], done + [last + [line]];
    assert forall k :: 0 <= k < |before| ==> apart[k] == before[k];
    assert forall k :: 0 <= k < |done| ==> joined[k] == before[k] == done[k];
    assert before[|done|] == last && joined[|done|] == last + [line];
    assert last != [] ==> (last + [line])[0] == last[0];
  }

  lemma GroupedNext(s: State, done: seq<seq<string>>, last: seq<string>, line: string, size: nat)
    returns (newDone: seq<seq<string>>, newLast: seq<string>)
    requires size > 0 && !IsFence(line) && |line| <= size
    requires s == State(Texts(done), Joined(last), false, "")
    requires Greedy(done + [last], size) && (last == [] ==> done == [])
    ensures Ungrouped(newDone) + newLast == Ungrouped(done) + last + [line]
    ensures Greedy(newDone + [newLast], size) && newLast != []
    ensures AddLine(s, line, size) == State(Texts(newDone), Joined(newLast), false, "")
  {
    LineGrouped(s, line, size);
    GreedyNext(done, last, line, size);
    assert Joined([]) == "" && [] + [line] == [line] && "" + line + "\n" == line + "\n";
    JoinedNext(last, line);
    JoinedNext([], line);
    TextsNext(done, last);
    UngroupedNext(done, last);
    hide AddLine, Greedy, IsFence, DropNewlines, Joined, Texts, Ungrouped;
    if |Joined(last)| + |line| + 1 > size {
      newDone, newLast := done + [last], [line];
    } else {
      newDone, newLast := done, last + [line];
    }
  }

  lemma {:induction false} LinesGrouped(lines: seq<string>, size: nat)
    returns (done: seq<seq<string>>, last: seq<string>)
    requires size > 0 && FenceFree(lines) && ShortLines(lines, size)
    ensures Ungrouped(done) + last == lines && Greedy(done + [last], size)
    ensures (last == [] ==> done == []) && (lines != [] ==> last != [])
    ensures AddLines(lines, size) == State(Texts(done), Joined(last), false, "")
  {
    hide AddLine, IsFence, Greedy, Joined, Texts, Ungrouped;
    if lines == [] {
      done, last := [], [];
      NothingGrouped(size);
    } else {
      var init, line := lines[..|lines| - 1], lines[|lines| - 1];
      assert FenceFree(init) && ShortLines(init, size) && !IsFence(line) && |line| <= size;
      done, last := LinesGrouped(init, size);
      hide FenceFree, ShortLines;
      assert init + [line] == lines;
      done, last := GroupedNext(AddLines(init, size), done, last, line, size);
    }
  }

  lemma NothingGrouped(size: nat)
    ensures Ungrouped([]) + [] == [] && Greedy([] + [[]], size) && Texts([]) == [] && Joined([]) == ""
  {
  }

  /** Without fences and overlong lines the chunks are the lines in consecutive groups, and a
      chunk ends only where the next line has no room in it; a text that fits is not cut. */
  lemma CutsOnlyWhenFull(text: string, size: nat) returns (groups: seq<seq<string>>)
    requires size > 0 && FenceFree(Lines(text)) && ShortLines(Lines(text), size)
    ensures |text| <= size ==> Split(text, size) == [text]
    ensures |text| > size ==>
              && Ungrouped(groups) == Lines(text) && Greedy(groups, size)
              && Split(text, size) == Texts(groups)
  {
    var done, last := LinesGrouped(Lines(text), size);
    groups := done + [last];
    UngroupedNext(done, last);
    TextsNext(done, last);
    hide Lines, Ungrouped, Greedy, Texts, AddLines, FenceFree, ShortLines, DropNewlines;
    assert last[..|last| - 1] + [last[|last| - 1]] == last;
    JoinedNext(last[..|last| - 1], last[|last| - 1]);
  }
}
