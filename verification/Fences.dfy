/** What cutting a message does to its code blocks. */
module Fences {
  import opened Basics
  import opened Splitter

  // --- Trimmed lines ---

  lemma {:induction false} TrimLeftStarts(s: string)
    ensures TrimLeft(s) == [] || !IsSpace(TrimLeft(s)[0])
    ensures forall c :: c in TrimLeft(s) ==> c in s
  {
    if s != [] && IsSpace(s[0]) {
      TrimLeftStarts(s[1..]);
    }
  }

  lemma {:induction false} TrimRightEnds(s: string)
    ensures TrimRight(s) <= s
    ensures var r := TrimRight(s); r == [] || !IsSpace(r[|r| - 1])
  {
    if s != [] && IsSpace(s[|s| - 1]) {
      TrimRightEnds(s[..|s| - 1]);
    }
  }

  /** A trimmed fence line is a fence line, and in one piece. */
  lemma TrimmedFence(line: string)
    requires IsFence(line) && '\n' !in line
    ensures IsFence(Trim(line)) && '\n' !in Trim(line)
  {
    var left := TrimLeft(line);
    TrimLeftStarts(line);
    TrimRightEnds(left);
  }

  // --- Counting fence lines ---

  ghost function Count(lines: seq<string>): nat {
    if lines == [] then 0
    else Count(lines[..|lines| - 1]) + if IsFence(lines[|lines| - 1]) then 1 else 0
  }

  /** The fence lines of a text. */
  ghost function Marks(s: string): nat {
    Count(Lines(s))
  }

  predicate Odd(n: nat) {
    n % 2 == 1
  }

  lemma OddNext(n: nat)
    ensures Odd(n + 1) <==> !Odd(n)
  {
  }

  lemma OddOne()
    ensures Odd(1) && !Odd(0)
  {
  }

  /** Every code block that a chunk opens is closed in it. */
  ghost predicate Balanced(chunk: string) {
    !Odd(Marks(chunk))
  }

  ghost predicate AllBalanced(chunks: seq<string>) {
    forall k :: 0 <= k < |chunks| ==> Balanced(chunks[k])
  }

  lemma CountNext(lines: seq<string>, line: string)
    ensures Count(lines + [line]) == Count(lines) + if IsFence(line) then 1 else 0
  {
    assert (lines + [line])[..|lines|] == lines;
  }

  lemma MarksOfLine(line: string)
    requires '\n' !in line
    ensures Marks(line) == if IsFence(line) then 1 else 0
  {
    hide IsFence;
    OneLine(line);
    CountNext([], line);
    assert [] + [line] == [line];
  }

  lemma MarksNewline(s: string)
    ensures Marks(s + "\n") == Marks(s)
  {
    NextChar(s, '\n');
    CountNext(Lines(s), "");
  }

  lemma MarksLastLine(head: string, line: string)
    requires '\n' !in line
    ensures Marks(head + "\n" + line) == Marks(head) + if IsFence(line) then 1 else 0
  {
    LastLine(head, line);
    CountNext(Lines(head), line);
  }

  lemma {:induction false} MarksDropped(s: string)
    ensures Marks(DropNewlines(s)) == Marks(s)
  {
    hide Marks;
    if s != [] && s[|s| - 1] == '\n' {
      MarksDropped(s[..|s| - 1]);
      MarksNewline(s[..|s| - 1]);
      assert s[..|s| - 1] + "\n" == s;
    }
  }

  /** A text made of whole lines. */
  ghost predicate Ended(s: string) {
    s == "" || s[|s| - 1] == '\n'
  }

  lemma MarksAddLine(s: string, line: string)
    requires Ended(s) && '\n' !in line
    ensures Ended(s + line + "\n")
    ensures Marks(s + line + "\n") == Marks(s) + if IsFence(line) then 1 else 0
  {
    hide Marks, IsFence;
    MarksNewline(s + line);
    if s == "" {
      assert s + line == line;
      MarksOfLine(line);
      MarksOfLine("");
      assert !IsFence("") by { NoMark(); }
    } else {
      var head := s[..|s| - 1];
      assert head + "\n" == s;
      MarksLastLine(head, line);
      MarksNewline(head);
    }
  }

  lemma NoMark()
    ensures !IsFence("") && Marks("") == 0
  {
    MarksOfLine("");
  }

  lemma {:induction false} LinesAreWhole(text: string)
    ensures forall k :: 0 <= k < |Lines(text)| ==> '\n' !in Lines(text)[k]
  {
    if text != [] {
      LinesAreWhole(text[..|text| - 1]);
    }
  }

  // --- The state of the loop ---

  ghost predicate Whole(lines: seq<string>) {
    forall k :: 0 <= k < |lines| ==> '\n' !in lines[k]
  }

  ghost predicate Tidy(s: State) {
    && Ended(s.current)
    && (s.inCode ==> IsFence(s.fence) && '\n' !in s.fence)
  }

  /** The flag of the loop is right about the chunk being filled: it says "in a code
      block" exactly if a block is open there. */
  ghost predicate Agrees(s: State) {
    s.inCode <==> Odd(Marks(s.current))
  }

  /** `line` pushes the current text out. */
  ghost predicate Pushes(s: State, line: string, size: nat) {
    if |line| > size then s.current != "" else |s.current| + |line| + 1 > size
  }

  /** A line too long for a chunk has a piece that reads as a fence line. */
  ghost predicate FencePiece(line: string, size: nat)
    requires size > 0
  {
    |line| > size && exists k :: 0 <= k < |Pieces(line, size)| && IsFence(Pieces(line, size)[k])
  }

  lemma ToggledTidy(s: State, line: string)
    requires Tidy(s) && '\n' !in line
    ensures Tidy(Toggled(s, line))
  {
    hide Trim, IsFence;
    if IsFence(line) {
      TrimmedFence(line);
    }
  }

  lemma ReopenedMarks(s: State)
    requires Tidy(s)
    ensures Ended(Reopened(s)) && Marks(Reopened(s)) == if s.inCode then 1 else 0
  {
    hide Marks, IsFence;
    NoMark();
    if s.inCode {
      MarksAddLine("", s.fence);
      assert "" + s.fence + "\n" == s.fence + "\n";
    }
  }

  lemma ClosedMarks(s: State)
    ensures Marks(Closed(s)) == Marks(s.current) + if s.inCode then 1 else 0
  {
    hide Marks, DropNewlines;
    MarksDropped(s.current);
    if s.inCode {
      MarksLastLine(DropNewlines(s.current), FENCE);
      assert IsFence(FENCE) by { assert Trim(FENCE) == FENCE; }
      assert DropNewlines(s.current) + ("\n" + FENCE) == DropNewlines(s.current) + "\n" + FENCE;
    } else {
      assert DropNewlines(s.current) + "" == DropNewlines(s.current);
    }
  }

  /** The chunk that a line pushes out is balanced if and only if the line is no fence
      line and the flag was right, or it is one and the flag was wrong. */
  lemma PushedBalanced(s: State, line: string)
    ensures Balanced(Closed(Toggled(s, line))) <==> (IsFence(line) <==> !Agrees(s))
  {
    hide Marks, Closed, IsFence, Odd;
    ClosedMarks(Toggled(s, line));
    ToggledKeeps(s, line);
    OddNext(Marks(s.current));
  }

  // --- One line ---

  /** What a line leaves of the flag being right. */
  ghost predicate AgreesAfter(s: State, line: string, size: nat) {
    if Pushes(s, line, size) then |line| > size || !IsFence(line)
    else if |line| > size then Agrees(s) <==> !IsFence(line)
    else Agrees(s)
  }

  /** The line spoils no chunk. */
  ghost predicate Harmless(s: State, line: string, size: nat)
    requires size > 0
  {
    && (Pushes(s, line, size) ==> (IsFence(line) <==> !Agrees(s)))
    && !FencePiece(line, size)
  }

  lemma LongLine(s: State, line: string, size: nat)
    requires size > 0 && Tidy(s) && '\n' !in line && |line| > size
    ensures Tidy(AddLine(s, line, size))
    ensures Agrees(AddLine(s, line, size)) <==> AgreesAfter(s, line, size)
  {
    var t := Toggled(s, line);
    ToggledTidy(s, line);
    ToggledKeeps(s, line);
    hide Marks, IsFence, Pieces, Toggled, Odd;
    ReopenedMarks(t);
    NoMark();
    OddOne();
  }

  lemma ToggledKeeps(s: State, line: string)
    ensures var t := Toggled(s, line);
            && t.current == s.current && t.chunks == s.chunks
            && (t.inCode <==> (s.inCode <==> !IsFence(line)))
  {
  }

  lemma FlagFlips(s: State, line: string, size: nat)
    requires size > 0
    ensures AddLine(s, line, size).inCode <==> (s.inCode <==> !IsFence(line))
  {
    ToggledKeeps(s, line);
    hide IsFence, Toggled, Placed;
  }

  lemma ShortMarks(s: State, line: string, size: nat)
    requires size > 0 && Tidy(s) && '\n' !in line && |line| <= size
    ensures Ended(AddLine(s, line, size).current)
    ensures var t, mark := Toggled(s, line), if IsFence(line) then 1 else 0;
            Marks(AddLine(s, line, size).current) ==
            mark + if !Pushes(s, line, size) then Marks(s.current) else if t.inCode then 1 else 0
  {
    var t := Toggled(s, line);
    ToggledTidy(s, line);
    ToggledKeeps(s, line);
    ReopenedMarks(t);
    hide Marks, IsFence, Toggled, Reopened;
    MarksAddLine(if Pushes(s, line, size) then Reopened(t) else t.current, line);
  }

  lemma ShortLine(s: State, line: string, size: nat)
    requires size > 0 && Tidy(s) && '\n' !in line && |line| <= size
    ensures Tidy(AddLine(s, line, size))
    ensures Agrees(AddLine(s, line, size)) <==> AgreesAfter(s, line, size)
  {
    ShortTidy(s, line, size);
    FlagFlips(s, line, size);
    ToggledKeeps(s, line);
    ShortMarks(s, line, size);
    OddNext(Marks(s.current));
    OddNext(1);
    OddOne();
    hide Marks, IsFence, Toggled, AddLine, Pushes, Tidy, Odd;
  }

  lemma ShortTidy(s: State, line: string, size: nat)
    requires size > 0 && Tidy(s) && '\n' !in line && |line| <= size
    ensures Tidy(AddLine(s, line, size))
  {
    ToggledTidy(s, line);
    ShortMarks(s, line, size);
    PlacedKeeps(Toggled(s, line), line, size);
    hide Marks, IsFence, Toggled, Placed, Pushes;
  }

  lemma PlacedKeeps(s: State, line: string, size: nat)
    requires size > 0
    ensures Placed(s, line, size).fence == s.fence
  {
  }

  lemma {:induction false} PiecesWhole(line: string, size: nat)
    requires size > 0 && '\n' !in line
    ensures Whole(Pieces(line, size))
    decreases |line|
  {
    if |line| > size {
      PiecesWhole(line[size..], size);
    }
  }

  lemma PiecesBalanced(line: string, size: nat)
    requires size > 0 && '\n' !in line && |line| > size
    ensures AllBalanced(Pieces(line, size)) <==> !FencePiece(line, size)
  {
    var pieces := Pieces(line, size);
    PiecesWhole(line, size);
    hide Pieces, IsFence, Marks;
    forall k | 0 <= k < |pieces|
      ensures Balanced(pieces[k]) <==> !IsFence(pieces[k])
    {
      MarksOfLine(pieces[k]);
    }
  }

  lemma AllBalancedConcat(a: seq<string>, b: seq<string>)
    ensures AllBalanced(a + b) <==> AllBalanced(a) && AllBalanced(b)
  {
    hide Balanced;
    if AllBalanced(a + b) {
      forall k | 0 <= k < |a| ensures Balanced(a[k]) { assert (a + b)[k] == a[k]; }
      forall k | 0 <= k < |b| ensures Balanced(b[k]) { assert (a + b)[|a| + k] == b[k]; }
    }
  }

  /** The chunks a line adds are balanced exactly if it is harmless. */
  lemma LineBalanced(s: State, line: string, size: nat)
    requires size > 0 && '\n' !in line
    ensures AllBalanced(AddLine(s, line, size).chunks) <==>
                AllBalanced(s.chunks) && Harmless(s, line, size)
  {
    var t := Toggled(s, line);
    var closed, pieces := Closed(t), Pieces(line, size);
    PushedBalanced(s, line);
    ToggledKeeps(s, line);
    AllBalancedConcat(s.chunks, [closed]);
    if |line| > size {
      PiecesBalanced(line, size);
      AllBalancedConcat(s.chunks, pieces);
      AllBalancedConcat(s.chunks + [closed], pieces);
    }
    hide Agrees, Balanced, IsFence, Toggled, Closed, Pieces;
    assert [closed][0] == closed;
  }

  // --- All lines ---

  lemma {:induction false} LinesTidy(lines: seq<string>, size: nat)
    requires size > 0 && Whole(lines)
    ensures Tidy(AddLines(lines, size))
  {
    if lines != [] {
      var init, line := lines[..|lines| - 1], lines[|lines| - 1];
      LinesTidy(init, size);
      hide Tidy, AddLine;
      NextAgrees(AddLines(init, size), line, size);
    }
  }

  lemma NextAgrees(s: State, line: string, size: nat)
    requires size > 0 && Tidy(s) && '\n' !in line
    ensures Tidy(AddLine(s, line, size))
    ensures Agrees(AddLine(s, line, size)) <==> AgreesAfter(s, line, size)
  {
    hide *;
    if |line| > size {
      LongLine(s, line, size);
    } else {
      ShortLine(s, line, size);
    }
  }

  /** Line `k` spoils no chunk. */
  ghost predicate HarmlessAt(lines: seq<string>, k: nat, size: nat)
    requires size > 0 && k < |lines|
  {
    Harmless(AddLines(lines[..k], size), lines[k], size)
  }

  ghost predicate AllHarmless(lines: seq<string>, size: nat)
    requires size > 0
  {
    forall k :: 0 <= k < |lines| ==> HarmlessAt(lines, k, size)
  }

  lemma AllHarmlessNext(lines: seq<string>, size: nat)
    requires size > 0 && lines != []
    ensures var n := |lines| - 1;
            AllHarmless(lines, size) <==>
                AllHarmless(lines[..n], size) && Harmless(AddLines(lines[..n], size), lines[n], size)
  {
    var n := |lines| - 1;
    hide Harmless, AddLines;
    assert forall k :: 0 <= k < n ==> lines[..n][..k] == lines[..k];
    assert forall k :: 0 <= k < n ==> (HarmlessAt(lines[..n], k, size) <==> HarmlessAt(lines, k, size));
    assert HarmlessAt(lines, n, size) <==> Harmless(AddLines(lines[..n], size), lines[n], size);
  }

  /** The chunks written so far are balanced if and only if every line was harmless. */
  lemma {:induction false} LoopBalanced(lines: seq<string>, size: nat)
    requires size > 0 && Whole(lines)
    ensures AllBalanced(AddLines(lines, size).chunks) <==> AllHarmless(lines, size)
  {
    if lines != [] {
      var init, line := lines[..|lines| - 1], lines[|lines| - 1];
      LoopBalanced(init, size);
      LineBalanced(AddLines(init, size), line, size);
      AllHarmlessNext(lines, size);
      hide AllBalanced, AllHarmless, Harmless, AddLine;
    }
  }

  /** The last chunk leaves no block open. */
  ghost predicate LastClosed(s: State) {
    s.current == "" || !Odd(Marks(s.current))
  }

  lemma FinalBalanced(s: State)
    ensures AllBalanced(Final(s)) <==> AllBalanced(s.chunks) && LastClosed(s)
  {
    var last := DropNewlines(s.current);
    MarksDropped(s.current);
    AllBalancedConcat(s.chunks, [last]);
    hide Marks, DropNewlines;
    assert [last][0] == last;
  }

  /** The exact condition, for every text: all chunks of a cut text are balanced if and
      only if every line was harmless and the last chunk leaves no block open. */
  lemma CutBalanced(text: string, size: nat)
    requires 0 < size < |text|
    ensures AllBalanced(Split(text, size)) <==>
                && AllHarmless(Lines(text), size)
                   && LastClosed(AddLines(Lines(text), size))
  {
    LinesAreWhole(text);
    LoopBalanced(Lines(text), size);
    FinalBalanced(AddLines(Lines(text), size));
  }

  // --- The condition on the text ---

  /** A fence line pushes a chunk out. */
  ghost predicate FencePushes(lines: seq<string>, size: nat)
    requires size > 0
  {
    exists k :: 0 <= k < |lines| && IsFence(lines[k]) && PushesAt(lines, k, size)
  }

  ghost predicate PushesAt(lines: seq<string>, k: nat, size: nat)
    requires size > 0 && k < |lines|
  {
    Pushes(AddLines(lines[..k], size), lines[k], size)
  }

  ghost predicate FenceCut(lines: seq<string>, size: nat)
    requires size > 0
  {
    exists k :: 0 <= k < |lines| && FencePiece(lines[k], size)
  }

  /** No cut of a line goes through its fence: a fence line too long for a chunk has a
      piece that reads as one. */
  ghost predicate FencesWhole(lines: seq<string>, size: nat)
    requires size > 0
  {
    forall k :: 0 <= k < |lines| && IsFence(lines[k]) && |lines[k]| > size ==> FencePiece(lines[k], size)
  }

  ghost predicate Clean(lines: seq<string>, size: nat)
    requires size > 0
  {
    !FencePushes(lines, size) && !FenceCut(lines, size)
  }

  lemma CleanNext(lines: seq<string>, size: nat)
    requires size > 0 && lines != []
    ensures var n := |lines| - 1;
            Clean(lines, size) <==>
                && Clean(lines[..n], size)
                   && !(IsFence(lines[n]) && Pushes(AddLines(lines[..n], size), lines[n], size))
                   && !FencePiece(lines[n], size)
  {
    var n := |lines| - 1;
    hide Pushes, AddLines, IsFence, FencePiece;
    assert PushesAt(lines, n, size) <==> Pushes(AddLines(lines[..n], size), lines[n], size);
    CleanInit(lines, size);
    if Clean(lines[..n], size) {
      CleanLast(lines, size);
    }
  }

  lemma SameAt(lines: seq<string>, k: nat, size: nat)
    requires size > 0 && k < |lines| - 1
    ensures var init := lines[..|lines| - 1]; init[k] == lines[k] && PushesAt(init, k, size) == PushesAt(lines, k, size)
  {
    hide Pushes, AddLines;
    assert lines[..|lines| - 1][..k] == lines[..k];
  }

  lemma CleanInit(lines: seq<string>, size: nat)
    requires size > 0 && lines != []
    ensures Clean(lines, size) ==> Clean(lines[..|lines| - 1], size)
  {
    var init := lines[..|lines| - 1];
    hide PushesAt, IsFence, FencePiece;
    if FencePushes(init, size) {
      var k :| 0 <= k < |init| && IsFence(init[k]) && PushesAt(init, k, size);
      SameAt(lines, k, size);
    }
    if FenceCut(init, size) {
      var k :| 0 <= k < |init| && FencePiece(init[k], size);
      assert lines[k] == init[k];
    }
  }

  lemma CleanLast(lines: seq<string>, size: nat)
    requires size > 0 && lines != [] && Clean(lines[..|lines| - 1], size)
    ensures var n := |lines| - 1;
            Clean(lines, size) <==>
              !(IsFence(lines[n]) && PushesAt(lines, n, size)) && !FencePiece(lines[n], size)
  {
    var n := |lines| - 1;
    var init := lines[..n];
    hide PushesAt, IsFence, FencePiece;
    if FencePushes(lines, size) {
      var k :| 0 <= k < |lines| && IsFence(lines[k]) && PushesAt(lines, k, size);
      if k < n {
        SameAt(lines, k, size);
      }
    }
    if FenceCut(lines, size) {
      var k :| 0 <= k < |lines| && FencePiece(lines[k], size);
      if k < n {
        SameAt(lines, k, size);
      }
    }
  }

  /** As long as no fence line pushes a chunk out the flag is right. */
  lemma {:induction false} HarmlessIsClean(lines: seq<string>, size: nat)
    requires size > 0 && Whole(lines) && FencesWhole(lines, size)
    ensures AllHarmless(lines, size) <==> Clean(lines, size)
    ensures Clean(lines, size) ==> Agrees(AddLines(lines, size))
  {
    if lines == [] {
      NoMark();
    } else {
      var init, line := lines[..|lines| - 1], lines[|lines| - 1];
      HarmlessIsClean(init, size);
      AllHarmlessNext(lines, size);
      CleanNext(lines, size);
      LinesTidy(init, size);
      NextAgrees(AddLines(init, size), line, size);
      assert IsFence(line) && |line| > size ==> FencePiece(line, size);
      hide Agrees, IsFence, FencePiece, Pushes, Clean, AllHarmless, AddLine, Tidy;
    }
  }

  lemma LastAdded(lines: seq<string>, size: nat)
    requires size > 0 && lines != []
    ensures var init, line := lines[..|lines| - 1], lines[|lines| - 1];
            && AddLines(lines, size) == AddLine(AddLines(init, size), line, size)
            && Count(lines) == Count(init) + if IsFence(line) then 1 else 0
  {
    hide AddLine, IsFence;
  }

  /** The flag counts the fence lines. */
  lemma {:induction false} FlagCounts(lines: seq<string>, size: nat)
    requires size > 0
    ensures AddLines(lines, size).inCode <==> Odd(Count(lines))
  {
    if lines != [] {
      FlagCounts(lines[..|lines| - 1], size);
      FlagNext(lines, size);
    }
  }

  lemma FlagNext(lines: seq<string>, size: nat)
    requires size > 0 && lines != []
    requires var init := lines[..|lines| - 1]; AddLines(init, size).inCode <==> Odd(Count(init))
    ensures AddLines(lines, size).inCode <==> Odd(Count(lines))
  {
    hide *;
    var init, line := lines[..|lines| - 1], lines[|lines| - 1];
    LastAdded(lines, size);
    FlagFlips(AddLines(init, size), line, size);
    OddNext(Count(init));
  }

  lemma LastChunkCloses(lines: seq<string>, size: nat)
    requires size > 0 && Whole(lines) && Agrees(AddLines(lines, size))
    ensures LastClosed(AddLines(lines, size)) <==> !Odd(Count(lines))
  {
    hide AddLines, Marks, Count;
    FlagCounts(lines, size);
    NoMark();
  }

  lemma CutExact(text: string, size: nat)
    requires 0 < size < |text| && Whole(Lines(text)) && FencesWhole(Lines(text), size)
    ensures AllBalanced(Split(text, size)) <==> Balanced(text) && Clean(Lines(text), size)
  {
    hide *;
    var lines := Lines(text);
    CutBalanced(text, size);
    HarmlessIsClean(lines, size);
    if Clean(lines, size) {
      LastChunkCloses(lines, size);
    }
    assert Balanced(text) <==> !Odd(Count(lines)) by { BalancedCounts(text); }
  }

  lemma BalancedCounts(text: string)
    ensures Balanced(text) <==> !Odd(Count(Lines(text)))
  {
  }

  lemma UncutExact(text: string, size: nat)
    requires |text| <= size && size > 0
    ensures AllBalanced(Split(text, size)) <==> Balanced(text)
  {
    hide Balanced, Final, AddLines, Lines;
    assert [text][0] == text;
  }

  lemma LinesWhole(text: string)
    ensures Whole(Lines(text))
  {
    LinesAreWhole(text);
  }

  /** Every chunk of a text closes the code blocks it opens if and only if the text does,
      no fence line pushes a full chunk out and no line is cut into a piece that reads as a
      fence line. */
  lemma BalancedExact(text: string, size: nat)
    requires size > 0 && FencesWhole(Lines(text), size)
    ensures AllBalanced(Split(text, size)) <==>
                Balanced(text) && (|text| > size ==> Clean(Lines(text), size))
  {
    hide *;
    if |text| <= size {
      UncutExact(text, size);
    } else {
      assert Whole(Lines(text)) by { LinesWhole(text); }
      CutExact(text, size);
    }
  }

  // --- What is added ---

  /** The lines, each between what was inserted ahead of it and behind it. */
  ghost function Weave(before: seq<string>, lines: seq<string>, behind: seq<string>): string
    requires |before| == |lines| == |behind|
  {
    if lines == [] then []
    else
      var n := |lines| - 1;
      Weave(before[..n], lines[..n], behind[..n]) + before[n] + Ink(lines[n]) + behind[n]
  }

  /** A fence line of the text, trimmed as the loop remembers it. */
  ghost predicate FenceOf(fence: string, lines: seq<string>) {
    exists j :: 0 <= j < |lines| && IsFence(lines[j]) && fence == Trim(lines[j])
  }

  /** Nothing, a closing fence, a fence line of the text, or a closing fence and one. */
  ghost predicate OnlyFences(x: string, lines: seq<string>) {
    || x == "" || x == FENCE || FenceOf(x, lines)
    || (FENCE <= x && FenceOf(x[|FENCE|..], lines))
  }

  ghost predicate Inserted(xs: seq<string>, lines: seq<string>) {
    forall k :: 0 <= k < |xs| ==> OnlyFences(xs[k], lines)
  }

  ghost predicate Remembers(s: State, lines: seq<string>) {
    s.inCode ==> FenceOf(s.fence, lines) && '\n' !in s.fence
  }

  lemma FenceOfNext(fence: string, lines: seq<string>, line: string)
    requires FenceOf(fence, lines)
    ensures FenceOf(fence, lines + [line])
  {
    hide IsFence, Trim;
    var j :| 0 <= j < |lines| && IsFence(lines[j]) && fence == Trim(lines[j]);
    assert (lines + [line])[j] == lines[j];
  }

  lemma InsertedNext(xs: seq<string>, lines: seq<string>, line: string)
    requires Inserted(xs, lines)
    ensures Inserted(xs, lines + [line])
  {
    forall k | 0 <= k < |xs| ensures OnlyFences(xs[k], lines + [line]) {
      hide FenceOf;
      assert OnlyFences(xs[k], lines);
      if FenceOf(xs[k], lines) {
        FenceOfNext(xs[k], lines, line);
      } else if FENCE <= xs[k] && FenceOf(xs[k][|FENCE|..], lines) {
        FenceOfNext(xs[k][|FENCE|..], lines, line);
      }
    }
  }

  lemma RemembersNext(s: State, lines: seq<string>, line: string)
    requires Remembers(s, lines) && '\n' !in line
    ensures Remembers(Toggled(s, line), lines + [line])
  {
    hide Trim, IsFence;
    if s.inCode {
      FenceOfNext(s.fence, lines, line);
    }
    if IsFence(line) {
      TrimmedFence(line);
      assert (lines + [line])[|lines|] == line;
    }
  }

  lemma {:induction false} InkOfWhole(s: string)
    requires '\n' !in s
    ensures Ink(s) == s
  {
    if s != [] {
      assert s[|s| - 1] in s;
      InkOfWhole(s[..|s| - 1]);
    }
  }

  lemma FencesOnly(s: State, lines: seq<string>, line: string, size: nat)
    requires Remembers(s, lines)
    ensures OnlyFences(Before(s, line, size), lines) && OnlyFences(Behind(s, line, size), lines)
  {
    assert Closing(s) == (if s.inCode then FENCE else "") by {
      InkConcat("\n", FENCE);
      InkOfWhole(FENCE);
    }
    if s.inCode {
      InkLine(s.fence);
      InkOfWhole(s.fence);
    }
    hide Ink, FenceOf, Closing;
    assert Ink("") == "" by { InkOfWhole(""); }
    assert Ink(Reopened(s)) == if s.inCode then s.fence else "";
    assert (FENCE + s.fence)[|FENCE|..] == s.fence;
    assert "" + "" == "";
  }

  lemma WeaveNext(before: seq<string>, lines: seq<string>, behind: seq<string>, x: string, line: string, y: string)
    requires |before| == |lines| == |behind|
    ensures Weave(before + [x], lines + [line], behind + [y]) == Weave(before, lines, behind) + x + Ink(line) + y
  {
    assert (before + [x])[..|lines|] == before && (behind + [y])[..|lines|] == behind;
    assert (lines + [line])[..|lines|] == lines;
  }

  lemma {:induction false} LinesWoven(lines: seq<string>, size: nat) returns (before: seq<string>, behind: seq<string>)
    requires size > 0 && Whole(lines)
    ensures |before| == |lines| == |behind| && Inserted(before, lines) && Inserted(behind, lines)
    ensures Written(AddLines(lines, size)) == Weave(before, lines, behind)
    ensures Remembers(AddLines(lines, size), lines)
  {
    if lines == [] {
      before, behind := [], [];
    } else {
      var init, line := lines[..|lines| - 1], lines[|lines| - 1];
      assert init + [line] == lines;
      before, behind := LinesWoven(init, size);
      var s := AddLines(init, size);
      var t := Toggled(s, line);
      var x, y := Before(t, line, size), Behind(t, line, size);
      WrittenToggled(s, line);
      PlacedWritten(t, line, size);
      RemembersNext(s, init, line);
      FencesOnly(t, lines, line, size);
      PlacedKeeps(t, line, size);
      InsertedNext(before, init, line);
      InsertedNext(behind, init, line);
      WeaveNext(before, init, behind, x, line, y);
      before, behind := before + [x], behind + [y];
      hide Written, Before, Behind, Toggled, Placed, OnlyFences, FenceOf, Weave;
    }
  }

  /** The chunks are the lines of the text in their order, newlines aside, with nothing
      but closing fences and fence lines of the text put in between. */
  lemma OnlyFencesAdded(text: string, size: nat) returns (before: seq<string>, behind: seq<string>)
    requires size > 0
    ensures |before| == |Lines(text)| == |behind|
    ensures Inserted(before, Lines(text)) && Inserted(behind, Lines(text))
    ensures InkOf(Split(text, size)) == Weave(before, Lines(text), behind)
  {
    var lines := Lines(text);
    if |text| <= size {
      before, behind := seq(|lines|, _ => ""), seq(|lines|, _ => "");
      NothingWoven(lines);
      InkOfOne(text);
      InkLines(text);
    } else {
      LinesAreWhole(text);
      before, behind := LinesWoven(lines, size);
      FinalInk(AddLines(lines, size));
    }
  }

  lemma {:induction false} NothingWoven(lines: seq<string>)
    ensures Weave(seq(|lines|, _ => ""), lines, seq(|lines|, _ => "")) == InkOf(lines)
  {
    var none := seq(|lines|, _ => "");
    if lines != [] {
      var n := |lines| - 1;
      NothingWoven(lines[..n]);
      assert none[..n] == seq(n, _ => "");
      Assoc(InkOf(lines[..n]), "", "");
      Assoc(InkOf(lines), "", "");
    }
  }

  // --- A fence that comes too late ---

  /** A block is not always closed in the chunk that it opens in: the flag is flipped
      by the closing fence line before that line pushes the full chunk out. */
  lemma ClosingFenceComesTooLate()
    ensures Split("```\nx\n```", 4) == ["```\n```", "```\nx", "```"]
    ensures Balanced("```\nx\n```") && !Balanced("```\nx") && !Balanced("```")
  {
    MarksOfFences();
    ThreeLines();
    FoldedLines();
    LastChunk();
    hide Lines, AddLines, Final;
  }

  lemma MarksOfFences()
    ensures Marks("```") == Marks("```\nx") == 1 && Marks("```\nx\n```") == 2
  {
    FenceAndText();
    hide *;
    MarksOfLine("```");
    MarksLastLine("```", "x");
    MarksLastLine("```\nx", "```");
    assert "```\nx" + "\n" + "```" == "```\nx\n```" && "```" + "\n" + "x" == "```\nx";
  }

  lemma FenceAndText()
    ensures IsFence("```") && !IsFence("x")
  {
    assert Trim("```") == "```" && Trim("x") == "x";
  }

  lemma ThreeLines()
    ensures Lines("```\nx\n```") == ["```", "x", "```"]
  {
    LastLine("```\nx", "```");
    LastLine("```", "x");
    OneLine("```");
    hide Lines;
    assert "```\nx" + "\n" + "```" == "```\nx\n```" && "```" + "\n" + "x" == "```\nx";
  }

  lemma LastChunk()
    ensures Final(State(["```\n```", "```\nx"], "```\n", false, "```")) == ["```\n```", "```\nx", "```"]
  {
    assert "```\n"[..3] == "```" && DropNewlines("```") == "```";
    assert ["```\n```", "```\nx"] + ["```"] == ["```\n```", "```\nx", "```"];
  }

  lemma FoldedLines()
    ensures AddLines(["```", "x", "```"], 4) == State(["```\n```", "```\nx"], "```\n", false, "```")
  {
    assert ["```", "x", "```"][..2] == ["```", "x"] && ["```", "x"][..1] == ["```"] && ["```"][..0] == [];
    FirstLine();
    FirstFlush();
    SecondFlush();
    hide AddLine;
    assert AddLines(["```"], 4) == AddLine(AddLines([], 4), "```", 4);
    assert AddLines(["```", "x"], 4) == AddLine(AddLines(["```"], 4), "x", 4);
  }

  lemma FirstLine()
    ensures AddLine(State([], "", false, ""), "```", 4) == State([], "```\n", true, "```")
  {
    assert Trim("```") == "```" && "" + "```" + "\n" == "```\n";
  }

  lemma FirstFlush()
    ensures AddLine(State([], "```\n", true, "```"), "x", 4)
              == State(["```\n```"], "```\nx\n", true, "```")
  {
    var s := State([], "```\n", true, "```");
    assert Trim("x") == "x" && Toggled(s, "x") == s;
    assert "```\n"[..3] == "```" && DropNewlines("```") == "```";
    assert Closed(s) == "```" + ("\n" + FENCE) == "```\n```";
    assert Reopened(s) + "x" + "\n" == "```\nx\n";
    assert s.chunks + [Closed(s)] == ["```\n```"];
  }

  lemma SecondFlush()
    ensures AddLine(State(["```\n```"], "```\nx\n", true, "```"), "```", 4)
              == State(["```\n```", "```\nx"], "```\n", false, "```")
  {
    var s := State(["```\n```"], "```\nx\n", true, "```");
    var t := s.(inCode := false);
    assert Trim("```") == "```" && Toggled(s, "```") == t;
    assert "```\nx\n"[..5] == "```\nx" && DropNewlines("```\nx") == "```\nx";
    assert Closed(t) == "```\nx" + "" == "```\nx";
    assert Reopened(t) + "```" + "\n" == "```\n";
    assert t.chunks + [Closed(t)] == ["```\n```", "```\nx"];
  }
}
