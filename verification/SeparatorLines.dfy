/** Which lines separate commands, spelled out, and the round trip with such lines. */
module SeparatorLines {
  import opened TextLines
  import opened ScriptSplitter
  import opened SplitterLaws

  ghost predicate AllWhite(s: string) {
    forall c :: c in s ==> IsWhite(c)
  }

  /** The line is `<GO>` between white characters, if any. */
  ghost predicate PaddedGo(line: string, before: string, after: string) {
    AllWhite(before) && AllWhite(after) && line == before + "<GO>" + after
  }

  // ------------------------------------------------------------------ trimming

  lemma {:induction false} TrimStartTakes(s: string) returns (before: string)
    ensures AllWhite(before) && s == before + TrimStart(s)
  {
    before := "";
    if s != "" && IsWhite(s[0]) {
      before := TrimStartTakes(s[1..]);
      before := [s[0]] + before;
    }
  }

  lemma {:induction false} TrimEndTakes(s: string) returns (after: string)
    ensures AllWhite(after) && s == TrimEnd(s) + after
  {
    after := "";
    if s != "" && IsWhite(s[|s| - 1]) {
      after := TrimEndTakes(s[..|s| - 1]);
      after := after + [s[|s| - 1]];
    }
  }

  lemma {:induction false} TrimStartSkips(before: string, s: string)
    requires AllWhite(before)
    ensures TrimStart(before + s) == TrimStart(s)
  {
    if before == "" {
      assert before + s == s;
    } else {
      assert before[0] in before;
      assert (before + s)[1..] == before[1..] + s;
      TrimStartSkips(before[1..], s);
    }
  }

  lemma {:induction false} TrimEndSkips(s: string, after: string)
    requires AllWhite(after)
    ensures TrimEnd(s + after) == TrimEnd(s)
  {
    if after == "" {
      assert s + after == s;
    } else {
      var last := |after| - 1;
      assert after[last] in after;
      assert (s + after)[..|s| + last] == s + after[..last];
      TrimEndSkips(s, after[..last]);
    }
  }

  /** The one dialect: a line separates if and only if it is `<GO>`, indented and followed by any
      white characters. */
  lemma {:induction false} AngleGoLines(line: string)
    ensures TrimmedAngleGo.Matches(line) <==> exists before, after :: PaddedGo(line, before, after)
  {
    if TrimmedAngleGo.Matches(line) {
      var before := TrimStartTakes(line);
      var after := TrimEndTakes(TrimStart(line));
      assert PaddedGo(line, before, after);
    }
    if before, after :| PaddedGo(line, before, after) {
      assert line == before + ("<GO>" + after);
      TrimStartSkips(before, "<GO>" + after);
      TrimEndSkips("<GO>", after);
      assert Trim(line) == "<GO>" by {
        assert TrimStart("<GO>" + after) == "<GO>" + after;
        assert TrimEnd("<GO>") == "<GO>";
      }
    }
  }

  /** The other one asks for `GO` and nothing else. */
  lemma {:induction false} ExactGoLines(line: string)
    ensures ExactGo.Matches(line) <==> |line| == 2 && line[0] == 'G' && line[1] == 'O'
  {
  }

  // ---------------------------------------------------------------- round trips

  /** Nothing but spaces and tabs. */
  ghost predicate Blank(s: string) {
    forall c :: c in s ==> c == ' ' || c == '\t'
  }

  ghost predicate BlankPaddedGo(line: string, before: string, after: string) {
    Blank(before) && Blank(after) && line == before + "<GO>" + after
  }

  /** The block ends with a line that is `<GO>` between blanks, and holds no separator line itself. */
  ghost predicate PaddedBlock(b: Block) {
    && (forall l, c :: l in b.lines && c in l.text ==> c != '\r' && c != '\n')
    && (exists before, after :: BlankPaddedGo(b.go.text, before, after))
    && forall l, before, after :: l in b.lines ==> !PaddedGo(l.text, before, after)
  }

  lemma {:induction false} PaddedBlockPrints(b: Block)
    requires PaddedBlock(b)
    ensures Plain(b.go.text) && TrimmedAngleGo.Matches(b.go.text)
    ensures forall l :: l in b.lines ==> !TrimmedAngleGo.Matches(l.text)
  {
    var before, after :| BlankPaddedGo(b.go.text, before, after);
    assert PaddedGo(b.go.text, before, after);
    AngleGoLines(b.go.text);
    forall l | l in b.lines
      ensures !TrimmedAngleGo.Matches(l.text)
    {
      AngleGoLines(l.text);
    }
    forall i | 0 <= i < |b.go.text|
      ensures !IsBreak(b.go.text[i])
    {
      var c := b.go.text[i];
      assert c in before || c in "<GO>" || c in after;
    }
  }

  /** Commands printed with `<GO>` lines, however these are indented, come back when the text is split,
      if and only if no printed CR swallows the LF of an empty line behind it. */
  lemma {:induction false} PaddedRoundTrip(newline: Newline, blocks: seq<Block>)
    requires blocks != [] && forall b :: b in blocks ==> PaddedBlock(b)
    ensures Split(TrimmedAngleGo, newline, Print(Items(blocks))) == Joined(newline, Groups(blocks))
            <==> !Merges(Items(blocks))
  {
    forall b | b in blocks
      ensures Plain(b.go.text) && TrimmedAngleGo.Matches(b.go.text)
      ensures forall l :: l in b.lines ==> !TrimmedAngleGo.Matches(l.text)
    {
      PaddedBlockPrints(b);
    }
    RoundTrip(TrimmedAngleGo, newline, blocks);
  }

  /** The same for the exact dialect; an indented `GO` is part of a command there. */
  lemma {:induction false} ExactRoundTrip(newline: Newline, blocks: seq<Block>)
    requires blocks != [] && forall b :: b in blocks ==> AllPlain(b.lines) && b.go.text == "GO"
    requires forall b, l :: b in blocks && l in b.lines ==> l.text != "GO"
    ensures Split(ExactGo, newline, Print(Items(blocks))) == Joined(newline, Groups(blocks))
            <==> !Merges(Items(blocks))
  {
    RoundTrip(ExactGo, newline, blocks);
  }
}
