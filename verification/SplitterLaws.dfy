/** What splitting promises: line conservation, idempotence, and a round trip with printing. */
module SplitterLaws {
  import opened TextLines
  import opened ScriptSplitter

  function CountSeparators(separator: Separator, lines: seq<string>): nat {
    if lines == [] then 0
    else (if separator.Matches(lines[0]) then 1 else 0) + CountSeparators(separator, lines[1..])
  }

  function NonSeparators(separator: Separator, lines: seq<string>): seq<string> {
    if lines == [] then []
    else (if separator.Matches(lines[0]) then [] else [lines[0]]) + NonSeparators(separator, lines[1..])
  }

  /** The length of the longest prefix that ends with a separator line. */
  function ThroughLast(separator: Separator, lines: seq<string>): (n: nat)
    ensures n <= |lines|
    ensures n > 0 ==> separator.Matches(lines[n - 1])
    ensures forall i :: n <= i < |lines| ==> !separator.Matches(lines[i])
  {
    if lines == [] then 0
    else if separator.Matches(lines[|lines| - 1]) then |lines|
    else ThroughLast(separator, lines[..|lines| - 1])
  }

  lemma {:induction false} NoSeparators(separator: Separator, lines: seq<string>, collected: seq<string>)
    requires forall i :: 0 <= i < |lines| ==> !separator.Matches(lines[i])
    ensures Closed(separator, lines, collected) == []
    ensures CountSeparators(separator, lines) == 0
    ensures NonSeparators(separator, lines) == lines
  {
    if lines != [] {
      NoSeparators(separator, lines[1..], collected + [lines[0]]);
    }
  }

  lemma {:induction false} ClosedCount(separator: Separator, lines: seq<string>, collected: seq<string>)
    ensures |Closed(separator, lines, collected)| == CountSeparators(separator, lines)
  {
    if lines != [] {
      if separator.Matches(lines[0]) {
        ClosedCount(separator, lines[1..], []);
      } else {
        ClosedCount(separator, lines[1..], collected + [lines[0]]);
      }
    }
  }

  lemma {:induction false} ThroughLastCons(separator: Separator, lines: seq<string>)
    requires ThroughLast(separator, lines) > 0
    ensures ThroughLast(separator, lines) == ThroughLast(separator, lines[1..]) + 1
  {
    var n, m := ThroughLast(separator, lines), ThroughLast(separator, lines[1..]);
    assert m > 0 ==> separator.Matches(lines[m]);
    assert n >= 2 ==> lines[n - 1] == lines[1..][n - 2];
  }

  lemma {:induction false} FlatAtSeparator(separator: Separator, line: string, rest: seq<string>,
                                           collected: seq<string>)
    requires separator.Matches(line)
    ensures Flat(Closed(separator, [line] + rest, collected)) == collected + Flat(Closed(separator, rest, []))
  {
    assert ([line] + rest)[1..] == rest;
    var groups := Closed(separator, rest, []);
    assert ([collected] + groups)[1..] == groups;
  }

  lemma {:induction false} FlatAtLine(separator: Separator, line: string, rest: seq<string>, collected: seq<string>)
    requires !separator.Matches(line)
    ensures Flat(Closed(separator, [line] + rest, collected)) == Flat(Closed(separator, rest, collected + [line]))
  {
    assert ([line] + rest)[1..] == rest;
  }

  lemma {:induction false} NonSeparatorsCons(separator: Separator, collected: seq<string>, line: string,
                                             rest: seq<string>)
    ensures collected + NonSeparators(separator, [line] + rest) ==
            (if separator.Matches(line) then collected else collected + [line]) + NonSeparators(separator, rest)
  {
    assert ([line] + rest)[1..] == rest;
  }

  /** The lines of the closed groups: those before the last separator, with what was collected. */
  function Kept(separator: Separator, lines: seq<string>, collected: seq<string>): seq<string> {
    var n := ThroughLast(separator, lines);
    if n == 0 then [] else collected + NonSeparators(separator, lines[..n])
  }

  lemma {:induction false} KeptCons(separator: Separator, line: string, rest: seq<string>, collected: seq<string>)
    requires ThroughLast(separator, [line] + rest) > 0
    ensures separator.Matches(line) ==>
      Kept(separator, [line] + rest, collected) == collected + Kept(separator, rest, [])
    ensures !separator.Matches(line) ==>
      Kept(separator, [line] + rest, collected) == Kept(separator, rest, collected + [line])
  {
    var lines := [line] + rest;
    assert lines[1..] == rest;
    ThroughLastCons(separator, lines);
    var m := ThroughLast(separator, rest);
    assert lines[..m + 1] == [line] + rest[..m];
    NonSeparatorsCons(separator, collected, line, rest[..m]);
  }

  /** Nothing is lost, added or moved: the closed groups hold the lines before the last separator. */
  lemma {:induction false} ClosedFlat(separator: Separator, lines: seq<string>, collected: seq<string>)
    ensures Flat(Closed(separator, lines, collected)) == Kept(separator, lines, collected)
    decreases |lines|
  {
    if ThroughLast(separator, lines) == 0 {
      NoSeparators(separator, lines, collected);
    } else {
      var line, rest := lines[0], lines[1..];
      assert lines == [line] + rest;
      KeptCons(separator, line, rest, collected);
      if separator.Matches(line) {
        ClosedFlat(separator, rest, []);
        FlatAtSeparator(separator, line, rest, collected);
      } else {
        ClosedFlat(separator, rest, collected + [line]);
        FlatAtLine(separator, line, rest, collected);
      }
    }
  }

  ghost predicate GroupOk(separator: Separator, group: seq<string>) {
    forall l :: l in group ==> Plain(l) && !separator.Matches(l)
  }

  lemma {:induction false} ClosedGroupsOk(separator: Separator, lines: seq<string>, collected: seq<string>)
    requires GroupOk(separator, collected) && forall l :: l in lines ==> Plain(l)
    ensures forall g :: g in Closed(separator, lines, collected) ==> GroupOk(separator, g)
  {
    if lines != [] {
      assert lines[0] in lines;
      if separator.Matches(lines[0]) {
        ClosedGroupsOk(separator, lines[1..], []);
      } else {
        ClosedGroupsOk(separator, lines[1..], collected + [lines[0]]);
      }
    }
  }

  /** No group of commands contains a separator line. */
  lemma {:induction false} CommandsOk(separator: Separator, lines: seq<string>)
    requires forall l :: l in lines ==> Plain(l)
    ensures forall g :: g in Commands(separator, lines) ==> GroupOk(separator, g)
  {
    ClosedGroupsOk(separator, lines, []);
    if Closed(separator, lines, []) == [] {
      ClosedCount(separator, lines, []);
      NoneCounted(separator, lines);
    }
  }

  lemma {:induction false} NoneCounted(separator: Separator, lines: seq<string>)
    requires CountSeparators(separator, lines) == 0
    ensures forall l :: l in lines ==> !separator.Matches(l)
  {
    if lines != [] {
      NoneCounted(separator, lines[1..]);
      assert lines == [lines[0]] + lines[1..];
    }
  }

  // ------------------------------------------------------------- conservation

  function LinesOfAll(texts: seq<string>): seq<string> {
    if texts == [] then [] else Lines(texts[0]) + LinesOfAll(texts[1..])
  }

  lemma {:induction false} LinesOfJoined(newline: Newline, groups: seq<seq<string>>)
    requires forall g, l :: g in groups && l in g ==> Plain(l)
    ensures LinesOfAll(Joined(newline, groups)) == Flat(groups)
  {
    if groups != [] {
      assert groups[0] in groups;
      LinesOfUnlines(newline, groups[0]);
      LinesOfJoined(newline, groups[1..]);
    }
  }

  /** The groups of a script hold its lines up to the last separator line, without the separator lines. */
  lemma {:induction false} FlatOfCommands(separator: Separator, lines: seq<string>)
    ensures Flat(Commands(separator, lines)) ==
            if CountSeparators(separator, lines) == 0 then lines
            else NonSeparators(separator, lines[..ThroughLast(separator, lines)])
  {
    ClosedCount(separator, lines, []);
    ClosedFlat(separator, lines, []);
    if Closed(separator, lines, []) == [] {
      assert Flat([lines]) == lines + Flat([]);
    } else if ThroughLast(separator, lines) == 0 {
      NoSeparators(separator, lines, []);
    }
  }

  /** The outputs hold the script's non-separator lines up to its last separator, all of
      them if there is none, and there is one output per separator line, at least one. */
  lemma {:induction false} Conservation(separator: Separator, newline: Newline, script: string)
    ensures var lines := Lines(script);
      var out := Split(separator, newline, script);
      var separators := CountSeparators(separator, lines);
      && |out| == (if separators == 0 then 1 else separators)
      && LinesOfAll(out) == if separators == 0 then lines
                            else NonSeparators(separator, lines[..ThroughLast(separator, lines)])
  {
    var lines := Lines(script);
    var groups := Commands(separator, lines);
    CommandsOk(separator, lines);
    forall g, l | g in groups && l in g
      ensures Plain(l)
    {
      assert GroupOk(separator, g);
    }
    LinesOfJoined(newline, groups);
    ClosedCount(separator, lines, []);
    FlatOfCommands(separator, lines);
  }

  // -------------------------------------------------------------- idempotence

  /** Splitting an output again yields that output and nothing else. */
  lemma {:induction false} Idempotence(separator: Separator, newline: Newline, script: string, i: nat)
    requires i < |Split(separator, newline, script)|
    ensures var command := Split(separator, newline, script)[i];
      Split(separator, newline, command) == [command]
  {
    var group := Commands(separator, Lines(script))[i];
    var command := Unlines(newline, group);
    CommandsOk(separator, Lines(script));
    assert GroupOk(separator, group);
    LinesOfUnlines(newline, group);
    NoSeparators(separator, group, []);
    assert Joined(newline, [group]) == [command];
  }

  // --------------------------------------------------------------- round trip

  /** A command to print: its lines and the separator line that ends it. */
  datatype Block = Block(lines: seq<EndedLine>, go: EndedLine)

  function Items(blocks: seq<Block>): seq<EndedLine> {
    if blocks == [] then [] else blocks[0].lines + [blocks[0].go] + Items(blocks[1..])
  }

  ghost predicate Printable(separator: Separator, blocks: seq<Block>) {
    forall b :: b in blocks ==>
      && AllPlain(b.lines) && Plain(b.go.text) && separator.Matches(b.go.text)
      && forall l :: l in b.lines ==> !separator.Matches(l.text)
  }

  /** The groups of lines that were printed. */
  function Groups(blocks: seq<Block>): seq<seq<string>> {
    if blocks == [] then [] else [Texts(blocks[0].lines)] + Groups(blocks[1..])
  }

  lemma {:induction false} TextsConcat(a: seq<EndedLine>, b: seq<EndedLine>)
    ensures Texts(a + b) == Texts(a) + Texts(b)
  {
  }

  lemma {:induction false} ClosedSkips(separator: Separator, first: seq<string>, rest: seq<string>,
                                       collected: seq<string>)
    requires forall i :: 0 <= i < |first| ==> !separator.Matches(first[i])
    ensures Closed(separator, first + rest, collected) == Closed(separator, rest, collected + first)
  {
    if first == [] {
      assert first + rest == rest && collected + first == collected;
    } else {
      assert (first + rest)[1..] == first[1..] + rest;
      ClosedSkips(separator, first[1..], rest, collected + [first[0]]);
      assert collected + [first[0]] + first[1..] == collected + first;
    }
  }

  /** Reading one printed block, with whatever comes after it. */
  lemma {:induction false} ClosedOfBlock(separator: Separator, b: Block, rest: seq<EndedLine>)
    requires separator.Matches(b.go.text) && forall l :: l in b.lines ==> !separator.Matches(l.text)
    ensures Closed(separator, Texts(b.lines + [b.go] + rest), []) ==
            [Texts(b.lines)] + Closed(separator, Texts(rest), [])
  {
    var first, tail := Texts(b.lines), [b.go.text] + Texts(rest);
    TextsConcat(b.lines + [b.go], rest);
    TextsConcat(b.lines, [b.go]);
    assert Texts([b.go]) == [b.go.text];
    assert Texts(b.lines + [b.go] + rest) == first + tail;
    forall i | 0 <= i < |first|
      ensures !separator.Matches(first[i])
    {
      assert b.lines[i] in b.lines;
    }
    ClosedSkips(separator, first, tail, []);
    assert [] + first == first && tail[1..] == Texts(rest);
  }

  lemma {:induction false} ClosedOfItems(separator: Separator, blocks: seq<Block>)
    requires Printable(separator, blocks)
    ensures Closed(separator, Texts(Items(blocks)), []) == Groups(blocks)
  {
    if blocks != [] {
      assert blocks[0] in blocks;
      ClosedOfItems(separator, blocks[1..]);
      ClosedOfBlock(separator, blocks[0], Items(blocks[1..]));
    }
  }

  lemma {:induction false} ItemsPlain(separator: Separator, blocks: seq<Block>)
    requires Printable(separator, blocks)
    ensures AllPlain(Items(blocks))
  {
    if blocks != [] {
      assert blocks[0] in blocks;
      ItemsPlain(separator, blocks[1..]);
    }
  }

  /** The last line survives if it is not empty. */
  lemma {:induction false} LastSurvives(items: seq<EndedLine>)
    requires items != [] && items[|items| - 1].text != ""
    ensures Surviving(items) != []
    ensures Surviving(items)[|Surviving(items)| - 1] == items[|items| - 1]
    decreases |items|
  {
    if |items| >= 2 && MergesAt(items, 0) {
      LastSurvives(items[2..]);
    } else if |items| >= 2 {
      LastSurvives(items[1..]);
    } else {
      assert Surviving(items[1..]) == [];
    }
  }

  /** When a separator comes last, the groups together with the separators are all the lines. */
  lemma {:induction false} ClosedTotal(separator: Separator, lines: seq<string>, collected: seq<string>)
    requires lines != [] && separator.Matches(lines[|lines| - 1])
    ensures |Flat(Closed(separator, lines, collected))| + |Closed(separator, lines, collected)| == |collected| + |lines|
  {
    if |lines| == 1 {
      assert Closed(separator, lines[1..], []) == [];
      assert Closed(separator, lines, collected) == [collected];
      assert Flat([collected]) == collected + Flat([]);
    } else if separator.Matches(lines[0]) {
      ClosedTotal(separator, lines[1..], []);
    } else {
      ClosedTotal(separator, lines[1..], collected + [lines[0]]);
    }
  }

  lemma {:induction false} LastItem(blocks: seq<Block>)
    requires blocks != []
    ensures Items(blocks) != [] && Items(blocks)[|Items(blocks)| - 1] == blocks[|blocks| - 1].go
  {
    if |blocks| == 1 {
      assert Items(blocks[1..]) == [];
    } else {
      LastItem(blocks[1..]);
    }
  }

  lemma {:induction false} EmptyLineIsNoSeparator(separator: Separator)
    ensures !separator.Matches("")
  {
  }

  lemma {:induction false} JoinedInjective(newline: Newline, a: seq<seq<string>>, b: seq<seq<string>>)
    requires forall g, l :: g in a && l in g ==> Plain(l)
    requires forall g, l :: g in b && l in g ==> Plain(l)
    requires Joined(newline, a) == Joined(newline, b)
    ensures a == b
  {
    assert |a| == |b|;
    forall i | 0 <= i < |a|
      ensures a[i] == b[i]
    {
      LinesOfUnlines(newline, a[i]);
      LinesOfUnlines(newline, b[i]);
      assert Unlines(newline, a[i]) == Joined(newline, a)[i];
    }
  }

  /** If the split gives the printed groups back, no line was lost. */
  lemma {:induction false} NothingLost(separator: Separator, blocks: seq<Block>)
    requires blocks != [] && Printable(separator, blocks)
    requires Closed(separator, Texts(Surviving(Items(blocks))), []) == Groups(blocks)
    ensures !Merges(Items(blocks))
  {
    var items := Items(blocks);
    var survivors := Surviving(items);
    ClosedOfItems(separator, blocks);
    LastItem(blocks);
    var last := blocks[|blocks| - 1];
    assert last in blocks;
    EmptyLineIsNoSeparator(separator);
    LastSurvives(items);
    ClosedTotal(separator, Texts(survivors), []);
    ClosedTotal(separator, Texts(items), []);
    assert |Texts(survivors)| == |Texts(items)|;
    SurvivingAll(items);
  }

  /** Equal outputs come from equal groups of lines. */
  lemma {:induction false} SplitDeterminesGroups(separator: Separator, newline: Newline, blocks: seq<Block>,
                                                 script: string)
    requires blocks != [] && Printable(separator, blocks)
    requires Split(separator, newline, script) == Joined(newline, Groups(blocks))
    ensures Commands(separator, Lines(script)) == Groups(blocks)
  {
    GroupsPlain(separator, blocks);
    CommandsOk(separator, Lines(script));
    forall g, l | g in Commands(separator, Lines(script)) && l in g
      ensures Plain(l)
    {
      assert GroupOk(separator, g);
    }
    JoinedInjective(newline, Commands(separator, Lines(script)), Groups(blocks));
  }

  /** Text whose only group is the text itself would have to end without a separator. */
  lemma {:induction false} SomethingClosed(separator: Separator, blocks: seq<Block>)
    requires blocks != [] && Printable(separator, blocks)
    ensures Closed(separator, Texts(Surviving(Items(blocks))), []) != []
  {
    var items := Items(blocks);
    LastItem(blocks);
    assert blocks[|blocks| - 1] in blocks;
    EmptyLineIsNoSeparator(separator);
    LastSurvives(items);
    ClosedTotal(separator, Texts(Surviving(items)), []);
  }

  /** Printing blocks and splitting the text gives the blocks back, with the platform's line
      ends, if and only if no printed CR swallows the LF of an empty line behind it. */
  lemma {:induction false} RoundTrip(separator: Separator, newline: Newline, blocks: seq<Block>)
    requires blocks != [] && Printable(separator, blocks)
    ensures Split(separator, newline, Print(Items(blocks))) == Joined(newline, Groups(blocks))
            <==> !Merges(Items(blocks))
  {
    var items := Items(blocks);
    ItemsPlain(separator, blocks);
    LinesOfPrint(items);
    if Split(separator, newline, Print(items)) == Joined(newline, Groups(blocks)) {
      SplitDeterminesGroups(separator, newline, blocks, Print(items));
      SomethingClosed(separator, blocks);
      NothingLost(separator, blocks);
    }
    if !Merges(items) {
      SurvivingAll(items);
      ClosedOfItems(separator, blocks);
      GroupsPlain(separator, blocks);
    }
  }

  lemma {:induction false} GroupsPlain(separator: Separator, blocks: seq<Block>)
    requires Printable(separator, blocks)
    ensures forall g, l :: g in Groups(blocks) && l in g ==> Plain(l)
    ensures blocks != [] ==> Groups(blocks) != []
  {
    if blocks != [] {
      assert blocks[0] in blocks;
      GroupsPlain(separator, blocks[1..]);
    }
  }

  /** With terminators all CR, or any mix of LF and CRLF, the round trip always holds. */
  lemma {:induction false} UniformRoundTrip(separator: Separator, newline: Newline, blocks: seq<Block>)
    requires blocks != [] && Printable(separator, blocks) && Uniform(Items(blocks))
    ensures Split(separator, newline, Print(Items(blocks))) == Joined(newline, Groups(blocks))
  {
    UniformTerminatorsDoNotMerge(Items(blocks));
    RoundTrip(separator, newline, blocks);
  }
}
