/**
 What a whole chain of splitters makes of a text, told by its lines: for any number of
 splitters, with do-nothing ones anywhere between them.
 */
module ChainLaws {
  import opened TextLines
  import opened ScriptSplitter
  import opened SplitterLaws

  /** The separators of a chain, in order; a splitter that does nothing has none. */
  function SeparatorsOf(chain: seq<Kind>): seq<Separator> {
    if chain == [] then []
    else match chain[0]
      case DoingNothing => SeparatorsOf(chain[1..])
      case Separated(separator) => [separator] + SeparatorsOf(chain[1..])
  }

  // ---------------------------------------------------------------- kept lines

  /** The lines that are left when each separator in turn has divided what the ones before it left. */
  function KeptLines(separators: seq<Separator>, lines: seq<string>): seq<string>
    decreases |separators|, 0, 0
  {
    if separators == [] then lines else KeptOfEach(separators[1..], Commands(separators[0], lines))
  }

  function KeptOfEach(separators: seq<Separator>, groups: seq<seq<string>>): seq<string>
    decreases |separators|, 1, |groups|
  {
    if groups == [] then [] else KeptLines(separators, groups[0]) + KeptOfEach(separators, groups[1..])
  }

  lemma {:induction false} KeptOfEachByNone(groups: seq<seq<string>>)
    ensures KeptOfEach([], groups) == Flat(groups)
  {
    if groups != [] {
      KeptOfEachByNone(groups[1..]);
    }
  }

  /** The shorter one is what is left of the longer one when some lines are taken out. */
  predicate Within(part: seq<string>, whole: seq<string>) {
    || part == []
    || (whole != [] && part[0] == whole[0] && Within(part[1..], whole[1..]))
    || (whole != [] && Within(part, whole[1..]))
  }

  lemma {:induction false} WithinItself(lines: seq<string>)
    ensures Within(lines, lines)
  {
    if lines != [] {
      WithinItself(lines[1..]);
    }
  }

  lemma {:induction false} WithinMore(part: seq<string>, whole: seq<string>, more: seq<string>)
    requires Within(part, whole)
    ensures Within(part, more + whole) && Within(part, whole + more)
    decreases |whole| + |more|
  {
    if more != [] {
      WithinMore(part, whole, more[1..]);
      assert (more + whole)[1..] == more[1..] + whole;
    } else {
      assert more + whole == whole && whole + more == whole;
    }
    if more != [] && whole != [] && part != [] {
      assert (whole + more)[1..] == whole[1..] + more;
      if part[0] == whole[0] && Within(part[1..], whole[1..]) {
        WithinMore(part[1..], whole[1..], more);
      } else {
        WithinMore(part, whole[1..], more);
      }
    }
  }

  lemma {:induction false} WithinBoth(a: seq<string>, whole: seq<string>, b: seq<string>, rest: seq<string>)
    requires Within(a, whole) && Within(b, rest)
    ensures Within(a + b, whole + rest)
    decreases |whole|
  {
    if a == [] {
      assert a + b == b;
      WithinMore(b, rest, whole);
    } else {
      assert (a + b)[1..] == a[1..] + b && (whole + rest)[1..] == whole[1..] + rest;
      if a[0] == whole[0] && Within(a[1..], whole[1..]) {
        WithinBoth(a[1..], whole[1..], b, rest);
      } else {
        WithinBoth(a, whole[1..], b, rest);
      }
    }
  }

  lemma {:induction false} WithinWithin(a: seq<string>, b: seq<string>, c: seq<string>)
    requires Within(a, b) && Within(b, c)
    ensures Within(a, c)
    decreases |c|
  {
    if a != [] {
      if b[0] == c[0] && Within(b[1..], c[1..]) {
        if a[0] == b[0] && Within(a[1..], b[1..]) {
          WithinWithin(a[1..], b[1..], c[1..]);
        } else {
          WithinWithin(a, b[1..], c[1..]);
        }
      } else {
        WithinWithin(a, b, c[1..]);
      }
    }
  }

  lemma {:induction false} WithinMembers(part: seq<string>, whole: seq<string>)
    requires Within(part, whole)
    ensures forall l :: l in part ==> l in whole
    decreases |whole|
  {
    if part != [] {
      assert part == [part[0]] + part[1..] && whole == [whole[0]] + whole[1..];
      if part[0] == whole[0] && Within(part[1..], whole[1..]) {
        WithinMembers(part[1..], whole[1..]);
      } else {
        WithinMembers(part, whole[1..]);
      }
    }
  }

  lemma {:induction false} NonSeparatorsWithin(separator: Separator, lines: seq<string>)
    ensures Within(NonSeparators(separator, lines), lines)
  {
    if lines != [] {
      var kept := NonSeparators(separator, lines[1..]);
      NonSeparatorsWithin(separator, lines[1..]);
      assert [] + kept == kept && ([lines[0]] + kept)[1..] == kept;
    }
  }

  lemma {:induction false} KeptBeforeIsWithin(separator: Separator, lines: seq<string>, n: nat)
    requires n <= |lines|
    ensures Within(NonSeparators(separator, lines[..n]), lines)
  {
    var front, back := lines[..n], lines[n..];
    NonSeparatorsWithin(separator, front);
    WithinMore(NonSeparators(separator, front), front, back);
    assert lines == front + back;
  }

  lemma {:induction false} CommandsWithin(separator: Separator, lines: seq<string>)
    ensures Within(Flat(Commands(separator, lines)), lines)
  {
    FlatOfCommands(separator, lines);
    if CountSeparators(separator, lines) == 0 {
      WithinItself(lines);
    } else {
      KeptBeforeIsWithin(separator, lines, ThroughLast(separator, lines));
    }
  }

  ghost predicate AllLinesPlain(lines: seq<string>) {
    forall l :: l in lines ==> Plain(l)
  }

  /** None of the separators matches any of the lines. */
  ghost predicate Clean(separators: seq<Separator>, lines: seq<string>) {
    forall separator, l :: separator in separators && l in lines ==> !separator.Matches(l)
  }

  /** The kept lines come in their order, and no separator of the chain is among them. */
  lemma {:induction false} KeptMeaning(separators: seq<Separator>, lines: seq<string>)
    requires AllLinesPlain(lines)
    ensures Within(KeptLines(separators, lines), lines) && Clean(separators, KeptLines(separators, lines))
    decreases |separators|, 0, 0
  {
    if separators == [] {
      WithinItself(lines);
    } else {
      var groups := Commands(separators[0], lines);
      CommandsOk(separators[0], lines);
      KeptOfEachMeaning(separators, groups);
      CommandsWithin(separators[0], lines);
      WithinWithin(KeptOfEach(separators[1..], groups), Flat(groups), lines);
    }
  }

  lemma {:induction false} KeptOfEachMeaning(separators: seq<Separator>, groups: seq<seq<string>>)
    requires separators != [] && forall g :: g in groups ==> GroupOk(separators[0], g)
    ensures var kept := KeptOfEach(separators[1..], groups);
      Within(kept, Flat(groups)) && Clean(separators, kept)
    decreases |separators| - 1, 1, |groups|
  {
    if groups != [] {
      var kept := KeptLines(separators[1..], groups[0]);
      assert GroupOk(separators[0], groups[0]);
      KeptMeaning(separators[1..], groups[0]);
      WithinMembers(kept, groups[0]);
      KeptOfEachMeaning(separators, groups[1..]);
      WithinBoth(kept, groups[0], KeptOfEach(separators[1..], groups[1..]), Flat(groups[1..]));
      assert separators == [separators[0]] + separators[1..];
    }
  }

  // -------------------------------------------------------------- conservation

  lemma {:induction false} LinesOfAllConcat(a: seq<string>, b: seq<string>)
    ensures LinesOfAll(a + b) == LinesOfAll(a) + LinesOfAll(b)
  {
    if a == [] {
      assert a + b == b;
    } else {
      assert (a + b)[1..] == a[1..] + b;
      LinesOfAllConcat(a[1..], b);
    }
  }

  /** The commands that come out of a chain hold the kept lines, all of them and nothing else. */
  lemma {:induction false} ChainConservation(newline: Newline, chain: seq<Kind>, text: string)
    ensures LinesOfAll(ChainSplit(newline, chain, text)) == KeptLines(SeparatorsOf(chain), Lines(text))
    decreases |chain|, 0, 0
  {
    if chain != [] {
      match chain[0]
      case DoingNothing => ChainConservation(newline, chain[1..], text);
      case Separated(separator) =>
        var groups := Commands(separator, Lines(text));
        CommandsOk(separator, Lines(text));
        forall g | g in groups
          ensures AllLinesPlain(g)
        {
          assert GroupOk(separator, g);
        }
        EachConservation(newline, chain[1..], groups);
        assert SeparatorsOf(chain)[1..] == SeparatorsOf(chain[1..]);
    }
  }

  lemma {:induction false} EachConservation(newline: Newline, chain: seq<Kind>, groups: seq<seq<string>>)
    requires forall g :: g in groups ==> AllLinesPlain(g)
    ensures LinesOfAll(Flat(ChainSplitEach(newline, chain, Joined(newline, groups)))) ==
            KeptOfEach(SeparatorsOf(chain), groups)
    decreases |chain|, 1, |groups|
  {
    if groups != [] {
      var texts := Joined(newline, groups);
      var first, others := ChainSplit(newline, chain, texts[0]), ChainSplitEach(newline, chain, texts[1..]);
      assert ChainSplitEach(newline, chain, texts) == [first] + others;
      assert groups[0] in groups;
      LinesOfUnlines(newline, groups[0]);
      ChainConservation(newline, chain, texts[0]);
      EachConservation(newline, chain, groups[1..]);
      LinesOfAllConcat(first, Flat(others));
    }
  }

  /** A chain with one separator leaves exactly the lines before the last separator line that are
      none themselves, or all of them if there is none. */
  lemma {:induction false} OneSeparator(newline: Newline, chain: seq<Kind>, text: string, separator: Separator)
    requires SeparatorsOf(chain) == [separator]
    ensures ChainSplit(newline, chain, text) == Split(separator, newline, text)
    ensures var lines := Lines(text);
      LinesOfAll(ChainSplit(newline, chain, text)) ==
      if CountSeparators(separator, lines) == 0 then lines
      else NonSeparators(separator, lines[..ThroughLast(separator, lines)])
  {
    match chain[0]
    case DoingNothing => OneSeparator(newline, chain[1..], text, separator);
    case Separated(own) =>
      assert SeparatorsOf(chain)[0] == own && SeparatorsOf(chain)[1..] == SeparatorsOf(chain[1..]);
      NoSeparatorEach(newline, chain[1..], Split(separator, newline, text));
      Conservation(separator, newline, text);
  }

  lemma {:induction false} NoSeparator(newline: Newline, chain: seq<Kind>, text: string)
    requires SeparatorsOf(chain) == []
    ensures ChainSplit(newline, chain, text) == [text]
  {
    if chain != [] {
      NoSeparator(newline, chain[1..], text);
    }
  }

  lemma {:induction false} NoSeparatorEach(newline: Newline, chain: seq<Kind>, texts: seq<string>)
    requires SeparatorsOf(chain) == []
    ensures Flat(ChainSplitEach(newline, chain, texts)) == texts
  {
    if texts != [] {
      NoSeparator(newline, chain, texts[0]);
      NoSeparatorEach(newline, chain, texts[1..]);
      assert ChainSplitEach(newline, chain, texts) == [[texts[0]]] + ChainSplitEach(newline, chain, texts[1..]);
    }
  }

  // -------------------------------------------------------------- one command

  /** A text without separator lines is one command: the text as it is if the chain has no separator, and
      else its lines with the line ends of the platform. */
  lemma {:induction false} CleanTextIsOneCommand(newline: Newline, chain: seq<Kind>, text: string)
    requires Clean(SeparatorsOf(chain), Lines(text))
    ensures ChainSplit(newline, chain, text) ==
            [if SeparatorsOf(chain) == [] then text else Unlines(newline, Lines(text))]
  {
    if chain != [] {
      match chain[0]
      case DoingNothing => CleanTextIsOneCommand(newline, chain[1..], text);
      case Separated(separator) =>
        var lines := Lines(text);
        var command := Unlines(newline, lines);
        NoSeparators(separator, lines, []);
        LinesOfUnlines(newline, lines);
        assert Split(separator, newline, text) == [command];
        CleanTextIsOneCommand(newline, chain[1..], command);
        assert ChainSplitEach(newline, chain[1..], [command]) == [[command]];
        assert Flat([[command]]) == [command] + Flat([]);
    }
  }

  /** Two separators in a row: the second one divides what the first one left, piece by piece. */
  function SplitEach(separator: Separator, newline: Newline, texts: seq<string>): (parts: seq<seq<string>>)
    ensures |parts| == |texts|
    ensures forall i :: 0 <= i < |texts| ==> parts[i] == Split(separator, newline, texts[i])
  {
    seq(|texts|, i requires 0 <= i < |texts| => Split(separator, newline, texts[i]))
  }

  lemma {:induction false} TwoSeparators(newline: Newline, chain: seq<Kind>, text: string, first: Separator,
                                         second: Separator)
    requires SeparatorsOf(chain) == [first, second]
    ensures ChainSplit(newline, chain, text) == Flat(SplitEach(second, newline, Split(first, newline, text)))
  {
    match chain[0]
    case DoingNothing => TwoSeparators(newline, chain[1..], text, first, second);
    case Separated(own) =>
      var texts, rest := Split(first, newline, text), chain[1..];
      assert SeparatorsOf(chain)[0] == own && SeparatorsOf(chain)[1..] == SeparatorsOf(rest);
      forall i | 0 <= i < |texts|
        ensures ChainSplit(newline, rest, texts[i]) == Split(second, newline, texts[i])
      {
        OneSeparator(newline, rest, texts[i], second);
      }
      assert ChainSplitEach(newline, rest, texts) == SplitEach(second, newline, texts);
  }
}
