/**
 Lines of text as a string reader delivers them: a line ends at CR, LF or CRLF,
 and the end of the text ends the last line only if something is left on it.
 */
module TextLines {
  import opened Wrappers

  predicate IsBreak(c: char) {
    c == '\r' || c == '\n'
  }

  /** A line: text without any line-break character. */
  predicate Plain(line: string) {
    forall c :: c in line ==> !IsBreak(c)
  }

  /** The position of the first line-break character, or the length of the text. */
  function LineEnd(s: string): (e: nat)
    ensures e <= |s| && Plain(s[..e])
    ensures e < |s| ==> IsBreak(s[e])
  {
    if s == "" || IsBreak(s[0]) then 0 else
      var e := LineEnd(s[1..]);
      assert s[..e + 1] == [s[0]] + s[1..][..e];
      e + 1
  }

  /** The position where the text after the first line starts. */
  function NextLine(s: string): (n: nat)
    ensures n <= |s| && (s != "" ==> n > 0)
  {
    var e := LineEnd(s);
    if e == |s| then e
    else if s[e] == '\r' && e + 1 < |s| && s[e + 1] == '\n' then e + 2
    else e + 1
  }

  function Lines(s: string): (lines: seq<string>)
    ensures forall l :: l in lines ==> Plain(l)
    decreases |s|
  {
    if s == "" then [] else [s[..LineEnd(s)]] + Lines(s[NextLine(s)..])
  }

  // The line break that AppendLine writes on this platform.
  datatype Newline = UnixNewline | WindowsNewline {
    function Text(): string {
      match this
      case UnixNewline => "\n"
      case WindowsNewline => "\r\n"
    }
  }

  /** Every line followed by the platform's line break. */
  function Unlines(newline: Newline, lines: seq<string>): string {
    if lines == [] then "" else lines[0] + newline.Text() + Unlines(newline, lines[1..])
  }

  lemma {:induction false} UnlinesAppend(newline: Newline, lines: seq<string>, line: string)
    ensures Unlines(newline, lines + [line]) == Unlines(newline, lines) + line + newline.Text()
  {
    if lines == [] {
      assert lines + [line] == [line];
      assert Unlines(newline, [line]) == line + newline.Text() + Unlines(newline, []);
    } else {
      UnlinesAppend(newline, lines[1..], line);
      assert (lines + [line])[1..] == lines[1..] + [line];
    }
  }

  /** The reader: hands out one line per call, then None. */
  class StringReader {
    const text: string
    var position: nat

    ghost predicate Valid()
      reads this
    {
      position <= |text|
    }

    constructor (text: string)
      ensures Valid() && position == 0 && this.text == text
    {
      this.text := text;
      position := 0;
    }

    ghost function Rest(): string
      requires Valid()
      reads this
    {
      text[position..]
    }

    method ReadLine() returns (line: Option<string>)
      requires Valid()
      modifies this
      ensures Valid()
      ensures line.None? <==> old(Rest()) == ""
      ensures line.None? ==> position == old(position)
      ensures line.Some? ==> Lines(old(Rest())) == [line.value] + Lines(Rest())
      ensures line.Some? ==> position > old(position)
    {
      if position == |text| {
        return None;
      }
      var end := position;
      while end < |text| && !IsBreak(text[end])
        invariant position <= end <= |text|
        invariant LineEnd(Rest()) == end - position + LineEnd(text[end..])
      {
        assert text[end..][1..] == text[end + 1..];
        end := end + 1;
      }
      line := Some(text[position..end]);
      ghost var before := Rest();
      assert before[..LineEnd(before)] == text[position..end];
      position := if end == |text| then end
                  else if text[end] == '\r' && end + 1 < |text| && text[end + 1] == '\n' then end + 2
                  else end + 1;
      assert before[NextLine(before)..] == Rest();
    }
  }

  // ------------------------------------------------------ printing and reading

  datatype Terminator = CR | LF | CRLF {
    function Text(): string {
      match this
      case CR => "\r"
      case LF => "\n"
      case CRLF => "\r\n"
    }
  }

  datatype EndedLine = EndedLine(text: string, terminator: Terminator)

  function Print(items: seq<EndedLine>): string {
    if items == [] then "" else items[0].text + items[0].terminator.Text() + Print(items[1..])
  }

  function Texts(items: seq<EndedLine>): (texts: seq<string>)
    ensures |texts| == |items|
    ensures forall i :: 0 <= i < |items| ==> texts[i] == items[i].text
  {
    seq(|items|, i requires 0 <= i < |items| => items[i].text)
  }

  ghost predicate AllPlain(items: seq<EndedLine>) {
    forall i :: 0 <= i < |items| ==> Plain(items[i].text)
  }

  /** Line k + 1 is empty and its LF completes the CR of line k. */
  predicate MergesAt(items: seq<EndedLine>, k: nat)
    requires k + 1 < |items|
  {
    items[k].terminator == CR && items[k + 1] == EndedLine("", LF)
  }

  ghost predicate Merges(items: seq<EndedLine>) {
    exists k: nat :: k + 1 < |items| && MergesAt(items, k)
  }

  /** The lines that survive printing: those whose LF is not swallowed by a CR before it. */
  function Surviving(items: seq<EndedLine>): seq<EndedLine> {
    if items == [] then []
    else if |items| >= 2 && MergesAt(items, 0) then [items[0]] + Surviving(items[2..])
    else [items[0]] + Surviving(items[1..])
  }

  lemma {:induction false} LineEndAfter(text: string, tail: string)
    requires Plain(text)
    requires tail == "" || IsBreak(tail[0])
    ensures LineEnd(text + tail) == |text|
  {
    if text == "" {
      assert text + tail == tail;
    } else {
      assert (text + tail)[1..] == text[1..] + tail;
      LineEndAfter(text[1..], tail);
      assert text[0] in text;
    }
  }

  /** Reading a printed line back, unless the text goes on with the second half of a CRLF. */
  lemma {:induction false} LinesOfOne(text: string, terminator: Terminator, rest: string)
    requires Plain(text)
    requires terminator == CR ==> rest == "" || rest[0] != '\n'
    ensures Lines(text + terminator.Text() + rest) == [text] + Lines(rest)
  {
    var t := terminator.Text();
    var s := text + t + rest;
    assert s == text + (t + rest);
    LineEndAfter(text, t + rest);
    assert s[..|text|] == text;
    assert s[|text|] == t[0];
    assert |text| + 1 < |s| ==> s[|text| + 1] == (t + rest)[1];
    assert NextLine(s) == |text| + |t|;
    assert s[NextLine(s)..] == rest;
  }

  lemma {:induction false} TextsCons(item: EndedLine, rest: seq<EndedLine>)
    ensures Texts([item] + rest) == [item.text] + Texts(rest)
  {
  }

  /** A printed text that follows a lone CR does not start with LF. */
  lemma {:induction false} AfterLoneCR(items: seq<EndedLine>)
    requires AllPlain(items) && items != [] && items[0].terminator == CR
    requires |items| >= 2 ==> !MergesAt(items, 0)
    ensures Print(items[1..]) == "" || Print(items[1..])[0] != '\n'
  {
    if |items| >= 2 {
      var next := items[1];
      assert items[1..][0] == next;
      assert next.text != "" ==> !IsBreak(next.text[0]) by {
        if next.text != "" { assert next.text[0] in next.text; }
      }
    }
  }

  /** Whatever the mix of terminators, reading a printed text gives the surviving lines. */
  lemma {:induction false} LinesOfPrint(items: seq<EndedLine>)
    requires AllPlain(items)
    ensures Lines(Print(items)) == Texts(Surviving(items))
    decreases |items|
  {
    if items == [] {
    } else if |items| >= 2 && MergesAt(items, 0) {
      var rest := items[2..];
      LinesOfPrint(rest);
      assert Print(items[1..]) == "\n" + Print(rest) by { assert items[1..][1..] == rest; }
      assert Print(items) == items[0].text + CRLF.Text() + Print(rest);
      LinesOfOne(items[0].text, CRLF, Print(rest));
      TextsCons(items[0], Surviving(rest));
    } else {
      var rest := items[1..];
      LinesOfPrint(rest);
      if items[0].terminator == CR {
        AfterLoneCR(items);
      }
      LinesOfOne(items[0].text, items[0].terminator, Print(rest));
      TextsCons(items[0], Surviving(rest));
    }
  }

  /** Lines are lost exactly when some pair of neighbours merges. */
  lemma {:induction false} SurvivingAll(items: seq<EndedLine>)
    ensures |Surviving(items)| <= |items|
    ensures Surviving(items) == items <==> !Merges(items)
    ensures Surviving(items) == items <==> |Surviving(items)| == |items|
    decreases |items|
  {
    if items == [] {
    } else if |items| >= 2 && MergesAt(items, 0) {
      SurvivingAll(items[2..]);
    } else {
      var rest := items[1..];
      SurvivingAll(rest);
      if Merges(rest) {
        var k: nat :| k + 1 < |rest| && MergesAt(rest, k);
        assert MergesAt(items, k + 1);
      }
      if Merges(items) {
        var k: nat :| k + 1 < |items| && MergesAt(items, k);
        assert k > 0;
        assert MergesAt(rest, k - 1);
      }
      assert items == [items[0]] + rest;
    }
  }

  /** The reader gives back every printed line if and only if no neighbours merge. */
  lemma {:induction false} LinesRoundTrip(items: seq<EndedLine>)
    requires AllPlain(items)
    ensures Lines(Print(items)) == Texts(items) <==> !Merges(items)
  {
    LinesOfPrint(items);
    SurvivingAll(items);
    assert |Texts(Surviving(items))| == |Surviving(items)|;
  }

  /** Terminators all CR, or any mix of LF and CRLF. */
  ghost predicate Uniform(items: seq<EndedLine>) {
    || (forall i :: 0 <= i < |items| ==> items[i].terminator == CR)
    || (forall i :: 0 <= i < |items| ==> items[i].terminator != CR)
  }

  /** With uniform terminators no neighbours merge. */
  lemma {:induction false} UniformTerminatorsDoNotMerge(items: seq<EndedLine>)
    requires Uniform(items)
    ensures !Merges(items)
  {
  }

  function Ended(newline: Newline, lines: seq<string>): (items: seq<EndedLine>)
    ensures |items| == |lines|
  {
    seq(|lines|, i requires 0 <= i < |lines| => EndedLine(lines[i], if newline.UnixNewline? then LF else CRLF))
  }

  lemma {:induction false} PrintEnded(newline: Newline, lines: seq<string>)
    ensures Print(Ended(newline, lines)) == Unlines(newline, lines)
  {
    if lines != [] {
      PrintEnded(newline, lines[1..]);
      assert Ended(newline, lines)[1..] == Ended(newline, lines[1..]);
    }
  }

  /** What AppendLine wrote, the reader reads. */
  lemma {:induction false} LinesOfUnlines(newline: Newline, lines: seq<string>)
    requires forall l :: l in lines ==> Plain(l)
    ensures Lines(Unlines(newline, lines)) == lines
  {
    var items := Ended(newline, lines);
    PrintEnded(newline, lines);
    UniformTerminatorsDoNotMerge(items);
    LinesRoundTrip(items);
    assert Texts(items) == lines;
  }
}
