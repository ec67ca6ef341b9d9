/**
 Splitting a script into commands at separator lines, and the chain of splitters
 that the configuration builder assembles.
 */
module ScriptSplitter {
  import opened TextLines

  /** The characters that Trim removes. */
  predicate IsWhite(c: char) {
    var u := c as int;
    || 0x9 <= u <= 0xD || u == 0x20 || u == 0x85 || u == 0xA0 || u == 0x1680
    || 0x2000 <= u <= 0x200A || u == 0x2028 || u == 0x2029 || u == 0x202F || u == 0x205F || u == 0x3000
  }

  function TrimStart(s: string): string {
    if s != "" && IsWhite(s[0]) then TrimStart(s[1..]) else s
  }

  function TrimEnd(s: string): string {
    if s != "" && IsWhite(s[|s| - 1]) then TrimEnd(s[..|s| - 1]) else s
  }

  function Trim(s: string): string {
    TrimEnd(TrimStart(s))
  }

  /** The two separator dialects: a trimmed `<GO>` line, and a line that is exactly `GO`. */
  datatype Separator = TrimmedAngleGo | ExactGo {
    predicate Matches(line: string) {
      match this
      case TrimmedAngleGo => Trim(line) == "<GO>"
      case ExactGo => line == "GO"
    }
  }

  // ----------------------------------------------------- splitting into lines

  /** The groups of lines closed by a separator, given the lines already collected. */
  function Closed(separator: Separator, lines: seq<string>, collected: seq<string>): seq<seq<string>> {
    if lines == [] then []
    else if separator.Matches(lines[0]) then [collected] + Closed(separator, lines[1..], [])
    else Closed(separator, lines[1..], collected + [lines[0]])
  }

  /** The commands of a script, as groups of lines: without any separator, the whole script. */
  function Commands(separator: Separator, lines: seq<string>): (groups: seq<seq<string>>)
    ensures groups != []
  {
    var closed := Closed(separator, lines, []);
    if closed == [] then [lines] else closed
  }

  function Joined(newline: Newline, groups: seq<seq<string>>): (texts: seq<string>)
    ensures |texts| == |groups|
    ensures forall i :: 0 <= i < |groups| ==> texts[i] == Unlines(newline, groups[i])
  {
    if groups == [] then [] else [Unlines(newline, groups[0])] + Joined(newline, groups[1..])
  }

  lemma {:induction false} JoinedAppend(newline: Newline, groups: seq<seq<string>>, group: seq<string>)
    ensures Joined(newline, groups + [group]) == Joined(newline, groups) + [Unlines(newline, group)]
  {
    if groups != [] {
      JoinedAppend(newline, groups[1..], group);
      assert (groups + [group])[1..] == groups[1..] + [group];
    }
  }

  /** How far a splitter has come: the groups closed so far, and the lines collected since. */
  ghost predicate Progress(separator: Separator, all: seq<string>, rest: seq<string>,
                           groups: seq<seq<string>>, collected: seq<string>) {
    && Closed(separator, all, []) == groups + Closed(separator, rest, collected)
    && (groups == [] ==> all == collected + rest)
  }

  lemma {:induction false} ProgressStep(separator: Separator, all: seq<string>, line: string, rest: seq<string>,
                     groups: seq<seq<string>>, collected: seq<string>)
    requires Progress(separator, all, [line] + rest, groups, collected)
    ensures separator.Matches(line) ==> Progress(separator, all, rest, groups + [collected], [])
    ensures !separator.Matches(line) ==> Progress(separator, all, rest, groups, collected + [line])
  {
    assert ([line] + rest)[1..] == rest;
    assert collected + ([line] + rest) == collected + [line] + rest;
  }

  lemma {:induction false} ProgressEnd(separator: Separator, all: seq<string>, groups: seq<seq<string>>,
                                       collected: seq<string>)
    requires Progress(separator, all, [], groups, collected)
    ensures Commands(separator, all) == if groups == [] then [collected] else groups
  {
    assert groups + [] == groups && collected + [] == collected;
  }

  /** One splitter on its own. */
  function Split(separator: Separator, newline: Newline, script: string): seq<string> {
    Joined(newline, Commands(separator, Lines(script)))
  }

  // ------------------------------------------------------------------- chains

  datatype Kind = DoingNothing | Separated(separator: Separator)

  function Flat(parts: seq<seq<string>>): seq<string> {
    if parts == [] then [] else parts[0] + Flat(parts[1..])
  }

  lemma {:induction false} FlatAppend(parts: seq<seq<string>>, part: seq<string>)
    ensures Flat(parts + [part]) == Flat(parts) + part
  {
    if parts == [] {
      assert parts + [part] == [part];
      assert Flat([part]) == part + Flat([]);
    } else {
      FlatAppend(parts[1..], part);
      assert (parts + [part])[1..] == parts[1..] + [part];
    }
  }

  /** What a chain of splitters makes of a script: each splitter feeds its outputs to the next. */
  function ChainSplit(newline: Newline, chain: seq<Kind>, script: string): seq<string>
    decreases |chain|, 0
  {
    if chain == [] then [script]
    else match chain[0]
      case DoingNothing => ChainSplit(newline, chain[1..], script)
      case Separated(separator) => Flat(ChainSplitEach(newline, chain[1..], Split(separator, newline, script)))
  }

  function ChainSplitEach(newline: Newline, chain: seq<Kind>, scripts: seq<string>): (parts: seq<seq<string>>)
    ensures |parts| == |scripts|
    decreases |chain|, 1
  {
    seq(|scripts|, i requires 0 <= i < |scripts| => ChainSplit(newline, chain, scripts[i]))
  }

  lemma {:induction false} ChainSplitEachAppend(newline: Newline, chain: seq<Kind>, scripts: seq<string>,
                                                script: string)
    ensures Flat(ChainSplitEach(newline, chain, scripts + [script])) ==
            Flat(ChainSplitEach(newline, chain, scripts)) + ChainSplit(newline, chain, script)
  {
    var parts, part := ChainSplitEach(newline, chain, scripts), ChainSplit(newline, chain, script);
    assert ChainSplitEach(newline, chain, scripts + [script]) == parts + [part];
    FlatAppend(parts, part);
  }

  lemma {:induction false} EmptyChainCopies(newline: Newline, scripts: seq<string>)
    ensures Flat(ChainSplitEach(newline, [], scripts)) == scripts
  {
    if scripts != [] {
      EmptyChainCopies(newline, scripts[1..]);
      assert ChainSplitEach(newline, [], scripts) == [[scripts[0]]] + ChainSplitEach(newline, [], scripts[1..]);
    }
  }

  /** The outputs are those of the groups handed on so far. */
  ghost predicate Emitted(newline: Newline, chain: seq<Kind>, groups: seq<seq<string>>, out: seq<string>) {
    out == Flat(ChainSplitEach(newline, chain, Joined(newline, groups)))
  }

  lemma {:induction false} EmittedNext(newline: Newline, chain: seq<Kind>, groups: seq<seq<string>>,
                                       out: seq<string>, group: seq<string>, results: seq<string>)
    requires Emitted(newline, chain, groups, out) && results == ChainSplit(newline, chain, Unlines(newline, group))
    ensures Emitted(newline, chain, groups + [group], out + results)
  {
    JoinedAppend(newline, groups, group);
    ChainSplitEachAppend(newline, chain, Joined(newline, groups), Unlines(newline, group));
  }

  lemma {:induction false} EmittedAll(separator: Separator, newline: Newline, chain: seq<Kind>, script: string,
                                      groups: seq<seq<string>>, out: seq<string>)
    requires chain != [] && chain[0] == Separated(separator)
    requires Commands(separator, Lines(script)) == groups && Emitted(newline, chain[1..], groups, out)
    ensures out == ChainSplit(newline, chain, script)
  {
  }

  /** A do-nothing head adds nothing, and a lone splitter is just its own split. */
  lemma {:induction false} ChainHeads(newline: Newline, rest: seq<Kind>, separator: Separator, script: string)
    ensures ChainSplit(newline, [DoingNothing] + rest, script) == ChainSplit(newline, rest, script)
    ensures ChainSplit(newline, [DoingNothing, Separated(separator)], script) == Split(separator, newline, script)
    ensures ChainSplit(newline, [Separated(separator)], script) == Split(separator, newline, script)
  {
    assert ([DoingNothing] + rest)[1..] == rest;
    assert [DoingNothing, Separated(separator)][1..] == [Separated(separator)];
    assert [Separated(separator)][1..] == [];
    EmptyChainCopies(newline, Split(separator, newline, script));
  }

  /** A splitter object with its link to the next one. */
  class Splitter {
    const kind: Kind
    const newline: Newline
    var next: Splitter?

    constructor (kind: Kind, newline: Newline)
      ensures next == null && this.kind == kind && this.newline == newline
    {
      this.kind, this.newline, next := kind, newline, null;
    }

    method SetNext(splitter: Splitter)
      modifies this`next
      ensures next == splitter
    {
      next := splitter;
    }

    /** The given objects are this one and everything linked behind it. */
    ghost predicate Linked(nodes: seq<Splitter>)
      reads nodes
    {
      && nodes != [] && nodes[0] == this
      && (forall i :: 0 < i < |nodes| ==> nodes[i - 1].next == nodes[i])
      && nodes[|nodes| - 1].next == null
      && (forall i :: 0 <= i < |nodes| ==> nodes[i].newline == newline)
    }

    /** Hand one finished command on: to the output, or through the rest of the chain. */
    method FinalizeProcessing(command: string, ghost nodes: seq<Splitter>) returns (out: seq<string>)
      requires Linked(nodes)
      ensures out == ChainSplit(newline, Kinds(nodes)[1..], command)
      decreases |nodes|, 0
    {
      if next == null {
        out := [command];
      } else {
        assert |nodes| > 1 && nodes[0].next == nodes[1];
        assert next.Linked(nodes[1..]);
        assert Kinds(nodes[1..]) == Kinds(nodes)[1..];
        out := next.SplitScript(command, nodes[1..]);
      }
    }

    method SplitScript(script: string, ghost nodes: seq<Splitter>) returns (out: seq<string>)
      requires Linked(nodes)
      ensures out == ChainSplit(newline, Kinds(nodes), script)
      decreases |nodes|, 2
    {
      match kind
      case DoingNothing => out := FinalizeProcessing(script, nodes);
      case Separated(separator) => out := SplitAtSeparators(separator, script, nodes);
    }

    method SplitAtSeparators(separator: Separator, script: string, ghost nodes: seq<Splitter>)
      returns (out: seq<string>)
      requires Linked(nodes) && kind == Separated(separator)
      ensures out == ChainSplit(newline, Kinds(nodes), script)
      decreases |nodes|, 1
    {
      ghost var tail := Kinds(nodes)[1..];
      ghost var all, groups, collected := Lines(script), [], [];
      ghost var rest := all;

      var reader := new StringReader(script);
      assert script[0..] == script;
      var command := "";
      var terminationFound := false;
      out := [];
      while true
        invariant reader.Valid() && fresh(reader) && Linked(nodes)
        invariant rest == Lines(reader.Rest()) && Progress(separator, all, rest, groups, collected)
        invariant terminationFound <==> groups != []
        invariant command == Unlines(newline, collected)
        invariant Emitted(newline, tail, groups, out)
        decreases |reader.text| - reader.position
      {
        var line := reader.ReadLine();
        if line.None? {
          break;
        }
        ProgressStep(separator, all, line.value, Lines(reader.Rest()), groups, collected);
        rest := Lines(reader.Rest());
        if separator.Matches(line.value) {
          terminationFound := true;
          var results := FinalizeProcessing(command, nodes);
          EmittedNext(newline, tail, groups, out, collected, results);
          groups, collected := groups + [collected], [];
          out := out + results;
          command := "";
        } else {
          UnlinesAppend(newline, collected, line.value);
          collected := collected + [line.value];
          command := command + line.value + newline.Text();
        }
      }
      ProgressEnd(separator, all, groups, collected);
      if !terminationFound {
        out := FinalizeProcessing(command, nodes);
        EmittedNext(newline, tail, [], [], collected, out);
        groups := [collected];
      }
      EmittedAll(separator, newline, Kinds(nodes), script, groups, out);
    }
  }

  ghost function Kinds(nodes: seq<Splitter>): seq<Kind> {
    seq(|nodes|, i requires 0 <= i < |nodes| => nodes[i].kind)
  }

  /** The stand-alone splitter for exact `GO` lines; it has no chain. */
  class MsSqlScriptSplitter {
    const newline: Newline

    constructor (newline: Newline)
      ensures this.newline == newline
    {
      this.newline := newline;
    }

    method SplitScript(script: string) returns (out: seq<string>)
      ensures out == Split(ExactGo, newline, script)
    {
      ghost var all, groups, collected := Lines(script), [], [];
      ghost var rest := all;

      var reader := new StringReader(script);
      assert script[0..] == script;
      var command := "";
      var terminationFound := false;
      out := [];
      while true
        invariant reader.Valid() && fresh(reader)
        invariant rest == Lines(reader.Rest()) && Progress(ExactGo, all, rest, groups, collected)
        invariant terminationFound <==> groups != []
        invariant command == Unlines(newline, collected)
        invariant out == Joined(newline, groups)
        decreases |reader.text| - reader.position
      {
        var line := reader.ReadLine();
        if line.None? {
          break;
        }
        ProgressStep(ExactGo, all, line.value, Lines(reader.Rest()), groups, collected);
        rest := Lines(reader.Rest());
        if line.value == "GO" {
          terminationFound := true;
          JoinedAppend(newline, groups, collected);
          groups, collected := groups + [collected], [];
          out := out + [command];
          command := "";
        } else {
          UnlinesAppend(newline, collected, line.value);
          collected := collected + [line.value];
          command := command + line.value + newline.Text();
        }
      }
      ProgressEnd(ExactGo, all, groups, collected);
      if !terminationFound {
        assert Joined(newline, [collected]) == [command];
        out := [command];
      }
    }
  }

  // ------------------------------------------------------------------ builder

  /** The chain after one more registration: the head stays, the rest is replaced. */
  function Registered(chain: seq<Kind>, kind: Kind): seq<Kind> {
    if chain == [] then [kind] else [chain[0], kind]
  }

  function RegisteredAll(kinds: seq<Kind>): seq<Kind> {
    if kinds == [] then [] else Registered(RegisteredAll(kinds[..|kinds| - 1]), kinds[|kinds| - 1])
  }

  class DbKeeperNetBuilder {
    const newline: Newline
    var scriptSplitter: Splitter?

    constructor (newline: Newline)
      ensures Valid() && Nodes() == [] && this.newline == newline
    {
      this.newline := newline;
      scriptSplitter := null;
    }

    /** The splitters reachable from the head. */
    ghost function Nodes(): (nodes: seq<Splitter>)
      reads this, scriptSplitter
    {
      if scriptSplitter == null then []
      else if scriptSplitter.next == null then [scriptSplitter]
      else [scriptSplitter, scriptSplitter.next]
    }

    /** The head's links end after at most one step, so the chain has no cycle. */
    ghost predicate Valid()
      reads this, scriptSplitter, Nodes()
    {
      scriptSplitter != null ==> scriptSplitter.Linked(Nodes()) && scriptSplitter.newline == newline
    }

    method AddScriptSplitter(kind: Kind)
      requires Valid()
      modifies this, scriptSplitter
      ensures Valid()
      ensures Kinds(Nodes()) == Registered(old(Kinds(Nodes())), kind)
      ensures old(scriptSplitter) == null ==> fresh(scriptSplitter)
      ensures old(scriptSplitter) != null ==> scriptSplitter == old(scriptSplitter)
    {
      var splitter := new Splitter(kind, newline);
      if scriptSplitter != null {
        scriptSplitter.SetNext(splitter);
      } else {
        scriptSplitter := splitter;
      }
    }
  }

  /** After any registrations only the first and the last splitter are reachable. */
  lemma {:induction false} ChainIsFirstAndLast(kinds: seq<Kind>)
    ensures RegisteredAll(kinds) == if |kinds| <= 1 then kinds else [kinds[0], kinds[|kinds| - 1]]
  {
    if |kinds| > 1 {
      ChainIsFirstAndLast(kinds[..|kinds| - 1]);
    } else if |kinds| == 1 {
      assert RegisteredAll(kinds[..0]) == [];
    }
  }

  /** Register a list of splitters and split with the chain that results. */
  method ConfigureAndSplit(kinds: seq<Kind>, newline: Newline, script: string) returns (out: seq<string>)
    requires kinds != []
    ensures |kinds| == 1 ==> out == ChainSplit(newline, kinds, script)
    ensures |kinds| > 1 ==> out == ChainSplit(newline, [kinds[0], kinds[|kinds| - 1]], script)
  {
    var builder := new DbKeeperNetBuilder(newline);
    for i := 0 to |kinds|
      invariant builder.Valid() && fresh(builder)
      invariant builder.newline == newline
      invariant builder.scriptSplitter != null ==> fresh(builder.scriptSplitter)
      invariant Kinds(builder.Nodes()) == RegisteredAll(kinds[..i])
      invariant i > 0 ==> builder.scriptSplitter != null
    {
      assert kinds[..i + 1][..i] == kinds[..i];
      builder.AddScriptSplitter(kinds[i]);
    }
    assert kinds[..|kinds|] == kinds;
    ChainIsFirstAndLast(kinds);
    out := builder.scriptSplitter.SplitScript(script, builder.Nodes());
  }
}
