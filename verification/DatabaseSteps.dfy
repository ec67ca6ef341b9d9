/** What a database step makes of its alternatives: which of them are run, and as which commands. */
module DatabaseSteps {
  import opened TextLines
  import opened ScriptSplitter
  import opened SplitterLaws
  import opened ChainLaws
  import opened Migration
  import opened UpgradeMachine
  import opened History

  /** These are, in order, the alternatives that the database's type calls for, and those for all types. */
  ghost predicate Chosen(settings: Settings, alternatives: seq<Alternative>, js: seq<nat>) {
    && (forall m, n :: 0 <= m < n < |js| ==> js[m] < js[n])
    && (forall n :: 0 <= n < |js| ==> js[n] < |alternatives|)
    && forall j: nat {:trigger alternatives[j]} :: j < |alternatives| ==>
         (j in js <==> settings.canHandle(alternatives[j].dbType) || alternatives[j].dbType == "all")
  }

  /** One transaction for each of the chosen alternatives, and none for any other: what the chain of
      splitters makes of its text. */
  ghost predicate OnePerChosen(settings: Settings, alternatives: seq<Alternative>, js: seq<nat>, units: seq<Unit>) {
    && Chosen(settings, alternatives, js) && |units| == |js|
    && forall n :: 0 <= n < |js| ==>
         units[n] == ChainSplit(settings.newline, settings.splitters, alternatives[js[n]].text)
  }

  lemma {:induction false} ChosenNext(settings: Settings, before: seq<Alternative>, last: Alternative, js: seq<nat>)
    requires Chosen(settings, before, js)
    ensures if settings.canHandle(last.dbType) || last.dbType == "all"
            then Chosen(settings, before + [last], js + [|before|]) else Chosen(settings, before + [last], js)
  {
    var all := before + [last];
    assert |before| !in js;
    forall j: nat | j < |before|
      ensures all[j] == before[j] && (j in js + [|before|] <==> j in js)
    {
    }
    assert |before| in js + [|before|] && all[|before|] == last;
  }

  lemma {:induction false} OneMoreAlternative(settings: Settings, before: seq<Alternative>, last: Alternative,
                                              js: seq<nat>, units: seq<Unit>)
    requires OnePerChosen(settings, before, js, units)
    ensures var commands := ChainSplit(settings.newline, settings.splitters, last.text);
      if settings.canHandle(last.dbType) || last.dbType == "all"
      then OnePerChosen(settings, before + [last], js + [|before|], units + [commands])
      else OnePerChosen(settings, before + [last], js, units)
  {
    ChosenNext(settings, before, last, js);
    assert forall n :: 0 <= n < |js| ==> (before + [last])[js[n]] == before[js[n]];
  }

  lemma {:induction false} UnitsAreChosen(settings: Settings, alternatives: seq<Alternative>) returns (js: seq<nat>)
    ensures OnePerChosen(settings, alternatives, js, UnitsOfAlternatives(settings, alternatives))
  {
    js := [];
    if alternatives != [] {
      var before, last := alternatives[..|alternatives| - 1], alternatives[|alternatives| - 1];
      js := UnitsAreChosen(settings, before);
      OneMoreAlternative(settings, before, last, js, UnitsOfAlternatives(settings, before));
      if settings.canHandle(last.dbType) || last.dbType == "all" {
        js := js + [|before|];
      }
      assert before + [last] == alternatives;
      assert UnitsOfAlternatives(settings, before) + [] == UnitsOfAlternatives(settings, before);
    }
  }

  /** A database step that is executed completely has committed one transaction for each alternative whose type
      the database handles, or which is for all, in their order: its commands hold the kept lines of
      that alternative's text. */
  lemma {:induction false} CompleteExecution(plan: Plan, i: nat, units: seq<Unit>) returns (js: seq<nat>)
    requires i < |plan.tasks| && plan.tasks[i].work.DbCommand? && Whole(plan, i, units)
    ensures var alternatives := plan.tasks[i].work.alternatives;
      && OnePerChosen(plan.settings, alternatives, js, units)
      && forall n :: 0 <= n < |js| ==>
           LinesOfAll(units[n]) == KeptLines(SeparatorsOf(plan.settings.splitters), Lines(alternatives[js[n]].text))
  {
    var settings, alternatives := plan.settings, plan.tasks[i].work.alternatives;
    DatabaseStepIsFixed(plan, i, units);
    js := UnitsAreChosen(settings, alternatives);
    forall n | 0 <= n < |js|
      ensures LinesOfAll(units[n]) == KeptLines(SeparatorsOf(settings.splitters), Lines(alternatives[js[n]].text))
    {
      ChainConservation(settings.newline, settings.splitters, alternatives[js[n]].text);
    }
  }

  /** One alternative for this database without separator lines, beside others for other databases: its
      text is the one command of the one transaction. */
  lemma {:induction false} OneCleanAlternative(plan: Plan, i: nat, units: seq<Unit>, j: nat)
    requires i < |plan.tasks| && plan.tasks[i].work.DbCommand? && Whole(plan, i, units)
    requires j < |plan.tasks[i].work.alternatives|
    requires var alternatives := plan.tasks[i].work.alternatives;
      forall k :: 0 <= k < |alternatives| ==>
        ((plan.settings.canHandle(alternatives[k].dbType) || alternatives[k].dbType == "all") <==> k == j)
    requires Clean(SeparatorsOf(plan.settings.splitters), Lines(plan.tasks[i].work.alternatives[j].text))
    ensures var text := plan.tasks[i].work.alternatives[j].text;
      units == [[if SeparatorsOf(plan.settings.splitters) == [] then text
                 else Unlines(plan.settings.newline, Lines(text))]]
  {
    var alternatives := plan.tasks[i].work.alternatives;
    var js := CompleteExecution(plan, i, units);
    assert |js| > 1 ==> js[0] < js[1];
    assert forall n :: 0 <= n < |js| ==> js[n] in js;
    assert js == [j];
    CleanTextIsOneCommand(plan.settings.newline, plan.settings.splitters, alternatives[j].text);
  }
}
