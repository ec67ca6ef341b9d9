/**
 The installer on an installed database: its table-creating steps ask a checker whether the
 table exists, and are skipped as long as no command of the scripts drops the table.
 */
module InstalledTables {
  import opened Wrappers
  import opened MarkStore
  import opened Migration
  import opened UpgradeMachine
  import opened History
  import opened Idempotence

  /** After these commands there is a table that one command makes and another one drops. */
  predicate TableIn(log: seq<Entry>, make: string, drop: string) {
    log != [] &&
    var last := log[|log| - 1].command;
    last == make || (last != drop && TableIn(log[..|log| - 1], make, drop))
  }

  /** A checker that answers from the database: the table exists if it was made and not dropped since. */
  ghost predicate ChecksTable(tableExists: (string, Content) -> bool, table: string, make: string, drop: string) {
    table != "" && forall content :: tableExists(table, content) <==> TableIn(content.log, make, drop)
  }

  ghost predicate NeverDrops(plan: Plan, drop: string) {
    forall i: nat, done: nat, unit :: i < |plan.tasks| && MayCommit(plan, i, done, unit) ==> drop !in unit
  }

  /** The step makes the table if it is not found. */
  ghost predicate MakesTable(plan: Plan, i: nat, tableExists: (string, Content) -> bool, table: string) {
    && i < |plan.tasks| && plan.tasks[i].preconditions == Some([Precondition("DbTableNotFound", [table])])
    && Preconditions.Claimer(plan.settings.preconditionHandlers, "DbTableNotFound") == Some(TableNotFound(tableExists))
  }

  /** A table outlasts commands that do not drop it. */
  lemma {:induction false} TableStays(base: seq<Entry>, log: seq<Entry>, make: string, drop: string)
    requires base <= log && TableIn(base, make, drop)
    requires forall k {:trigger log[k]} :: |base| <= k < |log| ==> log[k].command != drop
    ensures TableIn(log, make, drop)
    decreases |log|
  {
    if |log| > |base| {
      TableStays(base, log[..|log| - 1], make, drop);
    } else {
      assert log == base;
    }
  }

  lemma {:induction false} RefusedWhileTableStays(plan: Plan, i: nat, tableExists: (string, Content) -> bool,
                                                  table: string, make: string, drop: string, content: Content)
    requires MakesTable(plan, i, tableExists, table) && ChecksTable(tableExists, table, make, drop)
    requires TableIn(content.log, make, drop)
    ensures Refused(plan, i, content)
  {
    assert tableExists(table, content);
  }

  /** No attempt issues a command that is in none of its step's transactions. */
  lemma {:induction false} UnitsDoNotIssue(key: StepKey, units: seq<Unit>, command: string)
    requires forall unit :: unit in units ==> command !in unit
    ensures forall e :: e in EntriesOfUnits(key, units) ==> e.command != command
  {
    if units != [] {
      UnitsDoNotIssue(key, units[..|units| - 1], command);
      assert units[|units| - 1] in units;
    }
  }

  lemma {:induction false} AttemptsDoNotIssue(plan: Plan, m0: nat, h: seq<Attempt>, command: string)
    requires InOrder(plan, m0, h) && NeverDrops(plan, command)
    ensures forall e :: e in Log(plan, m0, h) ==> e.command != command
  {
    if h != [] {
      var last := h[|h| - 1];
      AttemptsDoNotIssue(plan, m0, h[..|h| - 1], command);
      forall unit | unit in last.units
        ensures command !in unit
      {
        var j :| 0 <= j < |last.units| && last.units[j] == unit;
        assert MayCommit(plan, last.step, j, unit);
      }
      UnitsDoNotIssue(plan.tasks[last.step].key, last.units, command);
    }
  }

  /** Once the table is made, the step is one of those that a plain script may have in front. */
  lemma {:induction false} InstallerStepIsNeverMet(plan: Plan, m0: nat, base: seq<Entry>, i: nat,
                                                   tableExists: (string, Content) -> bool,
                                                   table: string, make: string, drop: string)
    requires MakesTable(plan, i, tableExists, table) && ChecksTable(tableExists, table, make, drop)
    requires TableIn(base, make, drop) && NeverDrops(plan, drop)
    ensures NeverMet(plan, m0, base, i)
  {
    forall content, h | Explained(plan, m0, base, content, h)
      ensures Refused(plan, i, content)
    {
      AttemptsDoNotIssue(plan, m0, h, drop);
      TableStays(base, content.log, make, drop);
      RefusedWhileTableStays(plan, i, tableExists, table, make, drop, content);
    }
  }

  /** And one that a second upgrade leaves alone. */
  lemma {:induction false} InstallerStepIsQuiet(plan: Plan, before: Content, i: nat,
                                                tableExists: (string, Content) -> bool,
                                                table: string, make: string, drop: string)
    requires MakesTable(plan, i, tableExists, table) && ChecksTable(tableExists, table, make, drop)
    requires TableIn(before.log, make, drop) && NeverDrops(plan, drop)
    ensures StaysUnmet(plan, before, i) && Quiet(plan, before, i)
  {
    forall content | GoesOn(plan, before, content)
      ensures !MetOn(plan, i, content)
    {
      forall k | |before.log| <= k < |content.log|
        ensures content.log[k].command != drop
      {
        assert IssuedBySome(plan, content.log[k]);
      }
      TableStays(before.log, content.log, make, drop);
      RefusedWhileTableStays(plan, i, tableExists, table, make, drop, content);
    }
  }
}
