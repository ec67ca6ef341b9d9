/**
 Why a second upgrade may leave more marks behind than the first one, although that one
 finished: a step whose preconditions come true only later.
 */
module LateMarks {
  import opened Wrappers
  import opened MarkStore
  import opened Migration
  import opened UpgradeMachine
  import opened RepeatedRuns
  import opened RepeatBound
  import opened Idempotence
  import opened UpgradeEffects

  /** Two database steps: one that is to be marked but is not met yet, and one that is executed
      without a mark, after which the first one is met. */
  ghost predicate LateScript(plan: Plan, content: Content) {
    && DatabaseStepsOnly(plan) && |plan.tasks| == 2
    && plan.tasks[0].mark && Handled(plan, 0) && !Has(content.marks, plan.tasks[0].key) && !plan.tasks[1].mark
    && Passable(plan, 0, content) && !MetOn(plan, 0, content) && MetOn(plan, 1, content)
    && MetOn(plan, 0, Turn(plan, content, 2))
  }

  /** The first upgrade skips the first step and finishes. */
  lemma {:induction false} FirstSkips(plan: Plan, db: Shared) returns (run: Run)
    requires LateScript(plan, db.content) && CanEnterLater(db) && MarkStore.Valid(db.content.marks)
    ensures run.before == db && Reaches(plan, Config(START, db), run.after) && run.after.process.pc.Finished?
    ensures CanEnterLater(run.after.db) && run.after.db.content == Turn(plan, db.content, 2)
    ensures run.after.db.content.marks == db.content.marks
  {
    var a, end := Config(START, db), Turn(plan, db.content, 2);
    var p, db' := EntersLater(plan, db);
    assert Turn(plan, db.content, 1) == db.content;
    TurnsOfDatabaseSteps(plan, db.content, 2, end);
    TurnsKeepMarks(plan, db.content, 2, end);
    GetsItsTurn(plan, a, p, db', db.content, 2, end);
    ReachesStep(plan, a, Spot(p, db', end, Checking(2, 0)), EndScripts, Spot(p, db', end, Leaving(false)));
    var left := db'.(content := end);
    var released := if p.locked then Released(left, LOCK_ID) else left;
    run := Run(db, Config(p.(pc := Finished), released));
    ReachesStep(plan, a, Spot(p, db', end, Leaving(false)), Release, run.after);
  }

  lemma {:induction false} TwoRuns(plan: Plan, first: Run, second: Run)
    requires Reaches(plan, Config(START, first.before), first.after) && second.before == first.after.db
    requires Reaches(plan, Config(START, second.before), second.after)
    ensures OneAfterAnother(plan, [first, second])
  {
  }

  /** On every such script the first upgrade finishes and leaves a step to be newly marked; and
      there is a second upgrade that marks it. */
  lemma {:induction false} SecondUpgradeMarksMore(plan: Plan, db: Shared) returns (first: Run, second: Run)
    requires LateScript(plan, db.content) && CanEnterLater(db) && MarkStore.Valid(db.content.marks)
    ensures OneAfterAnother(plan, [first, second]) && first.before == db && first.after.process.pc.Finished?
    ensures NewMark(plan, first.after.db.content, 0) && !MarksStay(plan, first.after.db)
    ensures !Has(first.after.db.content.marks, plan.tasks[0].key)
    ensures Has(second.after.db.content.marks, plan.tasks[0].key)
  {
    first := FirstSkips(plan, db);
    var content := first.after.db.content;
    assert Turns(plan, content, 0, content) && MetOn(plan, 0, content);
    var after := MakesNewMark(plan, first.after.db, 0);
    second := Run(first.after.db, after);
    TwoRuns(plan, first, second);
  }

  /** A step of SQL text for any database, under one precondition. */
  function SqlTask(key: StepKey, p: Precondition, mark: bool, text: string): Task {
    Task(key, Some([p]), mark, DbCommand([Alternative("all", text)]))
  }

  /** A table is to be made if it is not found; and the step after that, which is always
      executed, drops it. */
  function MakeThenDrop(settings: Settings, made: StepKey, dropped: StepKey, table: string, make: string, drop: string):
    Plan
  {
    Plan(settings, [SqlTask(made, Precondition("DbTableNotFound", [table]), true, make),
                    SqlTask(dropped, Precondition("ForceExecution", []), false, drop)])
  }

  lemma {:induction false} ClaimersAreFound(handlers: seq<PreconditionHandler>, tableExists: (string, Content) -> bool)
    requires handlers == [StepNotExecuted, ForceExecution(), TableNotFound(tableExists)]
    ensures Preconditions.Claimer(handlers, "DbTableNotFound") == Some(TableNotFound(tableExists))
    ensures Preconditions.Claimer(handlers, "ForceExecution") == Some(ForceExecution())
  {
    assert StepNotExecuted.Name()[0] == 'S' && ForceExecution().Name()[0] == 'F';
    assert handlers[1..] == [ForceExecution(), TableNotFound(tableExists)];
    assert handlers[1..][1..] == [TableNotFound(tableExists)];
    assert "DbTableNotFound"[0] == 'D' && "ForceExecution"[0] == 'F';
    assert Preconditions.Claimer(handlers[1..][1..], "DbTableNotFound") == Some(TableNotFound(tableExists));
    assert Preconditions.Claimer(handlers[1..], "DbTableNotFound") == Some(TableNotFound(tableExists));
    assert Preconditions.Claimer(handlers[1..], "ForceExecution") == Some(ForceExecution());
  }

  /** This is such a script, with built-in preconditions only. */
  lemma {:induction false} MakeThenDropIsLate(settings: Settings, tableExists: (string, Content) -> bool, made: StepKey,
                                              dropped: StepKey, table: string, make: string, drop: string,
                                              content: Content)
    requires settings.preconditionHandlers == [StepNotExecuted, ForceExecution(), TableNotFound(tableExists)]
    requires settings.stepHandlers == [DbCommandHandler] && table != ""
    requires !Has(content.marks, made) && tableExists(table, content)
    requires var plan := MakeThenDrop(settings, made, dropped, table, make, drop);
      !tableExists(table, content.(log := content.log + StepLog(plan, 1, UnitsAt(plan, 1))))
    ensures LateScript(MakeThenDrop(settings, made, dropped, table, make, drop), content)
  {
    var plan := MakeThenDrop(settings, made, dropped, table, make, drop);
    assert Accepts(plan, 0, 0);
    VerdictsOf(plan, tableExists, table, content);
    assert Turn(plan, content, 1) == content;
    DropsOnce(plan, content);
    VerdictsOf(plan, tableExists, table, Turn(plan, content, 2));
  }

  /** The verdicts on a step under "DbTableNotFound" and on one under "ForceExecution". */
  lemma {:induction false} VerdictsOf(plan: Plan, tableExists: (string, Content) -> bool, table: string,
                                      content: Content)
    requires plan.settings.preconditionHandlers == [StepNotExecuted, ForceExecution(), TableNotFound(tableExists)]
    requires |plan.tasks| == 2 && table != ""
    requires plan.tasks[0].preconditions == Some([Precondition("DbTableNotFound", [table])])
    requires plan.tasks[1].preconditions == Some([Precondition("ForceExecution", [])])
    ensures Passable(plan, 0, content) && (MetOn(plan, 0, content) <==> !tableExists(table, content))
    ensures MetOn(plan, 1, content)
  {
    ClaimersAreFound(plan.settings.preconditionHandlers, tableExists);
    var handlers, made, dropped := plan.settings.preconditionHandlers, plan.tasks[0], plan.tasks[1];
    assert made.preconditions.value[1..] == [] && dropped.preconditions.value[1..] == [];
    assert Preconditions.Judge(handlers, made.key, made.preconditions.value[0], content) ==
           if tableExists(table, content) then NotMet else Met;
    assert Preconditions.Judge(handlers, dropped.key, dropped.preconditions.value[0], content) == Met;
  }

  /** A database step with one handler is executed once. */
  lemma {:induction false} DropsOnce(plan: Plan, content: Content)
    requires DatabaseStepsOnly(plan) && |plan.tasks| == 2 && plan.settings.stepHandlers == [DbCommandHandler]
    requires Turn(plan, content, 1) == content && MetOn(plan, 1, content)
    ensures Turn(plan, content, 2) == content.(log := content.log + StepLog(plan, 1, UnitsAt(plan, 1)))
  {
    var entries := StepLog(plan, 1, UnitsAt(plan, 1));
    assert Accepts(plan, 1, 0) && Acceptors(plan, 1, 0) == 0;
    assert Acceptors(plan, 1, 1) == 1;
    assert Times(entries, 1) == Times(entries, 0) + entries == entries;
  }
}
