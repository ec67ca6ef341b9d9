/**
 Exactly when an upgrade of a given database can mark, execute or change anything, told from
 the database before it. This holds for every script, and so for a second upgrade in particular.
 */
module UpgradeEffects {
  import opened MarkStore
  import opened Migration
  import opened UpgradeMachine
  import opened History
  import opened RepeatedRuns
  import opened RepeatBound
  import opened Idempotence

  // ------------------------------------------------- what steps do in turn

  /** The run gets past the step, by executing or by skipping it, unless something fails. */
  predicate Passable(plan: Plan, i: nat, content: Content)
    requires i < |plan.tasks|
  {
    var task := plan.tasks[i];
    && task.preconditions.Some?
    && Preconditions.IsMet(plan.settings.preconditionHandlers, task.key, task.preconditions.value, content) != Raises
  }

  /** Marking the step makes no difference: it is not to be marked, or is recorded. */
  ghost predicate MarkIsOld(plan: Plan, marks: Tables, i: nat)
    requires i < |plan.tasks|
  {
    plan.tasks[i].mark && Handled(plan, i) ==> Has(marks, plan.tasks[i].key)
  }

  /** One complete execution of the step. */
  ghost predicate Adds(plan: Plan, i: nat, b: Content, c: Content)
    requires i < |plan.tasks|
  {
    exists units :: Whole(plan, i, units) && c == b.(log := b.log + StepLog(plan, i, units))
  }

  ghost predicate HandlerWorks(plan: Plan, i: nat, h: nat, b: Content, c: Content)
    requires i < |plan.tasks| && h < |plan.settings.stepHandlers|
  {
    if Accepts(plan, i, h) then Adds(plan, i, b, c) else c == b
  }

  /** Each of the first h handlers executes the step, if it accepts it. */
  ghost predicate Works(plan: Plan, i: nat, h: nat, b: Content, c: Content)
    requires i < |plan.tasks| && h <= |plan.settings.stepHandlers|
  {
    if h == 0 then c == b
    else var last := h - 1; exists mid :: Works(plan, i, last, b, mid) && HandlerWorks(plan, i, last, mid, c)
  }

  ghost predicate Passes(plan: Plan, marks: Tables, i: nat, b: Content, c: Content)
    requires i < |plan.tasks|
  {
    && Passable(plan, i, b)
    && if MetOn(plan, i, b) then MarkIsOld(plan, marks, i) && Works(plan, i, |plan.settings.stepHandlers|, b, c)
       else c == b
  }

  /** A content that step i may find when its turn comes, nothing new having been marked before. */
  ghost predicate Turns(plan: Plan, content: Content, i: nat, c: Content) {
    i <= |plan.tasks| &&
    if i == 0 then c == content
    else var last := i - 1; exists b :: Turns(plan, content, last, b) && Passes(plan, content.marks, last, b, c)
  }

  /** Step i may be the first one to be marked that was not. */
  ghost predicate NewMark(plan: Plan, content: Content, i: nat) {
    i < |plan.tasks| && !MarkIsOld(plan, content.marks, i) &&
    exists c :: Turns(plan, content, i, c) && MetOn(plan, i, c)
  }

  /** Step i is executed, if no earlier one is. */
  ghost predicate NewWork(plan: Plan, content: Content, i: nat) {
    && i < |plan.tasks| && Handled(plan, i) && MetOn(plan, i, content)
    && forall j :: 0 <= j < i ==> Passable(plan, j, content)
  }

  /** Executing the step may change the database. */
  ghost predicate Effective(plan: Plan, i: nat)
    requires i < |plan.tasks|
  {
    exists done: nat, unit :: MayCommit(plan, i, done, unit) && unit != []
  }

  /** Step i changes something, if no earlier one does. */
  ghost predicate NewChange(plan: Plan, content: Content, i: nat) {
    NewWork(plan, content, i) && (Effective(plan, i) || !MarkIsOld(plan, content.marks, i))
  }

  /** One handler more. */
  lemma {:induction false} WorksNext(plan: Plan, i: nat, h: nat, b: Content, mid: Content, c: Content)
    requires i < |plan.tasks| && h < |plan.settings.stepHandlers|
    requires Works(plan, i, h, b, mid) && HandlerWorks(plan, i, h, mid, c)
    ensures Works(plan, i, h + 1, b, c)
  {
    var last := h + 1 - 1;
    assert Works(plan, i, last, b, mid) && HandlerWorks(plan, i, last, mid, c);
  }

  /** One step more. */
  lemma {:induction false} TurnsNext(plan: Plan, content: Content, i: nat, b: Content, c: Content)
    requires i < |plan.tasks| && Turns(plan, content, i, b) && Passes(plan, content.marks, i, b, c)
    ensures Turns(plan, content, i + 1, c)
  {
    var last := i + 1 - 1;
    assert Turns(plan, content, last, b) && Passes(plan, content.marks, last, b, c);
  }

  lemma {:induction false} WorksKeepMarks(plan: Plan, i: nat, h: nat, b: Content, c: Content)
    requires i < |plan.tasks| && h <= |plan.settings.stepHandlers| && Works(plan, i, h, b, c)
    ensures c.marks == b.marks
  {
    if h > 0 {
      var mid :| Works(plan, i, h - 1, b, mid) && HandlerWorks(plan, i, h - 1, mid, c);
      WorksKeepMarks(plan, i, h - 1, b, mid);
    }
  }

  lemma {:induction false} TurnsKeepMarks(plan: Plan, content: Content, i: nat, c: Content)
    requires Turns(plan, content, i, c)
    ensures c.marks == content.marks
  {
    if i > 0 {
      var b :| Turns(plan, content, i - 1, b) && Passes(plan, content.marks, i - 1, b, c);
      TurnsKeepMarks(plan, content, i - 1, b);
      if MetOn(plan, i - 1, b) {
        WorksKeepMarks(plan, i - 1, |plan.settings.stepHandlers|, b, c);
      }
    }
  }

  lemma {:induction false} AcceptedIsHandled(plan: Plan, i: nat, h: nat)
    requires i < |plan.tasks| && h < |plan.settings.stepHandlers| && Accepts(plan, i, h)
    ensures Handled(plan, i)
  {
  }

  /** Some complete execution, for any step. */
  lemma {:induction false} SomeExecution(plan: Plan, i: nat) returns (units: seq<Unit>)
    requires i < |plan.tasks|
    ensures Whole(plan, i, units)
  {
    units := if plan.tasks[i].work.DbCommand? then UnitsAt(plan, i) else [];
  }

  // -------------------------------------------------- runs that get there

  /** The updater can get in, sooner or later. */
  predicate CanEnterLater(db: Shared) {
    db.locks.None? || HasLockRow(db, LOCK_ID)
  }

  /** The updater p on db, at this place, with this content. */
  function Spot(p: Process, db: Shared, content: Content, pc: Pc): Config {
    Config(p.(pc := pc), db.(content := content))
  }

  lemma {:induction false} EntersLater(plan: Plan, db: Shared) returns (p: Process, db': Shared)
    requires CanEnterLater(db)
    ensures db'.content == db.content
    ensures Reaches(plan, Config(START, db), Spot(p, db', db.content, Checking(0, 0)))
    ensures p.locked == db.locks.Some? && (if db.locks.Some? then HasLockRow(db', LOCK_ID) else db'.locks.None?)
  {
    var a := Config(START, db);
    var later := db.(now := if HasLockRow(db, LOCK_ID) && Expiration(db, LOCK_ID) >= db.now
                            then Expiration(db, LOCK_ID) + 1 else db.now);
    ReachesSelf(plan, a);
    ReachesHop(plan, a, a, Config(START, later));
    p, db' := Enters(plan, a, later);
    assert At(Config(p, db'), Checking(0, 0)) == Spot(p, db', db.content, Checking(0, 0));
  }

  /** The preconditions from this one on are judged, and let the step through or not. */
  lemma {:induction false} GetsChecked(plan: Plan, a: Config, p: Process, db: Shared, c: Content, i: nat, passed: nat)
    requires i < |plan.tasks| && Passable(plan, i, c) && passed <= |plan.tasks[i].preconditions.value|
    requires var task := plan.tasks[i]; var handlers := plan.settings.preconditionHandlers;
      Preconditions.IsMet(handlers, task.key, task.preconditions.value, c) ==
      Preconditions.IsMet(handlers, task.key, task.preconditions.value[passed..], c)
    requires Reaches(plan, a, Spot(p, db, c, Checking(i, passed)))
    ensures Reaches(plan, a, Spot(p, db, c, if MetOn(plan, i, c) then Choosing(i, 0) else Checking(i + 1, 0)))
    decreases |plan.tasks[i].preconditions.value| - passed
  {
    var task, handlers, here := plan.tasks[i], plan.settings.preconditionHandlers, Spot(p, db, c, Checking(i, passed));
    var ps := task.preconditions.value;
    if passed == |ps| {
      assert ps[passed..] == [];
      ReachesStep(plan, a, here, Accept, Spot(p, db, c, Choosing(i, 0)));
    } else {
      Preconditions.IsMetAfter(handlers, task.key, ps, c, passed);
      if Preconditions.Judge(handlers, task.key, ps[passed], c) == Met {
        ReachesStep(plan, a, here, Judge, Spot(p, db, c, Checking(i, passed + 1)));
        GetsChecked(plan, a, p, db, c, i, passed + 1);
      } else {
        ReachesStep(plan, a, here, Judge, Spot(p, db, c, Checking(i + 1, 0)));
      }
    }
  }

  lemma {:induction false} GetsJudged(plan: Plan, a: Config, p: Process, db: Shared, c: Content, i: nat)
    requires i < |plan.tasks| && Passable(plan, i, c) && Reaches(plan, a, Spot(p, db, c, Checking(i, 0)))
    ensures Reaches(plan, a, Spot(p, db, c, if MetOn(plan, i, c) then Choosing(i, 0) else Checking(i + 1, 0)))
  {
    assert plan.tasks[i].preconditions.value[0..] == plan.tasks[i].preconditions.value;
    GetsChecked(plan, a, p, db, c, i, 0);
  }

  /** A handler that accepts the step executes it, in part. */
  lemma {:induction false} GetsExecuted(plan: Plan, a: Config, p: Process, db: Shared, b: Content, i: nat, h: nat,
                                        units: seq<Unit>)
    requires h < |plan.settings.stepHandlers| && Part(plan, i, units) && Accepts(plan, i, h)
    requires Reaches(plan, a, Spot(p, db, b, Choosing(i, h)))
    ensures Reaches(plan, a, Spot(p, db, b.(log := b.log + StepLog(plan, i, units)), Running(i, h, |units|)))
  {
    var from := db.(content := b);
    ReachesStep(plan, a, Spot(p, db, b, Choosing(i, h)), Take, Spot(p, db, b, Running(i, h, 0)));
    assert Spot(p, db, b, Running(i, h, 0)) == At(Config(p, from), Running(i, h, 0));
    Commits(plan, a, p, from, i, h, units);
    assert At(Config(p, WithUnits(plan, from, i, units)), Running(i, h, |units|)) ==
           Spot(p, db, b.(log := b.log + StepLog(plan, i, units)), Running(i, h, |units|));
  }

  /** Marking again, or not at all. */
  lemma {:induction false} GetsMarked(plan: Plan, a: Config, p: Process, db: Shared, c: Content, i: nat, h: nat)
    requires i < |plan.tasks| && MarkStore.Valid(c.marks) && (plan.tasks[i].mark ==> Has(c.marks, plan.tasks[i].key))
    requires Reaches(plan, a, Spot(p, db, c, Marking(i, h)))
    ensures Reaches(plan, a, Spot(p, db, c, Choosing(i, h + 1)))
  {
    if plan.tasks[i].mark {
      var marks := MarkIsPossible(c.marks, plan.tasks[i].key);
      MarkTwiceIsMarkOnce(c.marks, plan.tasks[i].key, marks);
    }
    ReachesStep(plan, a, Spot(p, db, c, Marking(i, h)), Mark, Spot(p, db, c, Choosing(i, h + 1)));
  }

  /** The handlers have worked on the step, and marked nothing new. */
  lemma {:induction false} GetsWorked(plan: Plan, a: Config, p: Process, db: Shared, i: nat, h: nat, b: Content,
                                      c: Content)
    requires i < |plan.tasks| && h <= |plan.settings.stepHandlers| && Works(plan, i, h, b, c)
    requires MarkStore.Valid(b.marks) && MarkIsOld(plan, b.marks, i)
    requires Reaches(plan, a, Spot(p, db, b, Choosing(i, 0)))
    ensures Reaches(plan, a, Spot(p, db, c, Choosing(i, h)))
  {
    if h > 0 {
      var mid :| Works(plan, i, h - 1, b, mid) && HandlerWorks(plan, i, h - 1, mid, c);
      GetsWorked(plan, a, p, db, i, h - 1, b, mid);
      if Accepts(plan, i, h - 1) {
        GetsPerformed(plan, a, p, db, i, h - 1, mid, c);
        WorksKeepMarks(plan, i, h - 1, b, mid);
        AcceptedIsHandled(plan, i, h - 1);
        GetsMarked(plan, a, p, db, c, i, h - 1);
      } else {
        ReachesStep(plan, a, Spot(p, db, c, Choosing(i, h - 1)), Pass, Spot(p, db, c, Choosing(i, h)));
      }
    }
  }

  lemma {:induction false} GetsPerformed(plan: Plan, a: Config, p: Process, db: Shared, i: nat, h: nat, b: Content,
                                         c: Content)
    requires i < |plan.tasks| && h < |plan.settings.stepHandlers| && Accepts(plan, i, h) && Adds(plan, i, b, c)
    requires Reaches(plan, a, Spot(p, db, b, Choosing(i, h)))
    ensures Reaches(plan, a, Spot(p, db, c, Marking(i, h)))
  {
    var units :| Whole(plan, i, units) && c == b.(log := b.log + StepLog(plan, i, units));
    GetsExecuted(plan, a, p, db, b, i, h, units);
    ReachesStep(plan, a, Spot(p, db, c, Running(i, h, |units|)), Complete, Spot(p, db, c, Marking(i, h)));
  }

  /** Every content that a step may find in its turn is found by some run. */
  lemma {:induction false} GetsItsTurn(plan: Plan, a: Config, p: Process, db: Shared, content: Content, i: nat,
                                       c: Content)
    requires Turns(plan, content, i, c) && MarkStore.Valid(content.marks)
    requires Reaches(plan, a, Spot(p, db, content, Checking(0, 0)))
    ensures Reaches(plan, a, Spot(p, db, c, Checking(i, 0)))
  {
    if i > 0 {
      var b :| Turns(plan, content, i - 1, b) && Passes(plan, content.marks, i - 1, b, c);
      GetsItsTurn(plan, a, p, db, content, i - 1, b);
      TurnsKeepMarks(plan, content, i - 1, b);
      GetsJudged(plan, a, p, db, b, i - 1);
      if MetOn(plan, i - 1, b) {
        var n := |plan.settings.stepHandlers|;
        GetsWorked(plan, a, p, db, i - 1, n, b, c);
        ReachesStep(plan, a, Spot(p, db, c, Choosing(i - 1, n)), NextStep, Spot(p, db, c, Checking(i, 0)));
      }
    }
  }

  /** The step's first handler is reached. */
  lemma {:induction false} GetsAccepted(plan: Plan, a: Config, p: Process, db: Shared, content: Content, i: nat,
                                        c: Content)
    returns (h: nat)
    requires Turns(plan, content, i, c) && MarkStore.Valid(content.marks)
    requires i < |plan.tasks| && MetOn(plan, i, c) && Handled(plan, i)
    requires Reaches(plan, a, Spot(p, db, content, Checking(0, 0)))
    ensures h < |plan.settings.stepHandlers| && Accepts(plan, i, h)
    ensures Reaches(plan, a, Spot(p, db, c, Choosing(i, h)))
  {
    h := Acceptor(plan, i, 0);
    GetsItsTurn(plan, a, p, db, content, i, c);
    GetsJudged(plan, a, p, db, c, i);
    assert Spot(p, db, c, Choosing(i, 0)) == At(Config(p, db.(content := c)), Choosing(i, 0));
    FindsHandler(plan, a, p, db.(content := c), i, h);
    assert Spot(p, db, c, Choosing(i, h)) == At(Config(p, db.(content := c)), Choosing(i, h));
  }

  // ------------------------------------------------------------ no way in

  /** With the lock table but no lock row, nobody ever gets in. */
  lemma {:induction false} NeverIn(plan: Plan, db: Shared, path: seq<Config>, c: Config)
    requires !CanEnterLater(db) && Connects(plan, Config(START, db), path, c)
    ensures c.db.locks == db.locks && c.db.content == db.content
    ensures c.process.pc.Waiting? || c.process.pc.Failed? || c.process.pc.Crashed?
    decreases |path|
  {
    if |path| > 1 {
      var before, b := PathBefore(plan, path);
      NeverIn(plan, db, before, b);
    }
  }

  // ------------------------------------------------------------- new marks

  /** Step i has been let through on a content it may find, and handlers have worked on it since. */
  ghost predicate InTurn(plan: Plan, content: Content, i: nat, h: nat, b: Content, c: Content) {
    && i < |plan.tasks| && h <= |plan.settings.stepHandlers|
    && Turns(plan, content, i, b) && MetOn(plan, i, b) && Works(plan, i, h, b, c)
  }

  /** Handler h executes it, and has committed these transactions. */
  ghost predicate AtWork(plan: Plan, content: Content, i: nat, h: nat, b: Content, mid: Content, units: seq<Unit>,
                         c: Content)
  {
    && InTurn(plan, content, i, h, b, mid) && h < |plan.settings.stepHandlers| && Accepts(plan, i, h)
    && Part(plan, i, units) && c == mid.(log := mid.log + StepLog(plan, i, units))
  }

  /** Nothing new has been marked, and the content is what it may be at this place. */
  ghost predicate OldMarksOnly(plan: Plan, content: Content, c: Config) {
    && c.db.content.marks == content.marks
    && match c.process.pc
       case Waiting => c.db.content == content
       case Checking(i, passed) => Turns(plan, content, i, c.db.content) && CheckedOn(plan, i, passed, c.db.content)
       case Choosing(i, h) => exists b :: InTurn(plan, content, i, h, b, c.db.content)
       case Running(i, h, j) =>
         exists b, mid, units :: AtWork(plan, content, i, h, b, mid, units, c.db.content) && |units| == j
       case Marking(i, h) =>
         exists b, mid, units ::
           AtWork(plan, content, i, h, b, mid, units, c.db.content) && MayEnd(plan, i, |units|)
       case _ => true
  }

  lemma {:induction false} JudgeOld(plan: Plan, content: Content, b: Config, c: Config)
    requires OldMarksOnly(plan, content, b) && JudgeStep(plan, b, c)
    ensures OldMarksOnly(plan, content, c)
  {
    JudgeAndCheck(plan, b, c);
    var i := b.process.pc.step;
    if c.process.pc.step != i {
      TurnsNext(plan, content, i, b.db.content, c.db.content);
    }
  }

  lemma {:induction false} ChooseOld(plan: Plan, content: Content, move: Move, b: Config, c: Config)
    requires OldMarksOnly(plan, content, b) && (move.Pass? || move.Take? || move.NextStep?) && Moves(plan, move, b, c)
    requires forall i :: !NewMark(plan, content, i)
    ensures OldMarksOnly(plan, content, c)
  {
    var Choosing(i, h) := b.process.pc;
    var turn :| InTurn(plan, content, i, h, turn, b.db.content);
    match move
    case Pass =>
      WorksNext(plan, i, h, turn, b.db.content, c.db.content);
      assert InTurn(plan, content, i, h + 1, turn, c.db.content);
    case Take =>
      assert b.db.content.log + [] == b.db.content.log;
      assert AtWork(plan, content, i, h, turn, b.db.content, [], c.db.content);
    case NextStep =>
      assert MarkIsOld(plan, content.marks, i) by {
        assert !NewMark(plan, content, i);
      }
      TurnsNext(plan, content, i, turn, c.db.content);
    case _ =>
  }

  lemma {:induction false} CommitOld(plan: Plan, content: Content, unit: Unit, b: Config, c: Config)
    requires OldMarksOnly(plan, content, b) && CommitUnitStep(plan, unit, b, c)
    ensures OldMarksOnly(plan, content, c)
  {
    var Running(i, h, j) := b.process.pc;
    var turn, mid, units :| AtWork(plan, content, i, h, turn, mid, units, b.db.content) && |units| == j;
    var more := units + [unit];
    assert more[..j] == units;
    assert StepLog(plan, i, more) == StepLog(plan, i, units) + Entries(plan.tasks[i].key, unit);
    assert mid.log + StepLog(plan, i, units) + Entries(plan.tasks[i].key, unit) == mid.log + StepLog(plan, i, more);
    assert AtWork(plan, content, i, h, turn, mid, more, c.db.content);
  }

  /** A handled step whose turn has come would be newly marked, if it were not recorded. */
  lemma {:induction false} TurnIsOld(plan: Plan, content: Content, i: nat, h: nat, b: Content, c: Content)
    requires InTurn(plan, content, i, h, b, c) && !NewMark(plan, content, i)
    ensures MarkIsOld(plan, content.marks, i)
  {
  }

  lemma {:induction false} MarkOld(plan: Plan, content: Content, b: Config, c: Config)
    requires OldMarksOnly(plan, content, b) && MarkStep(plan, b, c) && MarkStore.Valid(content.marks)
    requires forall i :: !NewMark(plan, content, i)
    ensures OldMarksOnly(plan, content, c)
  {
    var Marking(i, h) := b.process.pc;
    var turn, mid, units :|
      AtWork(plan, content, i, h, turn, mid, units, b.db.content) && MayEnd(plan, i, |units|);
    assert !NewMark(plan, content, i);
    TurnIsOld(plan, content, i, h, turn, mid);
    AcceptedIsHandled(plan, i, h);
    if plan.tasks[i].mark {
      MarkTwiceIsMarkOnce(content.marks, plan.tasks[i].key, c.db.content.marks);
    }
    assert c.db.content == b.db.content;
    WorksNext(plan, i, h, turn, mid, c.db.content);
    assert InTurn(plan, content, i, h + 1, turn, c.db.content);
  }

  lemma {:induction false} MoveOld(plan: Plan, content: Content, move: Move, b: Config, c: Config)
    requires OldMarksOnly(plan, content, b) && Moves(plan, move, b, c) && MarkStore.Valid(content.marks)
    requires forall i :: !NewMark(plan, content, i)
    ensures OldMarksOnly(plan, content, c)
  {
    match move
    case Judge => JudgeOld(plan, content, b, c);
    case Accept =>
      AcceptedIsMet(plan, b, c);
      assert InTurn(plan, content, c.process.pc.step, 0, b.db.content, c.db.content);
    case Pass => ChooseOld(plan, content, move, b, c);
    case Take => ChooseOld(plan, content, move, b, c);
    case NextStep => ChooseOld(plan, content, move, b, c);
    case CommitUnit(unit) => CommitOld(plan, content, unit, b, c);
    case Complete =>
      var Running(i, h, j) := b.process.pc;
      var turn, mid, units :| AtWork(plan, content, i, h, turn, mid, units, b.db.content) && |units| == j;
      assert AtWork(plan, content, i, h, turn, mid, units, c.db.content);
    case Mark => MarkOld(plan, content, b, c);
    case _ =>
  }

  lemma {:induction false} RunOld(plan: Plan, db: Shared, path: seq<Config>, c: Config)
    requires Connects(plan, Config(START, db), path, c) && MarkStore.Valid(db.content.marks)
    requires forall i :: !NewMark(plan, db.content, i)
    ensures OldMarksOnly(plan, db.content, c)
    decreases |path|
  {
    if |path| > 1 {
      var before, b := PathBefore(plan, path);
      RunOld(plan, db, before, b);
      if move :| Moves(plan, move, b, c) {
        MoveOld(plan, db.content, move, b, c);
      }
    }
  }

  /** A handler that has been reached executes the step and marks it. */
  lemma {:induction false} GetsNewlyMarked(plan: Plan, a: Config, p: Process, db: Shared, c: Content, i: nat, h: nat)
    returns (after: Config)
    requires i < |plan.tasks| && plan.tasks[i].mark && MarkStore.Valid(c.marks)
    requires h < |plan.settings.stepHandlers| && Accepts(plan, i, h) && Reaches(plan, a, Spot(p, db, c, Choosing(i, h)))
    ensures Reaches(plan, a, after) && Has(after.db.content.marks, plan.tasks[i].key)
  {
    var units := SomeExecution(plan, i);
    var done := c.(log := c.log + StepLog(plan, i, units));
    GetsPerformed(plan, a, p, db, i, h, c, done);
    var marks := MarkIsPossible(c.marks, plan.tasks[i].key);
    MarkAddsKey(c.marks, plan.tasks[i].key, marks);
    after := Spot(p, db, done.(marks := marks), Choosing(i, h + 1));
    ReachesStep(plan, a, Spot(p, db, done, Marking(i, h)), Mark, after);
  }

  /** A new mark does get made. */
  lemma {:induction false} MakesNewMark(plan: Plan, db: Shared, i: nat) returns (after: Config)
    requires CanEnterLater(db) && MarkStore.Valid(db.content.marks) && NewMark(plan, db.content, i)
    ensures Reaches(plan, Config(START, db), after)
    ensures Has(after.db.content.marks, plan.tasks[i].key) && after.db.content.marks != db.content.marks
  {
    var a := Config(START, db);
    var p, db' := EntersLater(plan, db);
    var c :| Turns(plan, db.content, i, c) && MetOn(plan, i, c);
    TurnsKeepMarks(plan, db.content, i, c);
    var h := GetsAccepted(plan, a, p, db', db.content, i, c);
    after := GetsNewlyMarked(plan, a, p, db', c, i, h);
  }

  ghost predicate MarksStay(plan: Plan, db: Shared) {
    forall after :: Reaches(plan, Config(START, db), after) ==> after.db.content.marks == db.content.marks
  }

  /** No run of an upgrade changes the mark tables if and only if there is no way in, or no step
      may be newly marked. */
  lemma {:induction false} MarksStayIff(plan: Plan, db: Shared)
    requires MarkStore.Valid(db.content.marks)
    ensures MarksStay(plan, db) <==> !CanEnterLater(db) || forall i :: !NewMark(plan, db.content, i)
  {
    if i :| CanEnterLater(db) && NewMark(plan, db.content, i) {
      var after := MakesNewMark(plan, db, i);
    } else {
      forall after | Reaches(plan, Config(START, db), after)
        ensures after.db.content.marks == db.content.marks
      {
        var path :| Connects(plan, Config(START, db), path, after);
        if CanEnterLater(db) {
          RunOld(plan, db, path, after);
        } else {
          NeverIn(plan, db, path, after);
        }
      }
    }
  }

  // ------------------------------------------------ new work and new changes

  /** Nothing has changed, and any step being executed is one that is met on this content. */
  ghost predicate Unchanged(plan: Plan, content: Content, c: Config) {
    && c.db.content == content
    && match c.process.pc
       case Checking(i, passed) => PassedSoFar(plan, content, i) && CheckedOn(plan, i, passed, content)
       case Choosing(i, h) => i < |plan.tasks| && PassedSoFar(plan, content, i) && MetOn(plan, i, content)
       case Running(i, _, _) => NewWork(plan, content, i)
       case Marking(i, _) => NewWork(plan, content, i)
       case _ => true
  }

  ghost predicate PassedSoFar(plan: Plan, content: Content, i: nat) {
    i <= |plan.tasks| && forall j :: 0 <= j < i ==> Passable(plan, j, content)
  }

  lemma {:induction false} MoveUnchanged(plan: Plan, content: Content, move: Move, b: Config, c: Config)
    requires Unchanged(plan, content, b) && Moves(plan, move, b, c) && MarkStore.Valid(content.marks)
    requires forall i :: !NewChange(plan, content, i)
    ensures Unchanged(plan, content, c)
  {
    match move
    case Judge => JudgeAndCheck(plan, b, c);
    case Accept => AcceptedIsMet(plan, b, c);
    case Take => AcceptedIsHandled(plan, b.process.pc.step, b.process.pc.handler);
    case CommitUnit(unit) =>
      assert !NewChange(plan, content, b.process.pc.step);
      assert MayCommit(plan, b.process.pc.step, b.process.pc.units, unit);
      assert content.log + Entries(plan.tasks[b.process.pc.step].key, unit) == content.log;
    case Mark =>
      var i := b.process.pc.step;
      assert !NewChange(plan, content, i);
      if plan.tasks[i].mark {
        MarkTwiceIsMarkOnce(content.marks, plan.tasks[i].key, c.db.content.marks);
      }
    case _ =>
  }

  lemma {:induction false} RunUnchanged(plan: Plan, db: Shared, path: seq<Config>, c: Config)
    requires Connects(plan, Config(START, db), path, c) && MarkStore.Valid(db.content.marks)
    requires forall i :: !NewChange(plan, db.content, i)
    ensures Unchanged(plan, db.content, c)
    decreases |path|
  {
    if |path| > 1 {
      var before, b := PathBefore(plan, path);
      RunUnchanged(plan, db, before, b);
      if move :| Moves(plan, move, b, c) {
        MoveUnchanged(plan, db.content, move, b, c);
      }
    }
  }

  lemma {:induction false} EmptyUnits(key: StepKey, units: seq<Unit>)
    requires forall k :: 0 <= k < |units| ==> units[k] == []
    ensures EntriesOfUnits(key, units) == []
  {
    if units != [] {
      EmptyUnits(key, units[..|units| - 1]);
    }
  }

  /** A step that nobody handles, or that has no effect, leaves the content as it is. */
  lemma {:induction false} WorksInVain(plan: Plan, i: nat, h: nat, content: Content)
    requires i < |plan.tasks| && h <= |plan.settings.stepHandlers| && (Handled(plan, i) ==> !Effective(plan, i))
    ensures Works(plan, i, h, content, content)
  {
    if h > 0 {
      WorksInVain(plan, i, h - 1, content);
      if Accepts(plan, i, h - 1) {
        AcceptedIsHandled(plan, i, h - 1);
        var units := SomeExecution(plan, i);
        assert forall k :: 0 <= k < |units| ==> MayCommit(plan, i, k, units[k]);
        EmptyUnits(plan.tasks[i].key, units);
        assert content.log + [] == content.log;
        assert Adds(plan, i, content, content);
      }
      WorksNext(plan, i, h - 1, content, content, content);
    }
  }

  /** As long as nothing changes, each step finds the content that was there before. */
  lemma {:induction false} TurnsInVain(plan: Plan, content: Content, i: nat)
    requires PassedSoFar(plan, content, i) && forall j :: 0 <= j < i ==> !NewChange(plan, content, j)
    ensures Turns(plan, content, i, content)
  {
    if i > 0 {
      TurnsInVain(plan, content, i - 1);
      assert !NewChange(plan, content, i - 1);
      if MetOn(plan, i - 1, content) {
        WorksInVain(plan, i - 1, |plan.settings.stepHandlers|, content);
      }
      TurnsNext(plan, content, i - 1, content, content);
    }
  }

  /** The first step that is executed, or changes something. */
  lemma {:induction false} FirstOne(plan: Plan, content: Content, change: bool, i: nat) returns (first: nat)
    requires if change then NewChange(plan, content, i) else NewWork(plan, content, i)
    ensures if change then NewChange(plan, content, first) else NewWork(plan, content, first)
    ensures forall j :: 0 <= j < first ==> !(if change then NewChange(plan, content, j) else NewWork(plan, content, j))
  {
    if j :| 0 <= j < i && if change then NewChange(plan, content, j) else NewWork(plan, content, j) {
      first := FirstOne(plan, content, change, j);
    } else {
      first := i;
    }
  }

  /** The step gets executed, when nothing has changed yet. */
  lemma {:induction false} GetsNewWork(plan: Plan, a: Config, p: Process, db: Shared, content: Content, i: nat)
    returns (h: nat)
    requires NewWork(plan, content, i) && MarkStore.Valid(content.marks)
    requires forall j :: 0 <= j < i ==> !NewChange(plan, content, j)
    requires Reaches(plan, a, Spot(p, db, content, Checking(0, 0)))
    ensures h < |plan.settings.stepHandlers| && Accepts(plan, i, h)
    ensures Reaches(plan, a, Spot(p, db, content, Choosing(i, h)))
  {
    TurnsInVain(plan, content, i);
    h := GetsAccepted(plan, a, p, db, content, i, content);
  }

  /** Transactions of a step with an effect. */
  lemma {:induction false} EffectivePart(plan: Plan, i: nat) returns (units: seq<Unit>)
    requires i < |plan.tasks| && Effective(plan, i)
    ensures Part(plan, i, units) && StepLog(plan, i, units) != []
  {
    var done: nat, unit :| MayCommit(plan, i, done, unit) && unit != [];
    if plan.tasks[i].work.DbCommand? {
      units := UnitsAt(plan, i)[..done + 1];
      assert units[|units| - 1] == unit;
    } else {
      units := [unit];
    }
    assert |Entries(plan.tasks[i].key, unit)| == |unit|;
  }

  ghost predicate NothingRuns(plan: Plan, db: Shared) {
    forall after :: Reaches(plan, Config(START, db), after) ==> !after.process.pc.Running?
  }

  ghost predicate ContentStays(plan: Plan, db: Shared) {
    forall after :: Reaches(plan, Config(START, db), after) ==> after.db.content == db.content
  }

  /** A change does get made. */
  lemma {:induction false} MakesNewChange(plan: Plan, db: Shared, i: nat) returns (after: Config)
    requires CanEnterLater(db) && MarkStore.Valid(db.content.marks) && NewChange(plan, db.content, i)
    requires forall j :: 0 <= j < i ==> !NewChange(plan, db.content, j)
    ensures Reaches(plan, Config(START, db), after) && after.db.content != db.content
  {
    var a := Config(START, db);
    var p, db' := EntersLater(plan, db);
    var h := GetsNewWork(plan, a, p, db', db.content, i);
    if Effective(plan, i) {
      var units := EffectivePart(plan, i);
      GetsExecuted(plan, a, p, db', db.content, i, h, units);
      after := Spot(p, db', db.content.(log := db.content.log + StepLog(plan, i, units)), Running(i, h, |units|));
    } else {
      after := GetsNewlyMarked(plan, a, p, db', db.content, i, h);
    }
  }

  /** No run of an upgrade executes anything if and only if there is no way in, or no handled
      step is met on the content as it is, before a step that raises or lacks preconditions. */
  lemma {:induction false} NothingRunsIff(plan: Plan, db: Shared)
    requires MarkStore.Valid(db.content.marks)
    ensures NothingRuns(plan, db) <==> !CanEnterLater(db) || forall i :: !NewWork(plan, db.content, i)
  {
    if i :| CanEnterLater(db) && NewWork(plan, db.content, i) {
      var first := FirstOne(plan, db.content, false, i);
      var a := Config(START, db);
      var p, db' := EntersLater(plan, db);
      var h := GetsNewWork(plan, a, p, db', db.content, first);
      ReachesStep(plan, a, Spot(p, db', db.content, Choosing(first, h)), Take,
                  Spot(p, db', db.content, Running(first, h, 0)));
    } else {
      forall after | Reaches(plan, Config(START, db), after)
        ensures !after.process.pc.Running?
      {
        var path :| Connects(plan, Config(START, db), path, after);
        if CanEnterLater(db) {
          RunUnchanged(plan, db, path, after);
        } else {
          NeverIn(plan, db, path, after);
        }
      }
    }
  }

  /** No run of an upgrade changes the content if and only if there is no way in, or no such step
      has an effect or a new mark. */
  lemma {:induction false} ContentStaysIff(plan: Plan, db: Shared)
    requires MarkStore.Valid(db.content.marks)
    ensures ContentStays(plan, db) <==> !CanEnterLater(db) || forall i :: !NewChange(plan, db.content, i)
  {
    if i :| CanEnterLater(db) && NewChange(plan, db.content, i) {
      var first := FirstOne(plan, db.content, true, i);
      var after := MakesNewChange(plan, db, first);
    } else {
      forall after | Reaches(plan, Config(START, db), after)
        ensures after.db.content == db.content
      {
        var path :| Connects(plan, Config(START, db), path, after);
        if CanEnterLater(db) {
          RunUnchanged(plan, db, path, after);
        } else {
          NeverIn(plan, db, path, after);
        }
      }
    }
  }

  // ----------------------------------------------------- after a first upgrade

  /** An upgrade that finished got in, so another one can get in, too. */
  lemma {:induction false} FinishedCanEnter(plan: Plan, db: Shared, path: seq<Config>, c: Config)
    requires Connects(plan, Config(START, db), path, c) && c.process.pc.Finished?
    ensures CanEnterLater(c.db)
  {
    if !CanEnterLater(db) {
      NeverIn(plan, db, path, c);
    }
    LockStays(plan, Config(START, db), path, c);
  }

  /** After an upgrade that finished, a second one marks nothing new, executes nothing, or changes
      nothing, however it goes, exactly if no step is newly marked, executed or effective on the
      content that the first one left. */
  lemma {:induction false} SecondUpgradeIff(plan: Plan, first: Run)
    requires Reaches(plan, Config(START, first.before), first.after) && first.after.process.pc.Finished?
    requires MarkStore.Valid(first.before.content.marks)
    ensures var db := first.after.db;
      && (MarksStay(plan, db) <==> forall i :: !NewMark(plan, db.content, i))
      && (NothingRuns(plan, db) <==> forall i :: !NewWork(plan, db.content, i))
      && (ContentStays(plan, db) <==> forall i :: !NewChange(plan, db.content, i))
  {
    var path :| Connects(plan, Config(START, first.before), path, first.after);
    FinishedCanEnter(plan, first.before, path, first.after);
    PathKeepsValid(plan, Config(START, first.before), path, first.after);
    MarksStayIff(plan, first.after.db);
    NothingRunsIff(plan, first.after.db);
    ContentStaysIff(plan, first.after.db);
  }

  lemma {:induction false} PathKeepsValid(plan: Plan, a: Config, path: seq<Config>, c: Config)
    requires Connects(plan, a, path, c) && MarkStore.Valid(a.db.content.marks)
    ensures MarkStore.Valid(c.db.content.marks)
    decreases |path|
  {
    if |path| > 1 {
      var before, b := PathBefore(plan, path);
      PathKeepsValid(plan, a, before, b);
      if c.db.content.marks != b.db.content.marks {
        assert MarkStep(plan, b, c);
        MarkAddsKey(b.db.content.marks, plan.tasks[b.process.pc.step].key, c.db.content.marks);
      }
    }
  }

  /** If every step that a run may mark is recorded or stays unmet, nothing is newly marked. */
  lemma {:induction false} SettledMarksNothingNew(plan: Plan, content: Content, i: nat)
    requires MarksSettle(plan, content)
    ensures !NewMark(plan, content, i)
  {
    if NewMark(plan, content, i) {
      var c :| Turns(plan, content, i, c) && MetOn(plan, i, c);
      TurnsGoOn(plan, content, i, c);
      assert false;
    }
  }

  lemma {:induction false} TurnsGoOn(plan: Plan, content: Content, i: nat, c: Content)
    requires Turns(plan, content, i, c)
    ensures GoesOn(plan, content, c)
  {
    TurnsKeepMarks(plan, content, i, c);
    if i > 0 {
      var b :| Turns(plan, content, i - 1, b) && Passes(plan, content.marks, i - 1, b, c);
      TurnsGoOn(plan, content, i - 1, b);
      if MetOn(plan, i - 1, b) {
        WorksGoOn(plan, content, i - 1, |plan.settings.stepHandlers|, b, c);
      }
    }
  }

  lemma {:induction false} WorksGoOn(plan: Plan, content: Content, i: nat, h: nat, b: Content, c: Content)
    requires i < |plan.tasks| && h <= |plan.settings.stepHandlers| && Works(plan, i, h, b, c)
    requires GoesOn(plan, content, b)
    ensures GoesOn(plan, content, c)
  {
    if h > 0 {
      var mid :| Works(plan, i, h - 1, b, mid) && HandlerWorks(plan, i, h - 1, mid, c);
      WorksGoOn(plan, content, i, h - 1, b, mid);
      if Accepts(plan, i, h - 1) {
        var units :| Whole(plan, i, units) && c == mid.(log := mid.log + StepLog(plan, i, units));
        UnitsAreIssued(plan, i, units);
        assert forall k {:trigger c.log[k]} :: |mid.log| <= k < |c.log| ==> c.log[k] in StepLog(plan, i, units);
        assert forall k {:trigger c.log[k]} :: 0 <= k < |mid.log| ==> c.log[k] == mid.log[k];
      }
    }
  }

  lemma {:induction false} UnitsAreIssued(plan: Plan, i: nat, units: seq<Unit>)
    requires Part(plan, i, units)
    ensures forall e :: e in StepLog(plan, i, units) ==> IssuedBySome(plan, e)
  {
    if units != [] {
      var n := |units| - 1;
      UnitsAreIssued(plan, i, units[..n]);
      forall e | e in Entries(plan.tasks[i].key, units[n])
        ensures IssuedBySome(plan, e)
      {
        assert MayCommit(plan, i, n, units[n]);
        assert Issues(plan, i, e);
      }
    }
  }

  // ----------------------------------------------------- database steps only

  predicate DatabaseStepsOnly(plan: Plan) {
    forall i :: 0 <= i < |plan.tasks| ==> plan.tasks[i].work.DbCommand?
  }

  /** How many of the first h handlers accept the step. */
  function Acceptors(plan: Plan, i: nat, h: nat): nat
    requires i < |plan.tasks| && h <= |plan.settings.stepHandlers|
  {
    if h == 0 then 0 else Acceptors(plan, i, h - 1) + if Accepts(plan, i, h - 1) then 1 else 0
  }

  /** The content after so many executions of a database step. */
  function Executed(plan: Plan, i: nat, b: Content, times: nat): Content
    requires i < |plan.tasks| && plan.tasks[i].work.DbCommand?
  {
    b.(log := b.log + Times(StepLog(plan, i, UnitsAt(plan, i)), times))
  }

  /** The content that step i finds: the earlier ones that are met in their turn were executed. */
  function Turn(plan: Plan, content: Content, i: nat): Content
    requires DatabaseStepsOnly(plan) && i <= |plan.tasks|
  {
    if i == 0 then content
    else
      var last, b := i - 1, Turn(plan, content, i - 1);
      if MetOn(plan, last, b) then Executed(plan, last, b, Acceptors(plan, last, |plan.settings.stepHandlers|)) else b
  }

  lemma {:induction false} WorksOfDatabaseStep(plan: Plan, i: nat, h: nat, b: Content, c: Content)
    requires i < |plan.tasks| && h <= |plan.settings.stepHandlers| && plan.tasks[i].work.DbCommand?
    ensures Works(plan, i, h, b, c) <==> c == Executed(plan, i, b, Acceptors(plan, i, h))
  {
    var units := UnitsAt(plan, i);
    var entries := StepLog(plan, i, units);
    if h == 0 {
      assert b.log + [] == b.log;
    } else {
      var last, n := h - 1, Acceptors(plan, i, h - 1);
      var mid := Executed(plan, i, b, n);
      forall m
        ensures Works(plan, i, last, b, m) <==> m == mid
      {
        WorksOfDatabaseStep(plan, i, last, b, m);
      }
      forall all
        ensures Whole(plan, i, all) <==> all == units
      {
        DatabaseStepIsFixed(plan, i, all);
      }
      TimesNext(b.log, entries, n);
      assert Adds(plan, i, mid, c) <==> c == mid.(log := mid.log + entries);
      assert Works(plan, i, h, b, c) <==> HandlerWorks(plan, i, last, mid, c);
    }
  }

  /** The step can be reached: no earlier one fails or newly marks, each at its own turn. */
  ghost predicate ReachedInTurn(plan: Plan, content: Content, i: nat)
    requires DatabaseStepsOnly(plan) && i <= |plan.tasks|
  {
    forall j :: 0 <= j < i ==>
      && Passable(plan, j, Turn(plan, content, j))
      && (MetOn(plan, j, Turn(plan, content, j)) ==> MarkIsOld(plan, content.marks, j))
  }

  lemma {:induction false} TurnsOfDatabaseSteps(plan: Plan, content: Content, i: nat, c: Content)
    requires DatabaseStepsOnly(plan) && i <= |plan.tasks|
    ensures Turns(plan, content, i, c) <==> c == Turn(plan, content, i) && ReachedInTurn(plan, content, i)
  {
    if i > 0 {
      var last, turn := i - 1, Turn(plan, content, i - 1);
      forall b
        ensures Turns(plan, content, last, b) <==> b == turn && ReachedInTurn(plan, content, last)
      {
        TurnsOfDatabaseSteps(plan, content, last, b);
      }
      WorksOfDatabaseStep(plan, last, |plan.settings.stepHandlers|, turn, c);
      assert Turns(plan, content, i, c) <==>
             Turns(plan, content, last, turn) && Passes(plan, content.marks, last, turn, c);
      assert ReachedInTurn(plan, content, i) <==>
             && ReachedInTurn(plan, content, last) && Passable(plan, last, turn)
             && (MetOn(plan, last, turn) ==> MarkIsOld(plan, content.marks, last));
    }
  }

  /** The step is to be marked, handled and not recorded; no earlier step raises or lacks
      preconditions at its turn; and this one is met at its turn. */
  ghost predicate NewMarkInTurn(plan: Plan, content: Content, i: nat)
    requires DatabaseStepsOnly(plan)
  {
    && i < |plan.tasks| && plan.tasks[i].mark && Handled(plan, i) && !Has(content.marks, plan.tasks[i].key)
    && (forall j :: 0 <= j < i ==> Passable(plan, j, Turn(plan, content, j)))
    && MetOn(plan, i, Turn(plan, content, i))
  }

  lemma {:induction false} FirstNewMark(plan: Plan, content: Content, i: nat) returns (first: nat)
    requires DatabaseStepsOnly(plan) && NewMarkInTurn(plan, content, i)
    ensures NewMark(plan, content, first)
  {
    if j :| 0 <= j < i && NewMarkInTurn(plan, content, j) {
      first := FirstNewMark(plan, content, j);
    } else {
      first := i;
      forall j | 0 <= j < i && MetOn(plan, j, Turn(plan, content, j))
        ensures MarkIsOld(plan, content.marks, j)
      {
        assert !NewMarkInTurn(plan, content, j);
      }
      TurnsOfDatabaseSteps(plan, content, i, Turn(plan, content, i));
    }
  }

  /** For scripts of database steps the condition can be computed step by step. */
  lemma {:induction false} DatabaseStepsMarkNothingIff(plan: Plan, db: Shared)
    requires DatabaseStepsOnly(plan) && MarkStore.Valid(db.content.marks)
    ensures MarksStay(plan, db) <==> !CanEnterLater(db) || forall i :: !NewMarkInTurn(plan, db.content, i)
  {
    MarksStayIff(plan, db);
    if i :| NewMarkInTurn(plan, db.content, i) {
      var first := FirstNewMark(plan, db.content, i);
    }
    if i :| NewMark(plan, db.content, i) {
      var c :| Turns(plan, db.content, i, c) && MetOn(plan, i, c);
      TurnsOfDatabaseSteps(plan, db.content, i, c);
      assert NewMarkInTurn(plan, db.content, i);
    }
  }
}
