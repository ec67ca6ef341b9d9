/**
 A second upgrade after one that finished. This holds for every script: steps may share
 keys, be unguarded, unmarked, or be accepted by any number of handlers.
 */
module Idempotence {
  import opened Wrappers
  import opened MarkStore
  import opened Migration
  import opened UpgradeMachine
  import opened History
  import opened RepeatedRuns

  predicate Handled(plan: Plan, i: nat)
    requires i < |plan.tasks|
  {
    Acceptor(plan, i, 0) < |plan.settings.stepHandlers|
  }

  /** Every handler of the step's preconditions says yes on every content, as that of
      "ForceExecution" does, and as it is for names that nobody claims. */
  ghost predicate AlwaysMet(plan: Plan, i: nat)
    requires i < |plan.tasks|
  {
    var task := plan.tasks[i];
    task.preconditions.Some? && forall p, content :: p in task.preconditions.value ==>
      Preconditions.Judge(plan.settings.preconditionHandlers, task.key, p, content) == Met
  }

  /** The step is marked by a run that gets past it, unless it is already. */
  ghost predicate Settling(plan: Plan, i: nat)
    requires i < |plan.tasks|
  {
    plan.tasks[i].mark && (Guarded(plan.tasks[i]) || AlwaysMet(plan, i))
  }

  /** The settling steps before step k that some handler accepts are marked. */
  ghost predicate Settled(plan: Plan, marks: Tables, k: nat) {
    k <= |plan.tasks| && forall i: nat {:trigger Handled(plan, i)} ::
      i < k && Settling(plan, i) && Handled(plan, i) ==> Has(marks, plan.tasks[i].key)
  }

  /** An accepting handler before handler h has had the settling step, so it is marked. */
  ghost predicate MarkedBefore(plan: Plan, marks: Tables, i: nat, h: nat)
    requires i < |plan.tasks|
  {
    h <= |plan.settings.stepHandlers| &&
    (Settling(plan, i) && Acceptor(plan, i, 0) < h ==> Has(marks, plan.tasks[i].key))
  }

  /** What a run has settled when it is at this place. */
  ghost predicate SettledBy(plan: Plan, pc: Pc, marks: Tables) {
    match pc
    case Checking(i, _) => Settled(plan, marks, i)
    case Choosing(i, h) => i < |plan.tasks| && Settled(plan, marks, i) && MarkedBefore(plan, marks, i, h)
    case Running(i, h, _) =>
      i < |plan.tasks| && h < |plan.settings.stepHandlers| && Settled(plan, marks, i) && MarkedBefore(plan, marks, i, h)
    case Marking(i, h) =>
      i < |plan.tasks| && h < |plan.settings.stepHandlers| && Settled(plan, marks, i) && MarkedBefore(plan, marks, i, h)
    case Leaving(failed) => !failed ==> Settled(plan, marks, |plan.tasks|)
    case Finished => Settled(plan, marks, |plan.tasks|)
    case _ => true
  }

  lemma {:induction false} SettledNext(plan: Plan, marks: Tables, i: nat)
    requires i < |plan.tasks| && Settled(plan, marks, i)
    requires Settling(plan, i) && Handled(plan, i) ==> Has(marks, plan.tasks[i].key)
    ensures Settled(plan, marks, i + 1)
  {
  }

  /** The guard says yes exactly when the key is not recorded. */
  lemma {:induction false} GuardVerdict(plan: Plan, task: Task, content: Content)
    requires GuardHandled(plan) && Guarded(task)
    ensures Preconditions.Judge(plan.settings.preconditionHandlers, task.key, task.preconditions.value[0], content) ==
            if Has(content.marks, task.key) then NotMet else Met
  {
    IsExecutedMeaning(content.marks, task.key);
  }

  lemma {:induction false} MarkMoveSettles(plan: Plan, b: Config, c: Config)
    requires GuardHandled(plan) && MarkStore.Valid(b.db.content.marks)
    requires SettledBy(plan, b.process.pc, b.db.content.marks) && MarkStep(plan, b, c)
    ensures MarkStore.Valid(c.db.content.marks) && SettledBy(plan, c.process.pc, c.db.content.marks)
  {
    var i := b.process.pc.step;
    var marks, marks' := b.db.content.marks, c.db.content.marks;
    if plan.tasks[i].mark {
      MarkAddsKey(marks, plan.tasks[i].key, marks');
    }
    assert Settled(plan, marks', i);
  }

  /** A step that is passed over is one that is marked, or has no need to be. */
  lemma {:induction false} SkippedIsSettled(plan: Plan, b: Config, c: Config)
    requires GuardHandled(plan) && JudgeStep(plan, b, c) && c.process.pc.step == b.process.pc.step + 1
    requires Settling(plan, b.process.pc.step)
    ensures Has(b.db.content.marks, plan.tasks[b.process.pc.step].key)
  {
    var Checking(i, passed) := b.process.pc;
    assert !AlwaysMet(plan, i) by {
      assert plan.tasks[i].preconditions.value[passed] in plan.tasks[i].preconditions.value;
    }
    GuardVerdict(plan, plan.tasks[i], b.db.content);
  }

  lemma {:induction false} JudgeMoveSettles(plan: Plan, b: Config, c: Config)
    requires GuardHandled(plan) && SettledBy(plan, b.process.pc, b.db.content.marks) && JudgeStep(plan, b, c)
    ensures c.db == b.db && SettledBy(plan, c.process.pc, c.db.content.marks)
  {
    var i := b.process.pc.step;
    if c.process.pc == Checking(i + 1, 0) {
      if Settling(plan, i) {
        SkippedIsSettled(plan, b, c);
      }
      SettledNext(plan, b.db.content.marks, i);
    }
  }

  lemma {:induction false} MoveSettles(plan: Plan, move: Move, b: Config, c: Config)
    requires GuardHandled(plan) && MarkStore.Valid(b.db.content.marks)
    requires SettledBy(plan, b.process.pc, b.db.content.marks) && Moves(plan, move, b, c)
    ensures MarkStore.Valid(c.db.content.marks) && SettledBy(plan, c.process.pc, c.db.content.marks)
  {
    match move
    case Judge => JudgeMoveSettles(plan, b, c);
    case Mark => MarkMoveSettles(plan, b, c);
    case NextStep => SettledNext(plan, b.db.content.marks, b.process.pc.step);
    case _ =>
  }

  /** A run that finishes leaves every guarded, handled step marked. */
  lemma {:induction false} RunSettles(plan: Plan, a: Config, path: seq<Config>, c: Config)
    requires GuardHandled(plan) && Connects(plan, a, path, c)
    requires a.process == START && MarkStore.Valid(a.db.content.marks)
    ensures MarkStore.Valid(c.db.content.marks) && SettledBy(plan, c.process.pc, c.db.content.marks)
    decreases |path|
  {
    if |path| > 1 {
      var before, b := PathBefore(plan, path);
      RunSettles(plan, a, before, b);
      if move :| Moves(plan, move, b, c) {
        MoveSettles(plan, move, b, c);
      }
    }
  }

  // ------------------------------------------------ steps that always run

  /** The run has executed the step: it was there. */
  ghost predicate HasRun(path: seq<Config>, i: nat) {
    exists k :: 0 <= k < |path| && path[k].process.pc.Running? && path[k].process.pc.step == i
  }

  /** The run is past the step's first handler. */
  ghost predicate IsPast(plan: Plan, pc: Pc, i: nat)
    requires i < |plan.tasks|
  {
    match pc
    case Checking(j, _) => j > i
    case Choosing(j, h) => j > i || (j == i && h > Acceptor(plan, i, 0))
    case Running(j, h, _) => j > i || (j == i && h > Acceptor(plan, i, 0))
    case Marking(j, h) => j > i || (j == i && h > Acceptor(plan, i, 0))
    case Leaving(failed) => !failed
    case Finished => true
    case _ => false
  }

  /** A step that is always met is executed by every upgrade that gets past it. */
  lemma {:induction false} RunsThrough(plan: Plan, a: Config, path: seq<Config>, c: Config, i: nat)
    requires Connects(plan, a, path, c) && a.process == START
    requires i < |plan.tasks| && AlwaysMet(plan, i) && Handled(plan, i)
    ensures IsPast(plan, c.process.pc, i) || (c.process.pc.Marking? && c.process.pc.step == i) ==> HasRun(path, i)
    ensures match c.process.pc
      case Choosing(j, h) => h <= |plan.settings.stepHandlers|
      case Running(j, h, _) => h < |plan.settings.stepHandlers|
      case Marking(j, h) => h < |plan.settings.stepHandlers|
      case _ => true
    decreases |path|
  {
    if |path| > 1 {
      var before, b := PathBefore(plan, path);
      RunsThrough(plan, a, before, b, i);
      if k :| 0 <= k < |before| && before[k].process.pc.Running? && before[k].process.pc.step == i {
        assert path[k] == before[k];
      } else {
        StillBefore(plan, b, c, i);
        assert path[|before| - 1] == b && path[|path| - 1] == c;
      }
    }
  }

  lemma {:induction false} StillBefore(plan: Plan, b: Config, c: Config, i: nat)
    requires Hop(plan, b, c) && i < |plan.tasks| && AlwaysMet(plan, i) && Handled(plan, i)
    requires !IsPast(plan, b.process.pc, i) && !(b.process.pc.Marking? && b.process.pc.step == i)
    requires !(b.process.pc.Running? && b.process.pc.step == i)
    ensures !IsPast(plan, c.process.pc, i) && !(c.process.pc.Marking? && c.process.pc.step == i)
  {
    if move :| Moves(plan, move, b, c) {
      if move.Judge? && b.process.pc.step == i {
        assert plan.tasks[i].preconditions.value[b.process.pc.passed] in plan.tasks[i].preconditions.value;
      }
    }
  }

  /** So every upgrade that succeeds executes it, which is what "ForceExecution" is for. */
  lemma {:induction false} AlwaysExecuted(plan: Plan, db: Shared, path: seq<Config>, c: Config, i: nat)
    requires Connects(plan, Config(START, db), path, c) && c.process.pc.Finished?
    requires i < |plan.tasks| && AlwaysMet(plan, i) && Handled(plan, i)
    ensures HasRun(path, i)
  {
    RunsThrough(plan, Config(START, db), path, c, i);
  }

  /** A step under one precondition without a name is always met, too: the name defaults to one
      that no built-in handler claims. */
  lemma {:induction false} NamelessIsAlwaysMet(plan: Plan, i: nat, parameters: seq<string>)
    requires forall h :: h in plan.settings.preconditionHandlers ==> h.Name() in BUILT_IN_NAMES
    requires i < |plan.tasks| && plan.tasks[i].preconditions == Some([Precondition(DEFAULT_NAME, parameters)])
    ensures AlwaysMet(plan, i)
  {
    assert forall name :: name in BUILT_IN_NAMES ==> name[0] != DEFAULT_NAME[0];
  }

  // -------------------------------------------------------- the second run

  /** The step has preconditions, and all of them are met. */
  predicate MetOn(plan: Plan, i: nat, content: Content)
    requires i < |plan.tasks|
  {
    var task := plan.tasks[i];
    && task.preconditions.Some?
    && Preconditions.IsMet(plan.settings.preconditionHandlers, task.key, task.preconditions.value, content) == Met
  }

  /** So many of the step's preconditions have been found met on this content. */
  predicate CheckedOn(plan: Plan, i: nat, passed: nat, content: Content) {
    passed > 0 ==>
      && i < |plan.tasks| && plan.tasks[i].preconditions.Some?
      && var task, ps := plan.tasks[i], plan.tasks[i].preconditions.value;
      && passed <= |ps|
      && Preconditions.IsMet(plan.settings.preconditionHandlers, task.key, ps, content) ==
         Preconditions.IsMet(plan.settings.preconditionHandlers, task.key, ps[passed..], content)
  }

  /** Judging goes on to the next precondition, or past the step, as the whole evaluation says. */
  lemma {:induction false} JudgeAndCheck(plan: Plan, b: Config, c: Config)
    requires JudgeStep(plan, b, c) && CheckedOn(plan, b.process.pc.step, b.process.pc.passed, b.db.content)
    ensures var i, task := b.process.pc.step, plan.tasks[b.process.pc.step];
      var r := Preconditions.IsMet(plan.settings.preconditionHandlers, task.key, task.preconditions.value,
                                   b.db.content);
      && c.db == b.db && c.process.pc.Checking?
      && CheckedOn(plan, c.process.pc.step, c.process.pc.passed, c.db.content)
      && (c.process.pc.step == i || (c.process.pc == Checking(i + 1, 0) && r == NotMet))
  {
    var Checking(i, passed) := b.process.pc;
    var task := plan.tasks[i];
    assert task.preconditions.value[0..] == task.preconditions.value;
    Preconditions.IsMetAfter(plan.settings.preconditionHandlers, task.key, task.preconditions.value, b.db.content,
                             passed);
  }

  /** When all preconditions have been judged, they are met. */
  lemma {:induction false} AcceptedIsMet(plan: Plan, b: Config, c: Config)
    requires AcceptStep(plan, b, c) && CheckedOn(plan, b.process.pc.step, b.process.pc.passed, b.db.content)
    ensures MetOn(plan, b.process.pc.step, b.db.content)
  {
    var ps := plan.tasks[b.process.pc.step].preconditions.value;
    assert ps[|ps|..] == [];
  }

  /** The step may issue this command. */
  ghost predicate Issues(plan: Plan, j: nat, e: Entry)
    requires j < |plan.tasks|
  {
    e.key == plan.tasks[j].key && exists done: nat, unit :: MayCommit(plan, j, done, unit) && e.command in unit
  }

  ghost predicate IssuedBySome(plan: Plan, e: Entry) {
    exists j: nat :: j < |plan.tasks| && Issues(plan, j, e)
  }

  /** The database goes on from there with commands and marks of this plan only. */
  ghost predicate GoesOn(plan: Plan, before: Content, content: Content) {
    && before.log <= content.log
    && (forall k {:trigger content.log[k]} :: |before.log| <= k < |content.log| ==> IssuedBySome(plan, content.log[k]))
    && forall key :: Has(before.marks, key) ==> Has(content.marks, key)
  }

  /** The step is skipped, whatever the plan's commands make of the database from here on. */
  ghost predicate StaysUnmet(plan: Plan, before: Content, i: nat)
    requires i < |plan.tasks|
  {
    forall content :: GoesOn(plan, before, content) ==> !MetOn(plan, i, content)
  }

  /** A recorded step stays so if "StepNotExecuted" is among its preconditions, whatever the others are. */
  lemma {:induction false} RecordedStaysUnmet(plan: Plan, before: Content, i: nat)
    requires GuardHandled(plan) && i < |plan.tasks| && plan.tasks[i].preconditions.Some?
    requires exists p :: p in plan.tasks[i].preconditions.value && p.name == "StepNotExecuted"
    requires Has(before.marks, plan.tasks[i].key)
    ensures StaysUnmet(plan, before, i)
  {
    var task := plan.tasks[i];
    var p :| p in task.preconditions.value && p.name == "StepNotExecuted";
    forall content | GoesOn(plan, before, content)
      ensures !MetOn(plan, i, content)
    {
      IsExecutedMeaning(content.marks, task.key);
      assert Preconditions.Judge(plan.settings.preconditionHandlers, task.key, p, content) == NotMet;
      Preconditions.IsMetIsSomeVerdict(plan.settings.preconditionHandlers, task.key, task.preconditions.value, content);
    }
  }

  /** A step that a second upgrade has no reason to execute. */
  ghost predicate Quiet(plan: Plan, before: Content, i: nat)
    requires i < |plan.tasks|
  {
    Guarded(plan.tasks[i]) || StaysUnmet(plan, before, i) || !Handled(plan, i)
  }

  /** The entry was issued by a step that is neither guarded nor skipped. */
  ghost predicate FromUnguarded(plan: Plan, before: Content, e: Entry) {
    exists j: nat :: j < |plan.tasks| && !Quiet(plan, before, j) && Issues(plan, j, e)
  }

  ghost predicate OnlyFromUnguarded(plan: Plan, before: Content, log: seq<Entry>) {
    && before.log <= log
    && forall k {:trigger log[k]} :: |before.log| <= k < |log| ==> FromUnguarded(plan, before, log[k])
  }

  /** Every step that a run may mark is recorded already, or never executed again. */
  ghost predicate MarksSettle(plan: Plan, before: Content) {
    forall i: nat :: i < |plan.tasks| && plan.tasks[i].mark && Handled(plan, i) ==>
      Has(before.marks, plan.tasks[i].key) || StaysUnmet(plan, before, i)
  }

  /** After an upgrade that finished it is enough that these steps are guarded or always executed. */
  lemma {:induction false} SettlingSuffices(plan: Plan, before: Content)
    requires Settled(plan, before.marks, |plan.tasks|)
    requires forall i: nat :: i < |plan.tasks| && plan.tasks[i].mark && Handled(plan, i) ==>
      Settling(plan, i) || StaysUnmet(plan, before, i)
    ensures MarksSettle(plan, before)
  {
  }

  ghost predicate GuardsRecorded(plan: Plan, before: Content) {
    forall i: nat :: i < |plan.tasks| && Guarded(plan.tasks[i]) && Handled(plan, i) ==> StaysUnmet(plan, before, i)
  }

  lemma {:induction false} SettledRecords(plan: Plan, before: Content)
    requires GuardHandled(plan) && Settled(plan, before.marks, |plan.tasks|)
    ensures GuardsRecorded(plan, before)
  {
    forall i: nat | i < |plan.tasks| && Guarded(plan.tasks[i]) && Handled(plan, i)
      ensures StaysUnmet(plan, before, i)
    {
      assert Settling(plan, i);
      assert plan.tasks[i].preconditions.value[0] in plan.tasks[i].preconditions.value;
      RecordedStaysUnmet(plan, before, i);
    }
  }

  /** No step that stays unmet is being executed, or about to be. */
  ghost predicate Dormant(plan: Plan, before: Content, c: Config) {
    match c.process.pc
    case Checking(i, passed) => CheckedOn(plan, i, passed, c.db.content)
    case Choosing(i, h) => i < |plan.tasks| ==> !StaysUnmet(plan, before, i)
    case Running(i, _, _) => i < |plan.tasks| && !StaysUnmet(plan, before, i) && Handled(plan, i)
    case Marking(i, _) => i < |plan.tasks| && !StaysUnmet(plan, before, i) && Handled(plan, i)
    case _ => true
  }

  /** What the second run has changed so far. */
  ghost predicate LeftAlone(plan: Plan, before: Content, c: Config) {
    && MarkStore.Valid(c.db.content.marks) && (forall key :: Has(before.marks, key) ==> Has(c.db.content.marks, key))
    && (MarksSettle(plan, before) ==> c.db.content.marks == before.marks)
    && OnlyFromUnguarded(plan, before, c.db.content.log)
    && Dormant(plan, before, c)
  }

  lemma {:induction false} LeftAloneGoesOn(plan: Plan, before: Content, c: Config)
    requires LeftAlone(plan, before, c)
    ensures GoesOn(plan, before, c.db.content)
  {
    var log := c.db.content.log;
    forall k | |before.log| <= k < |log|
      ensures IssuedBySome(plan, log[k])
    {
      assert FromUnguarded(plan, before, log[k]);
    }
  }

  /** Marking a second time changes nothing; so nothing is marked that was not. */
  lemma {:induction false} MarkMoveChangesNothing(plan: Plan, before: Content, b: Config, c: Config)
    requires LeftAlone(plan, before, b) && MarkStep(plan, b, c)
    ensures LeftAlone(plan, before, c)
  {
    var i := b.process.pc.step;
    var marks, marks' := b.db.content.marks, c.db.content.marks;
    if plan.tasks[i].mark {
      MarkAddsKey(marks, plan.tasks[i].key, marks');
      if MarksSettle(plan, before) {
        MarkTwiceIsMarkOnce(marks, plan.tasks[i].key, marks');
      }
    }
  }

  lemma {:induction false} CommitMoveIsUnguarded(plan: Plan, before: Content, unit: Unit, b: Config, c: Config)
    requires GuardsRecorded(plan, before) && LeftAlone(plan, before, b) && CommitUnitStep(plan, unit, b, c)
    ensures LeftAlone(plan, before, c)
  {
    var Running(i, _, j) := b.process.pc;
    var log, log' := b.db.content.log, c.db.content.log;
    forall k | |before.log| <= k < |log'|
      ensures FromUnguarded(plan, before, log'[k])
    {
      if k < |log| {
        assert log'[k] == log[k];
      } else {
        assert log'[k] == Entry(plan.tasks[i].key, unit[k - |log|]);
        assert MayCommit(plan, i, j, unit);
        assert Issues(plan, i, log'[k]);
      }
    }
  }

  lemma {:induction false} MoveChangesNothing(plan: Plan, before: Content, move: Move, b: Config, c: Config)
    requires GuardsRecorded(plan, before) && LeftAlone(plan, before, b) && Moves(plan, move, b, c)
    ensures LeftAlone(plan, before, c)
  {
    match move
    case Judge => JudgeAndCheck(plan, b, c);
    case Accept =>
      AcceptedIsMet(plan, b, c);
      LeftAloneGoesOn(plan, before, b);
    case Take => assert Accepts(plan, b.process.pc.step, b.process.pc.handler);
    case Mark => MarkMoveChangesNothing(plan, before, b, c);
    case CommitUnit(unit) => CommitMoveIsUnguarded(plan, before, unit, b, c);
    case _ =>
  }

  lemma {:induction false} RunChangesNothing(plan: Plan, before: Content, a: Config, path: seq<Config>, c: Config)
    requires GuardsRecorded(plan, before) && Connects(plan, a, path, c) && LeftAlone(plan, before, a)
    ensures LeftAlone(plan, before, c)
    decreases |path|
  {
    if |path| > 1 {
      var init, b := PathBefore(plan, path);
      RunChangesNothing(plan, before, a, init, b);
      if move :| Moves(plan, move, b, c) {
        MoveChangesNothing(plan, before, move, b, c);
      }
    }
  }

  lemma {:induction false} FinishedSettles(plan: Plan, first: Run)
    requires GuardHandled(plan) && Reaches(plan, Config(START, first.before), first.after)
    requires MarkStore.Valid(first.before.content.marks) && first.after.process.pc.Finished?
    ensures MarkStore.Valid(first.after.db.content.marks) && GuardsRecorded(plan, first.after.db.content)
    ensures Settled(plan, first.after.db.content.marks, |plan.tasks|)
  {
    var path :| Connects(plan, Config(START, first.before), path, first.after);
    RunSettles(plan, Config(START, first.before), path, first.after);
    SettledRecords(plan, first.after.db.content);
  }

  /** After an upgrade that finished, another one, wherever it is cut off, executes no guarded
      step: whatever it appends to the log was issued by other steps, none of which stays unmet. And
      it leaves the mark tables as they are, if every step it may mark is recorded or stays unmet. */
  lemma {:induction false} SecondUpgradeDoesNothing(plan: Plan, first: Run, second: Run)
    requires GuardHandled(plan) && OneAfterAnother(plan, [first, second])
    requires MarkStore.Valid(first.before.content.marks) && first.after.process.pc.Finished?
    ensures var before, after := second.before.content, second.after.db.content;
      && OnlyFromUnguarded(plan, before, after.log)
      && (MarksSettle(plan, before) ==> after.marks == before.marks)
  {
    var runs := [first, second];
    assert Elapse(runs[0].after.db, runs[1].before);
    assert Reaches(plan, Config(START, runs[0].before), runs[0].after);
    assert Reaches(plan, Config(START, runs[1].before), runs[1].after);
    FinishedSettles(plan, first);
    var path :| Connects(plan, Config(START, second.before), path, second.after);
    RunChangesNothing(plan, second.before.content, Config(START, second.before), path, second.after);
  }

  lemma {:induction false} NobodyUnguarded(plan: Plan, before: Content, e: Entry)
    requires forall i: nat :: i < |plan.tasks| ==> Quiet(plan, before, i)
    ensures !FromUnguarded(plan, before, e)
  {
  }

  /** If every step is guarded or stays unmet, or nobody handles it, the second upgrade leaves the
      content entirely as it is. */
  lemma {:induction false} GuardedUpgradeIsIdempotent(plan: Plan, first: Run, second: Run)
    requires GuardHandled(plan) && OneAfterAnother(plan, [first, second])
    requires MarkStore.Valid(first.before.content.marks) && first.after.process.pc.Finished?
    requires forall i: nat :: i < |plan.tasks| ==> Quiet(plan, second.before.content, i)
    ensures second.after.db.content == first.after.db.content
  {
    SecondUpgradeDoesNothing(plan, first, second);
    var runs := [first, second];
    assert Elapse(runs[0].after.db, runs[1].before);
    assert Reaches(plan, Config(START, runs[0].before), runs[0].after);
    FinishedSettles(plan, first);
    var before, after := second.before.content, second.after.db.content;
    forall i: nat | i < |plan.tasks| && plan.tasks[i].mark && Handled(plan, i)
      ensures Has(before.marks, plan.tasks[i].key) || StaysUnmet(plan, before, i)
    {
      assert Quiet(plan, before, i);
    }
    if |after.log| > |before.log| {
      NobodyUnguarded(plan, before, after.log[|before.log|]);
    }
  }
}
