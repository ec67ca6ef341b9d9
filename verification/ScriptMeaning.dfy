/**
 What the elements of the update scripts come to: which step of which script a task is,
 and what its own preconditions, the defaults and its mark flag have to say in a run.
 */
module ScriptMeaning {
  import opened Wrappers
  import opened MarkStore
  import opened Migration
  import opened UpgradeMachine
  import opened History
  import opened Idempotence

  // ------------------------------------------------------ places in the scripts

  /** There is a step s in update u of script k. */
  predicate IsStep(scripts: seq<Updates>, k: nat, u: nat, s: nat) {
    && k < |scripts| && scripts[k].updates.Some?
    && u < |scripts[k].updates.value| && s < |scripts[k].updates.value[u].steps|
  }

  function StepAt(scripts: seq<Updates>, k: nat, u: nat, s: nat): Step
    requires IsStep(scripts, k, u, s)
  {
    scripts[k].updates.value[u].steps[s]
  }

  /** A step is recorded under its script's assembly name, its update's version and its own id. */
  function KeyAt(scripts: seq<Updates>, k: nat, u: nat, s: nat): StepKey
    requires IsStep(scripts, k, u, s)
  {
    StepKey(scripts[k].assemblyName, scripts[k].updates.value[u].version, scripts[k].updates.value[u].steps[s].id)
  }

  /** This step is the i-th of all. */
  predicate StandsAt(scripts: seq<Updates>, i: nat, k: nat, u: nat, s: nat) {
    && IsStep(scripts, k, u, s)
    && i == StepsInScripts(scripts, k) + StepsInUpdates(scripts[k].updates.value, u) + s
  }

  lemma {:induction false} TaskInUpdates(script: Updates, updates: seq<Update>, u: nat, s: nat)
    requires u < |updates| && s < |updates[u].steps|
    ensures var i := StepsInUpdates(updates, u) + s;
      && i < |TasksOfUpdates(script, updates)|
      && TasksOfUpdates(script, updates)[i] == TaskOf(script, updates[u], updates[u].steps[s])
  {
    UpdatesCount(script, updates, u);
    UpdatesNext(script, updates, u);
    UpdatesBefore(script, updates, u + 1);
  }

  lemma {:induction false} TaskInScripts(scripts: seq<Updates>, k: nat, j: nat)
    requires k < |scripts| && j < |TasksOfScript(scripts[k])|
    ensures var i := StepsInScripts(scripts, k) + j;
      i < |TasksOfScripts(scripts)| && TasksOfScripts(scripts)[i] == TasksOfScript(scripts[k])[j]
  {
    ScriptsCount(scripts, k);
    ScriptsNext(scripts, k);
    ScriptsBefore(scripts, k + 1);
  }

  /** Each step becomes the task at its place: with its key, its own preconditions if it has any and
      the script's defaults if not, its mark flag and its work. */
  lemma {:induction false} StepBecomesTask(scripts: seq<Updates>, i: nat, k: nat, u: nat, s: nat)
    requires StandsAt(scripts, i, k, u, s)
    ensures i < |TasksOfScripts(scripts)|
    ensures var task, step := TasksOfScripts(scripts)[i], StepAt(scripts, k, u, s);
      && task.key == KeyAt(scripts, k, u, s) && task.mark == step.markAsExecuted && task.work == step.work
      && (step.preconditions.Some? && |step.preconditions.value| > 0 ==> task.preconditions == step.preconditions)
      && (step.preconditions == None || step.preconditions == Some([]) ==>
            task.preconditions == scripts[k].defaultPreconditions)
  {
    TaskInUpdates(scripts[k], scripts[k].updates.value, u, s);
    TaskInScripts(scripts, k, StepsInUpdates(scripts[k].updates.value, u) + s);
  }

  lemma {:induction false} PlaceInUpdates(updates: seq<Update>, n: nat, j: nat) returns (u: nat, s: nat)
    requires n <= |updates| && j < StepsInUpdates(updates, n)
    ensures u < n && s < |updates[u].steps| && j == StepsInUpdates(updates, u) + s
  {
    if j < StepsInUpdates(updates, n - 1) {
      u, s := PlaceInUpdates(updates, n - 1, j);
    } else {
      u, s := n - 1, j - StepsInUpdates(updates, n - 1);
    }
  }

  lemma {:induction false} PlaceInScripts(scripts: seq<Updates>, n: nat, i: nat) returns (k: nat, u: nat, s: nat)
    requires n <= |scripts| && i < StepsInScripts(scripts, n)
    ensures k < n && StandsAt(scripts, i, k, u, s)
  {
    if i < StepsInScripts(scripts, n - 1) {
      k, u, s := PlaceInScripts(scripts, n - 1, i);
    } else {
      k := n - 1;
      var updates := scripts[k].updates.value;
      u, s := PlaceInUpdates(updates, |updates|, i - StepsInScripts(scripts, k));
    }
  }

  /** And there are no other tasks. */
  lemma {:induction false} TaskComesFromStep(scripts: seq<Updates>, i: nat) returns (k: nat, u: nat, s: nat)
    requires i < |TasksOfScripts(scripts)|
    ensures StandsAt(scripts, i, k, u, s)
  {
    AllStepsCount(scripts);
    k, u, s := PlaceInScripts(scripts, |scripts|, i);
  }

  // ---------------------------------------------------------------- preconditions

  /** The element asks for one precondition only, the one of this name. */
  predicate AsksOnly(preconditions: Option<seq<Precondition>>, name: string) {
    preconditions.Some? && |preconditions.value| == 1 && preconditions.value[0].name == name
  }

  predicate AsksNothing(preconditions: Option<seq<Precondition>>) {
    preconditions.None? || preconditions.value == []
  }

  /** The steps that are executed once only: those to be marked that ask for "StepNotExecuted", or have
      nothing to ask under defaults that do. */
  lemma {:induction false} GuardedByScript(scripts: seq<Updates>, i: nat, k: nat, u: nat, s: nat)
    requires StandsAt(scripts, i, k, u, s)
    ensures i < |TasksOfScripts(scripts)|
    ensures var step, defaults := StepAt(scripts, k, u, s), scripts[k].defaultPreconditions;
      Guarded(TasksOfScripts(scripts)[i]) <==>
        && step.markAsExecuted
        && (|| AsksOnly(step.preconditions, "StepNotExecuted")
            || (AsksNothing(step.preconditions) && AsksOnly(defaults, "StepNotExecuted")))
  {
    StepBecomesTask(scripts, i, k, u, s);
  }

  /** The database handler is registered, or for a typed step one of its type. */
  predicate HasHandler(settings: Settings, work: Work) {
    match work
    case DbCommand(_) => DbCommandHandler in settings.stepHandlers
    case Typed(typeName, _) => TypedHandler(typeName) in settings.stepHandlers
  }

  lemma {:induction false} HandledByType(plan: Plan, i: nat)
    requires i < |plan.tasks|
    ensures Handled(plan, i) <==> HasHandler(plan.settings, plan.tasks[i].work)
  {
    var handlers := plan.settings.stepHandlers;
    var wanted := match plan.tasks[i].work
      case DbCommand(_) => DbCommandHandler
      case Typed(typeName, _) => TypedHandler(typeName);
    assert forall h: nat :: h < |handlers| ==> (Accepts(plan, i, h) <==> handlers[h] == wanted);
    if wanted in handlers {
      var h: nat :| h < |handlers| && handlers[h] == wanted;
      assert Accepts(plan, i, h);
    }
  }

  lemma {:induction false} ForcedIsAlwaysMet(plan: Plan, i: nat)
    requires i < |plan.tasks| && AsksOnly(plan.tasks[i].preconditions, "ForceExecution")
    requires Preconditions.Claimer(plan.settings.preconditionHandlers, "ForceExecution") == Some(ForceExecution())
    ensures AlwaysMet(plan, i)
  {
  }

  /** A handled step that asks only for "ForceExecution" is executed by every upgrade that succeeds,
      recorded or not, whatever the defaults of its script. */
  lemma {:induction false} ForcedIsExecuted(plan: Plan, scripts: seq<Updates>, i: nat, k: nat, u: nat, s: nat,
                                            db: Shared, path: seq<Config>, c: Config)
    requires plan.tasks == TasksOfScripts(scripts) && StandsAt(scripts, i, k, u, s)
    requires AsksOnly(StepAt(scripts, k, u, s).preconditions, "ForceExecution")
    requires Preconditions.Claimer(plan.settings.preconditionHandlers, "ForceExecution") == Some(ForceExecution())
    requires HasHandler(plan.settings, StepAt(scripts, k, u, s).work)
    requires Connects(plan, Config(START, db), path, c) && c.process.pc.Finished?
    ensures HasRun(path, i)
  {
    StepBecomesTask(scripts, i, k, u, s);
    HandledByType(plan, i);
    ForcedIsAlwaysMet(plan, i);
    AlwaysExecuted(plan, db, path, c, i);
  }

  // ------------------------------------------------------------------ handlers

  /** The run has executed the step with this handler. */
  ghost predicate HasRunBy(path: seq<Config>, i: nat, h: nat) {
    exists k :: 0 <= k < |path| && path[k].process.pc.Running? && path[k].process.pc.step == i &&
                path[k].process.pc.handler == h
  }

  /** The first n handlers have executed the step, those of them that accept it. */
  ghost predicate HandlersDone(plan: Plan, path: seq<Config>, i: nat, n: nat)
    requires i < |plan.tasks|
  {
    n <= |plan.settings.stepHandlers| && forall h: nat :: h < n && Accepts(plan, i, h) ==> HasRunBy(path, i, h)
  }

  ghost predicate Served(plan: Plan, path: seq<Config>, i: nat)
    requires i < |plan.tasks|
  {
    HasRun(path, i) ==> HandlersDone(plan, path, i, |plan.settings.stepHandlers|)
  }

  /** The run has not come to execute the step yet. */
  predicate IsAhead(pc: Pc, i: nat) {
    pc.Waiting? || (pc.Checking? && pc.step <= i) || (pc.InBody() && pc.step < i)
  }

  /** Handlers are at the step. */
  predicate IsAt(pc: Pc, i: nat) {
    pc.InBody() && !pc.Checking? && pc.step == i
  }

  /** How many handlers have had the step, or have it now. */
  function HadBy(pc: Pc): nat
    requires pc.InBody() && !pc.Checking?
  {
    if pc.Choosing? then pc.handler else pc.handler + 1
  }

  predicate IsBehind(pc: Pc, i: nat) {
    (pc.InBody() && pc.step > i) || pc == Leaving(false) || pc.Finished?
  }

  /** How far the handlers have come with the step when the run is at this place. */
  ghost predicate ServedBy(plan: Plan, path: seq<Config>, pc: Pc, i: nat)
    requires i < |plan.tasks|
  {
    && (IsAhead(pc, i) ==> !HasRun(path, i))
    && (IsAt(pc, i) ==> HandlersDone(plan, path, i, HadBy(pc)))
    && (IsBehind(pc, i) ==> Served(plan, path, i))
  }

  /** Where a run that is at these places may have come from. */
  lemma {:induction false} HopPlaces(plan: Plan, b: Config, c: Config, i: nat)
    requires Hop(plan, b, c) && i < |plan.tasks|
    ensures var from, to, n := b.process.pc, c.process.pc, |plan.settings.stepHandlers|;
      && (IsAhead(to, i) ==> IsAhead(from, i))
      && (IsAt(to, i) ==>
            || (IsAhead(from, i) && HadBy(to) == 0)
            || (IsAt(from, i) && HadBy(to) == HadBy(from))
            || (IsAt(from, i) && HadBy(to) == HadBy(from) + 1 <= n && (to.Running? || !Accepts(plan, i, HadBy(from)))))
      && (IsBehind(to, i) ==>
            IsBehind(from, i) || IsAhead(from, i) || (IsAt(from, i) && HadBy(from) == n))
      && (to.Running? && IsAt(to, i) ==> to.handler + 1 == HadBy(to))
  {
  }

  lemma {:induction false} RunNext(path: seq<Config>, i: nat)
    requires |path| > 1
    ensures var pc := path[|path| - 1].process.pc;
      HasRun(path, i) <==> HasRun(path[..|path| - 1], i) || (pc.Running? && pc.step == i)
  {
    var before := path[..|path| - 1];
    assert path == before + [path[|path| - 1]];
    if k :| 0 <= k < |before| && before[k].process.pc.Running? && before[k].process.pc.step == i {
      assert path[k].process.pc.Running?;
    }
    if k :| 0 <= k < |path| && path[k].process.pc.Running? && path[k].process.pc.step == i {
      if k < |before| {
        assert before[k].process.pc.Running?;
      }
    }
  }

  lemma {:induction false} RunByNext(path: seq<Config>, i: nat, h: nat)
    requires |path| > 1
    ensures var pc := path[|path| - 1].process.pc;
      HasRunBy(path[..|path| - 1], i, h) || (pc.Running? && pc.step == i && pc.handler == h) ==> HasRunBy(path, i, h)
  {
    var before := path[..|path| - 1];
    if k :| 0 <= k < |before| && before[k].process.pc.Running? && before[k].process.pc.step == i
            && before[k].process.pc.handler == h {
      assert path[k].process.pc.Running?;
    }
  }

  /** The longer run has executed what the shorter one has, and the step by the handler it is at now. */
  ghost predicate RunsOn(before: seq<Config>, path: seq<Config>, pc: Pc, i: nat) {
    && (HasRun(path, i) ==> HasRun(before, i) || (pc.Running? && pc.step == i))
    && (forall h: nat :: HasRunBy(before, i, h) ==> HasRunBy(path, i, h))
    && (pc.Running? && pc.step == i ==> HasRunBy(path, i, pc.handler))
  }

  lemma {:induction false} HopServes(plan: Plan, before: seq<Config>, path: seq<Config>, b: Config, c: Config, i: nat)
    requires Hop(plan, b, c) && RunsOn(before, path, c.process.pc, i)
    requires i < |plan.tasks| && ServedBy(plan, before, b.process.pc, i)
    ensures ServedBy(plan, path, c.process.pc, i)
  {
    HopPlaces(plan, b, c, i);
  }

  lemma {:induction false} RunServes(plan: Plan, a: Config, path: seq<Config>, c: Config, i: nat)
    requires Connects(plan, a, path, c) && a.process == START && i < |plan.tasks|
    ensures ServedBy(plan, path, c.process.pc, i)
    decreases |path|
  {
    if |path| > 1 {
      var before, b := PathBefore(plan, path);
      RunServes(plan, a, before, b, i);
      RunNext(path, i);
      forall h: nat
        ensures HasRunBy(before, i, h) ==> HasRunBy(path, i, h)
      {
        RunByNext(path, i, h);
      }
      if c.process.pc.Running? {
        RunByNext(path, i, c.process.pc.handler);
      }
      HopServes(plan, before, path, b, c, i);
    }
  }

  /** An upgrade that succeeds has given each step that it executed to all the handlers that accept it. */
  lemma {:induction false} EveryHandlerRuns(plan: Plan, db: Shared, path: seq<Config>, c: Config, i: nat, h: nat)
    requires Connects(plan, Config(START, db), path, c) && c.process.pc.Finished?
    requires i < |plan.tasks| && h < |plan.settings.stepHandlers| && Accepts(plan, i, h) && HasRun(path, i)
    ensures HasRunBy(path, i, h)
  {
    RunServes(plan, Config(START, db), path, c, i);
  }

  // --------------------------------------------------------------------- marks

  /** Here the run gets past marking the step: from after its work to the next handler. */
  ghost predicate MarksAt(path: seq<Config>, k: nat, i: nat)
    requires k + 1 < |path|
  {
    path[k].process.pc.Marking? && path[k].process.pc.step == i && path[k + 1].process.pc.Choosing?
  }

  ghost predicate HasMarked(path: seq<Config>, i: nat) {
    exists k: nat {:trigger MarksAt(path, k, i)} :: k + 1 < |path| && MarksAt(path, k, i)
  }

  lemma {:induction false} MarkedNext(path: seq<Config>, i: nat)
    requires |path| > 1
    ensures HasMarked(path, i) <==> HasMarked(path[..|path| - 1], i) || MarksAt(path, |path| - 2, i)
  {
    var before := path[..|path| - 1];
    if k: nat :| k + 1 < |path| && MarksAt(path, k, i) {
      if k + 1 < |before| {
        assert MarksAt(before, k, i);
      }
    }
    if k: nat :| k + 1 < |before| && MarksAt(before, k, i) {
      assert MarksAt(path, k, i);
    }
  }

  /** The run has marked a step of this key that is to be marked. */
  ghost predicate KeyMarked(plan: Plan, path: seq<Config>, key: StepKey) {
    exists i: nat :: i < |plan.tasks| && plan.tasks[i].mark && plan.tasks[i].key == key && HasMarked(path, i)
  }

  /** From here to there the step of this key is marked. */
  ghost predicate MarksKey(plan: Plan, b: Config, c: Config, key: StepKey) {
    && b.process.pc.Marking? && c.process.pc.Choosing?
    && var i := b.process.pc.step;
    && i < |plan.tasks| && plan.tasks[i].mark && plan.tasks[i].key == key
  }

  lemma {:induction false} KeyMarkedNext(plan: Plan, path: seq<Config>, key: StepKey)
    requires |path| > 1
    ensures KeyMarked(plan, path, key) <==>
      KeyMarked(plan, path[..|path| - 1], key) || MarksKey(plan, path[|path| - 2], path[|path| - 1], key)
  {
    var before, b := path[..|path| - 1], path[|path| - 2];
    forall i
      ensures HasMarked(path, i) <==> HasMarked(before, i) || MarksAt(path, |path| - 2, i)
    {
      MarkedNext(path, i);
    }
    if MarksKey(plan, b, path[|path| - 1], key) {
      assert MarksAt(path, |path| - 2, b.process.pc.step);
      assert HasMarked(path, b.process.pc.step);
    }
  }

  lemma {:induction false} HopAndKeys(plan: Plan, b: Config, c: Config)
    requires Hop(plan, b, c) && MarkStore.Valid(b.db.content.marks)
    ensures MarkStore.Valid(c.db.content.marks)
    ensures forall key ::
      Has(c.db.content.marks, key) <==> Has(b.db.content.marks, key) || MarksKey(plan, b, c, key)
  {
    if move :| Moves(plan, move, b, c) {
      if move.Mark? && plan.tasks[b.process.pc.step].mark {
        MarkAddsKey(b.db.content.marks, plan.tasks[b.process.pc.step].key, c.db.content.marks);
      }
    }
  }

  /** Wherever a run is cut off, it has recorded the keys of the steps it has marked, and no others. */
  lemma {:induction false} MarkedKeys(plan: Plan, a: Config, path: seq<Config>, c: Config)
    requires Connects(plan, a, path, c) && MarkStore.Valid(a.db.content.marks)
    ensures MarkStore.Valid(c.db.content.marks)
    ensures forall key ::
      Has(c.db.content.marks, key) <==> Has(a.db.content.marks, key) || KeyMarked(plan, path, key)
    decreases |path|
  {
    if |path| > 1 {
      var before, b := PathBefore(plan, path);
      MarkedKeys(plan, a, before, b);
      HopAndKeys(plan, b, c);
      forall key
        ensures KeyMarked(plan, path, key) <==> KeyMarked(plan, before, key) || MarksKey(plan, b, c, key)
      {
        KeyMarkedNext(plan, path, key);
      }
    }
  }

  /** Where the run is with a step that it has executed. */
  ghost predicate WithStep(pc: Pc, i: nat) {
    (pc.Running? || pc.Marking?) && pc.step == i
  }

  /** A step that is marked was executed; and one that is executed is marked, unless the run is still
      at it or has failed. And only handled steps are executed. */
  lemma {:induction false} RunAndMarked(plan: Plan, a: Config, path: seq<Config>, c: Config, i: nat)
    requires Connects(plan, a, path, c) && a.process == START
    ensures HasMarked(path, i) || WithStep(c.process.pc, i) ==> HasRun(path, i)
    ensures HasRun(path, i) ==>
      || HasMarked(path, i) || WithStep(c.process.pc, i)
      || c.process.pc == Leaving(true) || c.process.pc.Failed? || c.process.pc.Crashed?
    ensures HasRun(path, i) ==> i < |plan.tasks| && Handled(plan, i)
    decreases |path|
  {
    if |path| > 1 {
      var before, b := PathBefore(plan, path);
      RunAndMarked(plan, a, before, b, i);
      RunNext(path, i);
      MarkedNext(path, i);
      HopAndRun(plan, b, c, i);
    }
  }

  lemma {:induction false} HopAndRun(plan: Plan, b: Config, c: Config, i: nat)
    requires Hop(plan, b, c)
    ensures c.process.pc.Running? && c.process.pc.step == i ==>
      (i < |plan.tasks| && Handled(plan, i)) || WithStep(b.process.pc, i)
    ensures c.process.pc.Marking? && c.process.pc.step == i ==> WithStep(b.process.pc, i)
    ensures WithStep(b.process.pc, i) ==>
      || WithStep(c.process.pc, i) || (b.process.pc.Marking? && c.process.pc.Choosing?)
      || c.process.pc == Leaving(true) || c.process.pc.Crashed?
    ensures b.process.pc == Leaving(true) ==>
      c.process.pc == b.process.pc || c.process.pc.Failed? || c.process.pc.Crashed?
    ensures b.process.pc.Over() ==> c.process.pc == b.process.pc
  {
  }

  /** A step of the scripts that wants to be marked, under this key, and that the run has executed. */
  ghost predicate RunsKey(scripts: seq<Updates>, path: seq<Config>, key: StepKey, i: nat, k: nat, u: nat, s: nat) {
    && StandsAt(scripts, i, k, u, s) && StepAt(scripts, k, u, s).markAsExecuted && KeyAt(scripts, k, u, s) == key
    && HasRun(path, i)
  }

  /** An upgrade that succeeds records exactly the steps that it executes and that want to be marked, each under
      assembly name, version and id. */
  lemma {:induction false} FinishedMarks(plan: Plan, scripts: seq<Updates>, db: Shared, path: seq<Config>, c: Config,
                                         key: StepKey)
    requires plan.tasks == TasksOfScripts(scripts) && MarkStore.Valid(db.content.marks)
    requires Connects(plan, Config(START, db), path, c) && c.process.pc.Finished?
    ensures Has(c.db.content.marks, key) <==>
      Has(db.content.marks, key) || exists i, k, u, s :: RunsKey(scripts, path, key, i, k, u, s)
  {
    MarkedKeys(plan, Config(START, db), path, c);
    if KeyMarked(plan, path, key) {
      var i: nat :| i < |plan.tasks| && plan.tasks[i].mark && plan.tasks[i].key == key && HasMarked(path, i);
      RunAndMarked(plan, Config(START, db), path, c, i);
      var k, u, s := TaskComesFromStep(scripts, i);
      StepBecomesTask(scripts, i, k, u, s);
      assert RunsKey(scripts, path, key, i, k, u, s);
    }
    if i, k, u, s :| RunsKey(scripts, path, key, i, k, u, s) {
      StepBecomesTask(scripts, i, k, u, s);
      RunAndMarked(plan, Config(START, db), path, c, i);
      assert KeyMarked(plan, path, key);
    }
  }
}
