/**
 The whole upgrade: take the lock, run the installer script and then every update
 script in order, step by step, and release the lock however that ended.
 */
module DatabaseUpdates {
  import opened Wrappers
  import opened MarkStore
  import opened Migration
  import opened UpgradeMachine
  import opened Protocol
  import opened Driver
  import opened StepExecution
  import DatabaseLocks

  // ------------------------------------------------------------------- steps

  /** One precondition: its claimer decides, or it counts as met. Unless the environment fails, this
      throws exactly if the handler raises; a precondition that is not met is no failure. */
  method CheckPrecondition(provider: TransactionProvider, settings: Settings, key: StepKey, precondition: Precondition,
                           ghost held: Held)
    returns (o: Outcome, verdict: Verdict)
    requires provider.Ready(held) && !provider.db.process.pc.Over()
    modifies provider.db
    ensures provider.db.Stayed(o)
    ensures !o.Died? ==> provider.Valid(held.After(o)) && provider.db.pending.None?
    ensures Meanwhile(provider.db.rivals, old(provider.db.committed), provider.db.committed)
    ensures o.Done? ==>
      && !verdict.Raises?
      && verdict == Preconditions.Judge(settings.preconditionHandlers, key, precondition,
                                        provider.db.committed.content)
    ensures provider.db.faults >= old(provider.db.faults) && (o.Done? ==> provider.db.faults == old(provider.db.faults))
    ensures provider.db.faults == old(provider.db.faults) ==>
      var raised := Preconditions.Judge(settings.preconditionHandlers, key, precondition,
                                        provider.db.committed.content).Raises?;
      o == if raised then Threw else Done
  {
    var db := provider.db;
    o, verdict := Done, Met;
    if Preconditions.Claimer(settings.preconditionHandlers, precondition.name).Some? {
      db.Record(Queried);
      o := db.Call();
      verdict := Preconditions.Judge(settings.preconditionHandlers, key, precondition, db.committed.content);
      if o.Done? && verdict.Raises? {
        db.Record(Faulted);
        o := Threw;
      }
    }
  }

  /** No content makes the handlers raise on any of these preconditions. */
  ghost predicate NeverRaise(settings: Settings, key: StepKey, ps: seq<Precondition>) {
    forall p, content :: p in ps ==>
      Preconditions.Judge(settings.preconditionHandlers, key, p, content) != Raises
  }

  /** Ask the handlers, one precondition at a time, until one is not met. With no rivals
      about this is the evaluation of all of them on one content, and throws only if that raises. */
  method CheckPreconditions(provider: TransactionProvider, settings: Settings, key: StepKey, ps: seq<Precondition>,
                            ghost held: Held, ghost i: nat)
    returns (o: Outcome, met: bool)
    requires provider.Ready(held) && provider.db.process.pc == Checking(i, 0)
    requires provider.db.plan.settings == settings && AsksFor(provider.db.plan, i, key, ps)
    modifies provider.db
    ensures provider.db.Went(o, if met then Choosing(i, 0) else Checking(i + 1, 0))
    ensures o.Done? ==> provider.Ready(held)
    ensures o.Threw? ==> provider.Valid(held.After(o)) && provider.db.pending.None?
    ensures provider.db.Blames(o, NeverRaise(settings, key, ps))
    ensures var content := old(provider.db.committed).content;
      var r := Preconditions.IsMet(settings.preconditionHandlers, key, ps, content);
      Alone(provider.db.rivals) ==>
        && provider.db.committed.content == content
        && (o.Done? ==> met == r.Met? && !r.Raises?)
        && (provider.db.faults == old(provider.db.faults) ==> (o.Done? <==> !r.Raises?))
  {
    var db := provider.db;
    ghost var first := db.committed.content;
    o, met := Done, false;
    for passed := 0 to |ps|
      invariant provider.Ready(held) && o == Done && !met && db.faults == old(db.faults)
      invariant db.Went(Done, Checking(i, passed))
      invariant Alone(db.rivals) ==>
        && db.committed.content == first
        && Preconditions.IsMet(settings.preconditionHandlers, key, ps, first) ==
           Preconditions.IsMet(settings.preconditionHandlers, key, ps[passed..], first)
    {
      var verdict;
      o, verdict := CheckPrecondition(provider, settings, key, ps[passed], held);
      assert ps[passed] in ps;
      assert ps[passed..][1..] == ps[passed + 1..];
      if !o.Done? {
        return;
      }
      if verdict.NotMet? {
        db.Goes(Judge, Checking(i + 1, 0));
        return;
      }
      db.Goes(Judge, Checking(i, passed + 1));
    }
    met := true;
    db.Goes(Accept, Choosing(i, 0));
  }

  /** The step's preconditions, its own or the script's defaults. */
  ghost predicate AsksFor(plan: Plan, i: nat, key: StepKey, ps: seq<Precondition>) {
    i < |plan.tasks| && plan.tasks[i].key == key && plan.tasks[i].preconditions == Some(ps)
  }

  /** The step has preconditions, and they never raise. */
  ghost predicate RunnableTask(settings: Settings, task: Task) {
    task.preconditions.Some? && NeverRaise(settings, task.key, task.preconditions.value)
  }

  /** Skip the step or execute it; a step without any preconditions ends the run. */
  method RunStep(provider: TransactionProvider, settings: Settings, task: Task, ghost held: Held, ghost i: nat)
    returns (o: Outcome)
    requires provider.Ready(held) && provider.db.process.pc == Checking(i, 0)
    requires provider.db.plan.settings == settings && i < |provider.db.plan.tasks| && provider.db.plan.tasks[i] == task
    modifies provider, provider.db
    ensures provider.db.Went(o, Checking(i + 1, 0))
    ensures o.Done? ==> provider.Ready(held)
    ensures o.Threw? ==> provider.Valid(held.After(o))
    ensures provider.db.Blames(o, RunnableTask(settings, task))
    ensures o.Done? ==> task.preconditions.Some?
  {
    if task.preconditions.None? {
      provider.db.Record(Faulted);
      return Threw;
    }
    var met;
    o, met := CheckPreconditions(provider, settings, task.key, task.preconditions.value, held, i);
    if o.Done? && met {
      o := ExecuteStep(provider, settings, task, held, i);
    }
  }

  // ----------------------------------------------------------------- scripts

  ghost predicate AllRunnable(settings: Settings, tasks: seq<Task>) {
    forall i :: 0 <= i < |tasks| ==> RunnableTask(settings, tasks[i])
  }

  ghost predicate AheadAt(plan: Plan, at: nat, tasks: seq<Task>, k: nat)
    requires at + |tasks| <= |plan.tasks| && k < |tasks|
  {
    plan.tasks[at + k] == tasks[k]
  }

  /** The script can be run: it has updates, and all its steps have preconditions, which never raise. */
  ghost predicate RunnableScript(settings: Settings, script: Updates) {
    script.updates.Some? && AllRunnable(settings, TasksOfScript(script))
  }

  /** The plan's tasks from `at` on are these. */
  ghost predicate Ahead(plan: Plan, at: nat, tasks: seq<Task>) {
    && at + |tasks| <= |plan.tasks|
    && forall k: nat {:trigger AheadAt(plan, at, tasks, k)} :: k < |tasks| ==> AheadAt(plan, at, tasks, k)
  }

  lemma {:induction false} PartAhead(plan: Plan, at: nat, whole: seq<Task>, before: seq<Task>, part: seq<Task>)
    requires Ahead(plan, at, whole) && before + part <= whole
    ensures Ahead(plan, at + |before|, part)
    ensures AllRunnable(plan.settings, whole) ==> AllRunnable(plan.settings, part)
  {
    forall k: nat | k < |part|
      ensures part[k] == whole[|before| + k] && AheadAt(plan, at + |before|, part, k)
    {
      assert (before + part)[|before| + k] == part[k];
      assert AheadAt(plan, at, whole, |before| + k);
    }
  }

  method RunUpdate(provider: TransactionProvider, settings: Settings, script: Updates, update: Update,
                   ghost held: Held, ghost at: nat)
    returns (o: Outcome)
    requires provider.Ready(held) && provider.db.process.pc == Checking(at, 0)
    requires provider.db.plan.settings == settings
    requires Ahead(provider.db.plan, at, TasksOfSteps(script, update, update.steps))
    modifies provider, provider.db
    ensures provider.db.Went(o, Checking(at + |update.steps|, 0))
    ensures o.Done? ==> provider.Ready(held)
    ensures o.Threw? ==> provider.Valid(held.After(o))
    ensures provider.db.Blames(o, AllRunnable(settings, TasksOfSteps(script, update, update.steps)))
  {
    var db := provider.db;
    o := Done;
    for s := 0 to |update.steps|
      invariant provider.Ready(held) && o == Done && db.faults == old(db.faults)
      invariant db.Went(Done, Checking(at + s, 0))
    {
      assert AheadAt(db.plan, at, TasksOfSteps(script, update, update.steps), s);
      o := RunStep(provider, settings, TaskOf(script, update, update.steps[s]), held, at + s);
      if !o.Done? {
        return;
      }
    }
  }

  lemma {:induction false} UpdateAhead(plan: Plan, at: nat, script: Updates, updates: seq<Update>, u: nat)
    requires u < |updates| && Ahead(plan, at, TasksOfUpdates(script, updates))
    ensures var steps := TasksOfSteps(script, updates[u], updates[u].steps);
      && Ahead(plan, at + StepsInUpdates(updates, u), steps)
      && (AllRunnable(plan.settings, TasksOfUpdates(script, updates)) ==> AllRunnable(plan.settings, steps))
  {
    UpdatesCount(script, updates, u);
    UpdatesNext(script, updates, u);
    UpdatesBefore(script, updates, u + 1);
    PartAhead(plan, at, TasksOfUpdates(script, updates), TasksOfUpdates(script, updates[..u]),
              TasksOfSteps(script, updates[u], updates[u].steps));
  }

  method RunUpdates(provider: TransactionProvider, settings: Settings, script: Updates, updates: seq<Update>,
                    ghost held: Held, ghost at: nat)
    returns (o: Outcome)
    requires provider.Ready(held) && provider.db.process.pc == Checking(at, 0)
    requires provider.db.plan.settings == settings && Ahead(provider.db.plan, at, TasksOfUpdates(script, updates))
    modifies provider, provider.db
    ensures provider.db.Went(o, Checking(at + StepsInUpdates(updates, |updates|), 0))
    ensures o.Done? ==> provider.Ready(held)
    ensures o.Threw? ==> provider.Valid(held.After(o))
    ensures provider.db.Blames(o, AllRunnable(settings, TasksOfUpdates(script, updates)))
  {
    var db := provider.db;
    o := Done;
    for u := 0 to |updates|
      invariant provider.Ready(held) && o == Done && db.faults == old(db.faults)
      invariant db.Went(Done, Checking(at + StepsInUpdates(updates, u), 0))
    {
      UpdateAhead(db.plan, at, script, updates, u);
      o := RunUpdate(provider, settings, script, updates[u], held, at + StepsInUpdates(updates, u));
      if !o.Done? {
        return;
      }
    }
  }

  /** Deserialise the script and run its updates; a script without any is refused. */
  method RunScript(provider: TransactionProvider, settings: Settings, script: Updates,
                   ghost held: Held, ghost at: nat)
    returns (o: Outcome)
    requires provider.Ready(held) && provider.db.process.pc == Checking(at, 0)
    requires provider.db.plan.settings == settings && Ahead(provider.db.plan, at, TasksOfScript(script))
    modifies provider, provider.db
    ensures provider.db.Went(o, Checking(at + StepsInScript(script), 0))
    ensures o.Done? ==> provider.Ready(held)
    ensures o.Threw? ==> provider.Valid(held.After(o))
    ensures provider.db.Blames(o, RunnableScript(settings, script))
    ensures o.Done? ==> script.updates.Some?
  {
    o := provider.db.Call();
    if o.Done? {
      if script.updates.None? {
        provider.db.Record(Faulted);
        return Threw;
      }
      o := RunUpdates(provider, settings, script, script.updates.value, held, at);
    }
  }

  /** Open the stream of a script; nothing is open if that throws. */
  method OpenStream(provider: TransactionProvider, ghost held: Held) returns (o: Outcome)
    requires provider.Ready(held) && !held.stream && !provider.db.process.pc.Over()
    modifies provider.db
    ensures provider.db.Stayed(o)
    ensures o.Done? ==> provider.Ready(held.(stream := true))
    ensures o.Threw? ==> provider.Valid(held.After(o))
    ensures provider.db.faults == old(provider.db.faults) + if o.Done? then 0 else 1
  {
    o := provider.db.Call();
    if o.Done? {
      provider.db.Record(Opened);
    }
  }

  /** Run the opened script, and close it whether or not the run threw. */
  method RunAndClose(provider: TransactionProvider, settings: Settings, script: Updates,
                     ghost held: Held, ghost at: nat)
    returns (o: Outcome)
    requires provider.Ready(held.(stream := true)) && !held.stream && provider.db.process.pc == Checking(at, 0)
    requires provider.db.plan.settings == settings && Ahead(provider.db.plan, at, TasksOfScript(script))
    modifies provider, provider.db
    ensures provider.db.Went(o, Checking(at + StepsInScript(script), 0))
    ensures o.Done? ==> provider.Ready(held)
    ensures o.Threw? ==> provider.Valid(held.After(o))
    ensures provider.db.Blames(o, RunnableScript(settings, script))
    ensures o.Done? ==> script.updates.Some?
  {
    o := RunScript(provider, settings, script, held.(stream := true), at);
    if !o.Died? {
      provider.db.Record(Closed);
    }
  }

  /** One script from its stream. */
  method RunStream(provider: TransactionProvider, settings: Settings, script: Updates,
                   ghost held: Held, ghost at: nat)
    returns (o: Outcome)
    requires provider.Ready(held) && !held.stream && provider.db.process.pc == Checking(at, 0)
    requires provider.db.plan.settings == settings && Ahead(provider.db.plan, at, TasksOfScript(script))
    modifies provider, provider.db
    ensures provider.db.Went(o, Checking(at + StepsInScript(script), 0))
    ensures o.Done? ==> provider.Ready(held)
    ensures o.Threw? ==> provider.Valid(held.After(o))
    ensures provider.db.Blames(o, RunnableScript(settings, script))
    ensures o.Done? ==> script.updates.Some?
  {
    o := OpenStream(provider, held);
    if o.Done? {
      o := RunAndClose(provider, settings, script, held, at);
    }
  }

  ghost predicate Runnable(settings: Settings, scripts: seq<Updates>) {
    forall k {:trigger RunnableScript(settings, scripts[k])} ::
      0 <= k < |scripts| ==> RunnableScript(settings, scripts[k])
  }

  lemma {:induction false} ScriptAhead(plan: Plan, scripts: seq<Updates>, k: nat)
    requires k < |scripts| && plan.tasks == TasksOfScripts(scripts)
    ensures Ahead(plan, StepsInScripts(scripts, k), TasksOfScript(scripts[k]))
    ensures AllRunnable(plan.settings, plan.tasks) ==> AllRunnable(plan.settings, TasksOfScript(scripts[k]))
  {
    ScriptsCount(scripts, k);
    ScriptsNext(scripts, k);
    ScriptsBefore(scripts, k + 1);
    assert Ahead(plan, 0, plan.tasks) by {
      assert forall k: nat :: k < |plan.tasks| ==> AheadAt(plan, 0, plan.tasks, k);
    }
    PartAhead(plan, 0, plan.tasks, TasksOfScripts(scripts[..k]), TasksOfScript(scripts[k]));
  }

  /** Scripts with updates can be run if all their steps can. */
  lemma {:induction false} RunnableByTasks(plan: Plan, scripts: seq<Updates>)
    requires plan.tasks == TasksOfScripts(scripts) && AllRunnable(plan.settings, plan.tasks)
    requires forall k :: 0 <= k < |scripts| ==> scripts[k].updates.Some?
    ensures Runnable(plan.settings, scripts)
  {
    forall k | 0 <= k < |scripts|
      ensures RunnableScript(plan.settings, scripts[k])
    {
      ScriptAhead(plan, scripts, k);
    }
  }

  /** The first n scripts have updates. */
  predicate HaveUpdates(scripts: seq<Updates>, n: nat)
    requires n <= |scripts|
  {
    n == 0 || (HaveUpdates(scripts, n - 1) && scripts[n - 1].updates.Some?)
  }

  lemma {:induction false} AllHaveUpdates(scripts: seq<Updates>, n: nat)
    requires n <= |scripts| && HaveUpdates(scripts, n)
    ensures forall k :: 0 <= k < n ==> scripts[k].updates.Some?
  {
    if n > 0 {
      AllHaveUpdates(scripts, n - 1);
    }
  }

  /** The next script of the list. */
  method RunNextScript(provider: TransactionProvider, settings: Settings, scripts: seq<Updates>, k: nat,
                       ghost held: Held)
    returns (o: Outcome)
    requires k < |scripts| && provider.Ready(held) && !held.stream
    requires provider.db.process.pc == Checking(StepsInScripts(scripts, k), 0)
    requires provider.db.plan == Plan(settings, TasksOfScripts(scripts))
    modifies provider, provider.db
    ensures provider.db.Went(o, Checking(StepsInScripts(scripts, k + 1), 0))
    ensures o.Done? ==> provider.Ready(held)
    ensures o.Threw? ==> provider.Valid(held.After(o))
    ensures provider.db.Blames(o, Runnable(settings, scripts))
    ensures o.Done? ==> scripts[k].updates.Some?
  {
    ScriptAhead(provider.db.plan, scripts, k);
    o := RunStream(provider, settings, scripts[k], held, StepsInScripts(scripts, k));
    assert Runnable(settings, scripts) ==> RunnableScript(settings, scripts[k]);
  }

  /** All steps are behind the updater. */
  ghost method LeaveScripts(db: Database, scripts: seq<Updates>)
    requires db.Recorded() && db.process.pc == Checking(StepsInScripts(scripts, |scripts|), 0)
    requires db.plan.tasks == TasksOfScripts(scripts)
    modifies db`process, db`history
    ensures db.Recorded() && db.process == old(db.process).(pc := Leaving(false))
  {
    AllStepsCount(scripts);
    db.Goes(EndScripts, Leaving(false));
  }

  /** The installer script first, then the registered ones, each opened only when its turn comes. */
  method RunScripts(provider: TransactionProvider, settings: Settings, scripts: seq<Updates>, ghost held: Held)
    returns (o: Outcome)
    requires provider.Ready(held) && !held.stream && provider.db.process.pc == Checking(0, 0)
    requires provider.db.plan == Plan(settings, TasksOfScripts(scripts))
    modifies provider, provider.db
    ensures provider.db.Went(o, Leaving(false))
    ensures o.Done? ==> provider.Ready(held)
    ensures o.Threw? ==> provider.Valid(held.After(o))
    ensures provider.db.Blames(o, Runnable(settings, scripts))
    ensures o.Done? ==> HaveUpdates(scripts, |scripts|)
  {
    var db := provider.db;
    o := Done;
    for k := 0 to |scripts|
      invariant provider.Ready(held) && o == Done && db.faults == old(db.faults) && db.Kept()
      invariant db.process == old(db.process).(pc := Checking(StepsInScripts(scripts, k), 0))
      invariant HaveUpdates(scripts, k)
    {
      o := RunNextScript(provider, settings, scripts, k, held);
      if !o.Done? {
        return;
      }
    }
    LeaveScripts(db, scripts);
  }

  // ------------------------------------------------------------------ upgrade

  /** How an observed upgrade ended: normally, with an exception, with the death of the
      process, or not yet because it still waits for the lock. */
  datatype Exit = Upgraded | UpgradeFailed | ProcessDied | StillWaiting

  ghost predicate Shows(exit: Exit, pc: Pc) {
    match exit
    case Upgraded => pc.Finished?
    case UpgradeFailed => pc.Failed?
    case ProcessDied => pc.Crashed?
    case StillWaiting => pc.Waiting?
  }

  lemma {:induction false} ReliableHasNoFaults(db: Database)
    requires db.Recorded()
    ensures db.Reliable() ==> db.faults == 0
  {
    if db.Reliable() {
      NoFaults(db.outcome, db.calls);
    }
  }

  /** The upgrade ended by releasing the lock; and so the row, if there is one, lies in the past. */
  ghost predicate LeftFree(db: Database)
    reads db
  {
    && db.LastMove(Release)
    && (db.process.locked && HasLockRow(db.committed, LOCK_ID) ==>
          Expiration(db.committed, LOCK_ID) < db.committed.now)
  }

  /** The scripts, and then the release of what was acquired, however the scripts ended. */
  method UpgradeAndRelease(provider: TransactionProvider, locks: DatabaseLocks.DatabaseLockService, settings: Settings,
                           scripts: seq<Updates>, w: DatabaseLocks.Wait, ghost held: Held)
    returns (exit: Exit)
    requires locks.databaseLock.db == provider.db && held.IsFree() && provider.Ready(held.(lock := w.locked))
    requires provider.db.process.pc == Checking(0, 0) && provider.db.process.locked == w.locked
    requires provider.db.plan == Plan(settings, TasksOfScripts(scripts))
    modifies provider, provider.db
    ensures provider.db.Kept() && !exit.StillWaiting? && Shows(exit, provider.db.process.pc)
    ensures !exit.ProcessDied? ==> provider.Valid(held.(failing := exit.UpgradeFailed?))
    ensures exit.Upgraded? ==> provider.db.pending.None? && provider.db.faults == old(provider.db.faults)
    ensures exit.Upgraded? ==> HaveUpdates(scripts, |scripts|)
    ensures exit.Upgraded? ==> LeftFree(provider.db)
    ensures provider.db.faults == old(provider.db.faults) ==>
      LeftFree(provider.db) && !exit.ProcessDied? && (exit.UpgradeFailed? ==> !Runnable(settings, scripts))
  {
    var db := provider.db;
    ghost var now := held.(lock := w.locked);
    var o := RunScripts(provider, settings, scripts, now);
    if o.Died? {
      return ProcessDied;
    }
    if o.Threw? {
      db.Goes(Abort, Leaving(true));
    }
    var r := locks.ReleaseLock(w, now.After(o));
    exit := if r.Died? then ProcessDied else if r.Threw? || o.Threw? then UpgradeFailed else Upgraded;
  }

  /** What is inside the try block of an upgrade. */
  method UpgradeUnderLock(provider: TransactionProvider, locks: DatabaseLocks.DatabaseLockService, settings: Settings,
                          scripts: seq<Updates>, patience: nat, ghost held: Held)
    returns (exit: Exit)
    requires locks.databaseLock.db == provider.db && provider.Ready(held) && held.IsFree()
    requires provider.db.process == START && provider.db.plan == Plan(settings, TasksOfScripts(scripts))
    modifies provider, provider.db
    ensures provider.db.Kept() && Shows(exit, provider.db.process.pc)
    ensures !exit.ProcessDied? ==> provider.Valid(held.(failing := exit.UpgradeFailed?))
    ensures exit.Upgraded? || exit.StillWaiting? ==> provider.db.pending.None?
    ensures exit.Upgraded? || exit.StillWaiting? ==> provider.db.faults == old(provider.db.faults)
    ensures exit.Upgraded? ==> HaveUpdates(scripts, |scripts|)
    ensures exit.Upgraded? ==> LeftFree(provider.db)
    ensures provider.db.faults == old(provider.db.faults) && !exit.StillWaiting? ==>
      LeftFree(provider.db) && (exit.UpgradeFailed? ==> !Runnable(settings, scripts))
    ensures provider.db.faults == old(provider.db.faults) ==> !exit.ProcessDied?
    ensures var db := old(provider.db.committed);
      Alone(provider.db.rivals) ==>
        && (!DatabaseLocks.Blocked(db, patience) ==> !exit.StillWaiting?)
        && (db.locks.Some? && !HasLockRow(db, LOCK_ID) ==> !exit.Upgraded?)
  {
    var o, w;
    o, w := locks.AcquireLock(patience, held);
    match o
    case Threw => exit := UpgradeFailed;
    case Died => exit := ProcessDied;
    case Done =>
      exit := StillWaiting;
      if w.entered {
        exit := UpgradeAndRelease(provider, locks, settings, scripts, w, held);
      }
  }

  /** One upgrade, on a connection without an open transaction. Whatever throws, wherever
      the process dies, and whatever rivals do in between:
      - the history leads from the old database to the new one, by moves of the machine and by
        what rivals and the clock may do, and the exit tells where the machine ended;
      - the trace has kept the protocol, so nothing was begun after the first thing that threw,
        and unless the process died nothing is held any more;
      - without faults, runnable scripts are upgraded to the end once the lock is acquired;
      - the lock is free after an upgrade that succeeded, and after one that failed for its scripts only. */
  method ExecuteUpgrade(provider: TransactionProvider, locks: DatabaseLocks.DatabaseLockService, settings: Settings,
                        installer: Updates, scripts: seq<Updates>, patience: nat, ghost held: Held)
    returns (exit: Exit)
    requires locks.databaseLock.db == provider.db
    requires provider.Valid(held) && held.IsFree() && provider.db.pending.None?
    requires provider.db.plan == Plan(settings, TasksOfScripts([installer] + scripts))
    modifies provider, provider.db
    ensures provider.db.Recorded() && provider.db.start == Config(START, old(provider.db.committed))
    ensures Shows(exit, provider.db.process.pc)
    ensures exit.ProcessDied? ==>
      State(provider.db.trace).Some? && State(provider.db.trace).value.run == held.run + 1
    ensures !exit.ProcessDied? ==>
      provider.Valid(IDLE.(run := held.run + 1, failing := exit.UpgradeFailed?))
    ensures exit.Upgraded? || exit.StillWaiting? ==> provider.db.pending.None?
    ensures exit.Upgraded? || exit.StillWaiting? ==> provider.db.faults == old(provider.db.faults)
    ensures provider.db.faults == old(provider.db.faults) && Runnable(settings, [installer] + scripts) ==>
      exit.Upgraded? || exit.StillWaiting?
    ensures provider.db.Reliable() ==> provider.db.faults == old(provider.db.faults)
    ensures exit.Upgraded? ==>
      installer.updates.Some? && forall k :: 0 <= k < |scripts| ==> scripts[k].updates.Some?
    ensures exit.Upgraded? ==> LeftFree(provider.db)
    ensures provider.db.faults == old(provider.db.faults) && exit.UpgradeFailed? ==> LeftFree(provider.db)
    ensures var db := old(provider.db.committed);
      Alone(provider.db.rivals) ==>
        && (!DatabaseLocks.Blocked(db, patience) ==> !exit.StillWaiting?)
        && (db.locks.Some? && !HasLockRow(db, LOCK_ID) ==> !exit.Upgraded?)
  {
    var db := provider.db;
    ReliableHasNoFaults(db);
    db.Record(Started);
    db.Begin();
    exit := UpgradeUnderLock(provider, locks, settings, [installer] + scripts, patience, IDLE.(run := held.run + 1));
    ReliableHasNoFaults(db);
    if exit.Upgraded? {
      AllHaveUpdates([installer] + scripts, |scripts| + 1);
    }
    assert ([installer] + scripts)[0] == installer;
    assert forall k :: 0 <= k < |scripts| ==> scripts[k] == ([installer] + scripts)[k + 1];
  }
}
