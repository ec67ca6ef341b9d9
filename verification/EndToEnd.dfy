/** The upgrade method and the theorems about its machine, put together. */
module EndToEnd {
  import opened Wrappers
  import opened Migration
  import opened UpgradeMachine
  import opened History
  import opened RepeatedRuns
  import opened Idempotence
  import opened UpgradeEffects
  import opened Sessions
  import opened Protocol
  import opened Driver
  import opened DatabaseUpdates

  // -------------------------------------------------------------- one upgrade

  /** What a history without rivals says of the lock. */
  lemma {:induction false} LockOfSolo(db: Database)
    requires db.Recorded() && Alone(db.rivals) && db.start.process == START
    ensures HasLockRow(db.start.db, LOCK_ID) <==> HasLockRow(db.committed, LOCK_ID)
    ensures db.start.db.locks.None? <==> db.committed.locks.None?
    ensures db.process.locked ==> HasLockRow(db.committed, LOCK_ID)
    ensures db.process.pc.Finished? ==> (db.process.locked <==> db.committed.locks.Some?)
  {
    var end := Config(db.process, db.committed);
    AloneReaches(db.plan, db.rivals, db.start, db.history, |db.history|);
    var path :| Connects(db.plan, db.start, path, end);
    LockStays(db.plan, db.start, path, end);
    EntersByLock(db.plan, db.start, path, end);
  }

  /** An upgrade that succeeded with nobody else about has left the lock free for the next one, however
      little patience that has. */
  lemma {:induction false} LeavesLockFree(db: Database, patience: nat)
    requires db.Recorded() && Alone(db.rivals) && db.start.process == START
    requires db.process.pc.Finished? && LeftFree(db)
    ensures db.start.db.locks.Some? ==> LockFree(db.committed, LOCK_ID)
    ensures !DatabaseLocks.Blocked(db.committed, patience)
  {
    LockOfSolo(db);
  }

  /** An upgrade that nobody else interferes with, of a plain script of which m0 steps are
      marked. If it succeeds, exactly the missing steps were executed, once each and in
      order, and all are marked. If not, a prefix of them is marked, and the log holds one
      attempt for each, and at most one more, possibly partial. It does succeed if every call
      returns, the scripts can be run and nothing keeps the lock from being taken; and then the lock
      is free again. */
  method UpgradeAlone(provider: TransactionProvider, locks: DatabaseLocks.DatabaseLockService, settings: Settings,
                      installer: Updates, scripts: seq<Updates>, patience: nat, ghost held: Held, ghost m0: nat)
    returns (exit: Exit, ghost h: seq<Attempt>, ghost does: seq<seq<Unit>>)
    requires locks.databaseLock.db == provider.db && Alone(provider.db.rivals)
    requires provider.Valid(held) && held.IsFree() && provider.db.pending.None?
    requires provider.db.plan == Plan(settings, TasksOfScripts([installer] + scripts))
    requires Plain(provider.db.plan, m0, provider.db.committed.content.log)
    requires MarkedUpTo(provider.db.plan, provider.db.committed.content.marks, m0)
    modifies provider, provider.db
    ensures Explained(provider.db.plan, m0, old(provider.db.committed).content.log, provider.db.committed.content, h)
    ensures |h| <= Marks(h) + if exit.Upgraded? || exit.StillWaiting? then 0 else 1
    ensures var plan := provider.db.plan;
      exit.Upgraded? ==>
        DoneOnce(plan, m0, old(provider.db.committed).content.log, provider.db.committed.content, |plan.tasks|, does)
    ensures var db := old(provider.db.committed);
      provider.db.Reliable() && !DatabaseLocks.Blocked(db, patience) && Runnable(settings, [installer] + scripts) ==>
        exit.Upgraded?
    ensures var db := old(provider.db.committed);
      exit.Upgraded? && db.locks.Some? ==> LockFree(provider.db.committed, LOCK_ID)
  {
    var db := provider.db;
    ghost var before := db.committed;
    exit := ExecuteUpgrade(provider, locks, settings, installer, scripts, patience, held);
    RecordedReaches(db);
    if exit.Upgraded? {
      LeavesLockFree(db, patience);
    }
    h, does := OneRun(db.plan, m0, Run(before, Config(db.process, db.committed)));
  }

  lemma {:induction false} RecordedReaches(db: Database)
    requires db.Recorded() && Alone(db.rivals)
    ensures Reaches(db.plan, db.start, Config(db.process, db.committed))
  {
    AloneReaches(db.plan, db.rivals, db.start, db.history, |db.history|);
  }

  lemma {:induction false} OneRunKeeps(plan: Plan, m0: nat, run: Run) returns (h: seq<Attempt>)
    requires Plain(plan, m0, run.before.content.log) && Reaches(plan, Config(START, run.before), run.after)
    requires MarkedUpTo(plan, run.before.content.marks, m0)
    ensures Explained(plan, m0, run.before.content.log, run.after.db.content, h)
    ensures |h| == Marks(h) + Loose(h) && Placed(plan, run.after.process.pc, m0 + Marks(h), h)
    ensures Loose(h) <= if run.after.process.pc.Finished? || run.after.process.pc.Waiting? then 0 else 1
  {
    h := RunsKeep(plan, m0, [run]);
    AbortedOne(run);
    MarksAndLoose(h);
  }

  lemma {:induction false} OneRun(plan: Plan, m0: nat, run: Run) returns (h: seq<Attempt>, does: seq<seq<Unit>>)
    requires Plain(plan, m0, run.before.content.log) && Reaches(plan, Config(START, run.before), run.after)
    requires MarkedUpTo(plan, run.before.content.marks, m0)
    ensures Explained(plan, m0, run.before.content.log, run.after.db.content, h)
    ensures |h| <= Marks(h) + if run.after.process.pc.Finished? || run.after.process.pc.Waiting? then 0 else 1
    ensures run.after.process.pc.Finished? ==>
      DoneOnce(plan, m0, run.before.content.log, run.after.db.content, |plan.tasks|, does)
  {
    h := OneRunKeeps(plan, m0, run);
    does := [];
    if run.after.process.pc.Finished? {
      does := AllMarkedIsDone(plan, m0, run.before.content.log, run.after.db.content, h);
    }
  }

  lemma {:induction false} AbortedOne(run: Run)
    ensures Aborted([run]) == if run.after.process.pc.Finished? || run.after.process.pc.Waiting? then 0 else 1
  {
    assert [run][..0] == [];
  }

  // ---------------------------------------------------------- two in a row

  /** What a second upgrade may still do, told from the content that the first one left. */
  ghost predicate OnlyNewWork(plan: Plan, before: Content, after: Content) {
    && OnlyFromUnguarded(plan, before, after.log)
    && ((forall i :: !NewMark(plan, before, i)) ==> after.marks == before.marks)
    && ((forall i :: !NewChange(plan, before, i)) ==> after == before)
    && ((forall i: nat :: i < |plan.tasks| ==> Quiet(plan, before, i)) ==> after == before)
  }

  lemma {:induction false} SecondDoesOnlyNewWork(plan: Plan, db0: Shared, end1: Process, db1: Shared,
                                                 end2: Process, db2: Shared)
    requires GuardHandled(plan) && MarkStore.Valid(db0.content.marks) && end1.pc.Finished?
    requires Reaches(plan, Config(START, db0), Config(end1, db1))
    requires Reaches(plan, Config(START, db1), Config(end2, db2))
    ensures OnlyNewWork(plan, db1.content, db2.content)
  {
    var run1, run2 := Run(db0, Config(end1, db1)), Run(db1, Config(end2, db2));
    assert OneAfterAnother(plan, [run1, run2]);
    SecondUpgradeDoesNothing(plan, run1, run2);
    SecondUpgradeIff(plan, run1);
    if forall i: nat :: i < |plan.tasks| ==> Quiet(plan, db1.content, i) {
      GuardedUpgradeIsIdempotent(plan, run1, run2);
    }
  }

  /** Steps that are executed once only are asked for nothing that could raise. */
  lemma {:induction false} GuardedIsRunnable(plan: Plan)
    requires GuardHandled(plan) && forall i :: 0 <= i < |plan.tasks| ==> Guarded(plan.tasks[i])
    ensures AllRunnable(plan.settings, plan.tasks)
    ensures forall i: nat, before :: i < |plan.tasks| ==> Quiet(plan, before, i)
  {
    forall i | 0 <= i < |plan.tasks|
      ensures RunnableTask(plan.settings, plan.tasks[i])
    {
      var task := plan.tasks[i];
      forall p, content | p in task.preconditions.value
        ensures Preconditions.Judge(plan.settings.preconditionHandlers, task.key, p, content) != Raises
      {
        GuardVerdict(plan, task, content);
      }
    }
  }

  /** Two upgrades in a row, as an application does that upgrades at every start. If the
      first one succeeds, the second one executes no guarded step; it leaves the mark tables alone
      if no step is newly marked on the content between them, and everything if none changes
      anything there, or if all steps are guarded or stay unmet. And if every call returns, it succeeds
      again, provided the steps' preconditions never raise: as they cannot if all steps are guarded. */
  method UpgradeTwice(provider: TransactionProvider, locks: DatabaseLocks.DatabaseLockService, settings: Settings,
                      installer: Updates, scripts: seq<Updates>, patience: nat, ghost held: Held)
    returns (first: Exit, second: Exit, ghost between: Content)
    requires locks.databaseLock.db == provider.db && Alone(provider.db.rivals)
    requires provider.Valid(held) && held.IsFree() && provider.db.pending.None?
    requires provider.db.plan == Plan(settings, TasksOfScripts([installer] + scripts)) && GuardHandled(provider.db.plan)
    requires MarkStore.Valid(provider.db.committed.content.marks)
    modifies provider, provider.db
    ensures !first.Upgraded? ==> second == first && between == provider.db.committed.content
    ensures first.Upgraded? ==> OnlyNewWork(provider.db.plan, between, provider.db.committed.content)
    ensures first.Upgraded? && provider.db.Reliable() && AllRunnable(settings, provider.db.plan.tasks) ==>
      second.Upgraded?
    ensures var plan := provider.db.plan;
      first.Upgraded? && provider.db.Reliable() && (forall i :: 0 <= i < |plan.tasks| ==> Guarded(plan.tasks[i])) ==>
        second.Upgraded? && provider.db.committed.content == between
  {
    var db := provider.db;
    ghost var db0 := db.committed;
    first := ExecuteUpgrade(provider, locks, settings, installer, scripts, patience, held);
    ghost var end1, db1 := db.process, db.committed;
    between := db1.content;
    second := first;
    RecordedReaches(db);
    if first == Upgraded {
      LeavesLockFree(db, patience);
      if AllRunnable(settings, db.plan.tasks) {
        RunnableByTasks(db.plan, [installer] + scripts);
      }
      if forall i :: 0 <= i < |db.plan.tasks| ==> Guarded(db.plan.tasks[i]) {
        GuardedIsRunnable(db.plan);
      }
      second := ExecuteUpgrade(provider, locks, settings, installer, scripts, patience, IDLE.(run := held.run + 1));
      RecordedReaches(db);
      SecondDoesOnlyNewWork(db.plan, db0, end1, db1, db.process, db.committed);
    }
  }

  // ----------------------------------------------------------- all together

  /** A session's upgrade, the database it started on, and how it ended. */
  ghost predicate IsUpgrade(plan: Plan, rivals: Rivalry, db: Shared, s: Session, exit: Exit) {
    && s.rivals == rivals && s.start == Config(START, db) && IsSession(plan, s)
    && Shows(exit, End(s).process.pc)
  }

  /** One upgrade by a session of its own. */
  method UpgradeOnce(rivals: Rivalry, outcome: nat -> Outcome, committed: Shared, settings: Settings,
                     installer: Updates, scripts: seq<Updates>, patience: nat, ghost plan: Plan)
    returns (exit: Exit, ghost s: Session)
    requires plan == Plan(settings, TasksOfScripts([installer] + scripts))
    ensures IsUpgrade(plan, rivals, committed, s, exit)
  {
    var db := new Database(rivals, outcome, committed, plan);
    var provider := new TransactionProvider(db);
    var databaseLock := new DatabaseLocks.DatabaseLock(db);
    var locks := new DatabaseLocks.DatabaseLockService(databaseLock);
    exit := ExecuteUpgrade(provider, locks, settings, installer, scripts, patience, IDLE);
    s := Session(db.rivals, db.start, db.history);
  }

  /** How many of the upgrades failed or died. */
  function Failures(exits: seq<Exit>): nat {
    if exits == [] then 0
    else Failures(exits[..|exits| - 1]) +
         if exits[|exits| - 1].UpgradeFailed? || exits[|exits| - 1].ProcessDied? then 1 else 0
  }

  ghost predicate AreUpgrades(plan: Plan, rivals: seq<Rivalry>, dbs: seq<Shared>, sessions: seq<Session>,
                              exits: seq<Exit>)
  {
    && |sessions| == |exits| == |rivals| == |dbs|
    && forall p {:trigger sessions[p]} {:trigger exits[p]} :: 0 <= p < |sessions| ==>
         IsUpgrade(plan, rivals[p], dbs[p], sessions[p], exits[p])
  }

  /** However the sessions' histories are woven into one order of events on one database, each
      step was executed once, plus at most one attempt per upgrade that failed or died; and all
      missing steps were executed and marked if any upgrade succeeded. */
  ghost predicate OnceHoweverWoven(plan: Plan, sessions: seq<Session>, exits: seq<Exit>) {
    forall m0, stages: seq<Stage>, turns: seq<Turn> ::
      Together(plan, m0, sessions, stages, turns) && RunOut(sessions, stages[|turns|]) ==>
      exists h :: OnceEach(plan, m0, stages[0].db.content.log, stages[|turns|].db.content, h, Failures(exits),
                           Upgraded in exits)
  }

  /** All sessions have had all their beats. */
  ghost predicate RunOut(sessions: seq<Session>, last: Stage) {
    OnStage(sessions, last) && forall p :: 0 <= p < |sessions| ==> last.at[p] == |sessions[p].history|
  }

  lemma {:induction false} FailuresAreDoomed(processes: seq<Process>, exits: seq<Exit>)
    requires |processes| == |exits|
    requires forall p :: 0 <= p < |exits| ==> Shows(exits[p], processes[p].pc)
    ensures DoomedCount(processes) == Failures(exits)
  {
    if exits != [] {
      FailuresAreDoomed(processes[..|exits| - 1], exits[..|exits| - 1]);
    }
  }

  lemma {:induction false} UpgradesOnce(plan: Plan, rivals: seq<Rivalry>, dbs: seq<Shared>, sessions: seq<Session>,
                                        exits: seq<Exit>, m0: nat, stages: seq<Stage>, turns: seq<Turn>)
    returns (h: seq<Attempt>)
    requires AreUpgrades(plan, rivals, dbs, sessions, exits)
    requires Together(plan, m0, sessions, stages, turns) && RunOut(sessions, stages[|turns|])
    ensures OnceEach(plan, m0, stages[0].db.content.log, stages[|turns|].db.content, h, Failures(exits),
                     Upgraded in exits)
  {
    var last := stages[|turns|];
    forall p | 0 <= p < |sessions|
      ensures Shows(exits[p], End(sessions[p]).process.pc)
      ensures GlobalOf(sessions, last).processes[p] == End(sessions[p]).process
    {
      assert IsUpgrade(plan, rivals[p], dbs[p], sessions[p], exits[p]);
    }
    FailuresAreDoomed(GlobalOf(sessions, last).processes, exits);
    h := TogetherOnce(plan, m0, sessions, stages, turns, Failures(exits));
  }

  lemma {:induction false} UpgradesAreWoven(plan: Plan, rivals: seq<Rivalry>, dbs: seq<Shared>, sessions: seq<Session>,
                                            exits: seq<Exit>)
    requires AreUpgrades(plan, rivals, dbs, sessions, exits)
    ensures OnceHoweverWoven(plan, sessions, exits)
  {
    forall m0, stages: seq<Stage>, turns: seq<Turn> |
      Together(plan, m0, sessions, stages, turns) && RunOut(sessions, stages[|turns|])
      ensures exists h :: OnceEach(plan, m0, stages[0].db.content.log, stages[|turns|].db.content, h, Failures(exits),
                                   Upgraded in exits)
    {
      var h := UpgradesOnce(plan, rivals, dbs, sessions, exits, m0, stages, turns);
    }
  }

  lemma {:induction false} OneMoreUpgrade(plan: Plan, rivals: seq<Rivalry>, dbs: seq<Shared>, sessions: seq<Session>,
                                          exits: seq<Exit>, rival: Rivalry, db: Shared, s: Session, exit: Exit)
    requires AreUpgrades(plan, rivals, dbs, sessions, exits) && IsUpgrade(plan, rival, db, s, exit)
    ensures AreUpgrades(plan, rivals + [rival], dbs + [db], sessions + [s], exits + [exit])
  {
    forall p | 0 <= p < |sessions| + 1
      ensures IsUpgrade(plan, (rivals + [rival])[p], (dbs + [db])[p], (sessions + [s])[p], (exits + [exit])[p])
    {
      if p < |sessions| {
        assert IsUpgrade(plan, rivals[p], dbs[p], sessions[p], exits[p]);
      }
    }
  }

  /** Any number of upgrades of one plan, each by a session of its own that expects anything its
      rivals may do; and then what holds if these rivals are the other ones. */
  method UpgradeTogether(rivals: seq<Rivalry>, outcomes: seq<nat -> Outcome>, dbs: seq<Shared>,
                         settings: Settings, installer: Updates, scripts: seq<Updates>, patience: nat,
                         ghost plan: Plan)
    returns (exits: seq<Exit>, ghost sessions: seq<Session>)
    requires |rivals| == |outcomes| == |dbs| && plan == Plan(settings, TasksOfScripts([installer] + scripts))
    ensures |exits| == |rivals|
    ensures AreUpgrades(plan, rivals, dbs, sessions, exits)
    ensures OnceHoweverWoven(plan, sessions, exits)
  {
    exits, sessions := [], [];
    for p := 0 to |rivals|
      invariant AreUpgrades(plan, rivals[..p], dbs[..p], sessions, exits)
    {
      var exit;
      ghost var s;
      exit, s := UpgradeOnce(rivals[p], outcomes[p], dbs[p], settings, installer, scripts, patience, plan);
      OneMoreUpgrade(plan, rivals[..p], dbs[..p], sessions, exits, rivals[p], dbs[p], s, exit);
      assert rivals[..p + 1] == rivals[..p] + [rivals[p]] && dbs[..p + 1] == dbs[..p] + [dbs[p]];
      exits, sessions := exits + [exit], sessions + [s];
    }
    assert rivals[..|rivals|] == rivals && dbs[..|rivals|] == dbs;
    UpgradesAreWoven(plan, rivals, dbs, sessions, exits);
  }
}
