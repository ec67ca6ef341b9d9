/**
 The bound on repeats is reached: a run that dies between executing a step and marking
 it makes the next run execute the step again, as often as that happens.
 */
module RepeatBound {
  import opened MarkStore
  import opened Migration
  import opened UpgradeMachine
  import opened History
  import opened RepeatedRuns

  /** Nobody holds the lock, or there is none. */
  predicate CanEnter(db: Shared) {
    db.locks.None? || LockFree(db, LOCK_ID)
  }

  lemma {:induction false} Enters(plan: Plan, a: Config, db: Shared) returns (p: Process, db': Shared)
    requires CanEnter(db) && Reaches(plan, a, Config(START, db))
    ensures Reaches(plan, a, At(Config(p, db'), Checking(0, 0)))
    ensures db'.content == db.content && p.locked == db.locks.Some?
    ensures if db.locks.Some? then HasLockRow(db', LOCK_ID) else db'.locks.None?
  {
    var b := Config(START, db);
    if db.locks.None? {
      p, db' := Process(Checking(0, 0), false, 0), db;
      ReachesStep(plan, a, b, SkipLock, At(Config(p, db'), Checking(0, 0)));
    } else {
      p, db' := Entered(db), Acquired(db, LOCK_ID, EXPIRATION_MINUTES);
      ReachesStep(plan, a, b, TryLock, At(Config(p, db'), Checking(0, 0)));
    }
  }

  /** A step that is skipped or marked is passed over. */
  lemma {:induction false} IsPassedOver(plan: Plan, m0: nat, base: seq<Entry>, h: seq<Attempt>,
                                        p: Process, db: Shared, i: nat)
    requires Plain(plan, m0, base) && Explained(plan, m0, base, db.content, h) && i < m0 + Marks(h)
    ensures JudgeStep(plan, At(Config(p, db), Checking(i, 0)), At(Config(p, db), Checking(i + 1, 0)))
  {
    if i < Skipped(plan.tasks) {
      assert NeverMet(plan, m0, base, i);
    } else {
      assert Guarded(plan.tasks[i]);
      IsExecutedMeaning(db.content.marks, plan.tasks[i].key);
    }
  }

  lemma {:induction false} PassesOver(plan: Plan, m0: nat, base: seq<Entry>, h: seq<Attempt>,
                                      a: Config, p: Process, db: Shared, i: nat)
    requires Plain(plan, m0, base) && Explained(plan, m0, base, db.content, h) && i <= m0 + Marks(h)
    requires Reaches(plan, a, At(Config(p, db), Checking(0, 0)))
    ensures Reaches(plan, a, At(Config(p, db), Checking(i, 0)))
  {
    if i > 0 {
      PassesOver(plan, m0, base, h, a, p, db, i - 1);
      IsPassedOver(plan, m0, base, h, p, db, i - 1);
      ReachesStep(plan, a, At(Config(p, db), Checking(i - 1, 0)), UpgradeMachine.Judge,
                  At(Config(p, db), Checking(i, 0)));
    }
  }

  /** The first unmarked step is let through to its handler. */
  lemma {:induction false} LetsThrough(plan: Plan, a: Config, p: Process, db: Shared, m: nat)
    requires Orderly(plan) && MarkedUpTo(plan, db.content.marks, m) && m < |plan.tasks|
    requires Reaches(plan, a, At(Config(p, db), Checking(m, 0)))
    ensures Reaches(plan, a, At(Config(p, db), Running(m, Acceptor(plan, m, 0), 0)))
  {
    assert Guarded(plan.tasks[m]) && OneAcceptor(plan, m);
    IsExecutedMeaning(db.content.marks, plan.tasks[m].key);
    ReachesStep(plan, a, At(Config(p, db), Checking(m, 0)), UpgradeMachine.Judge, At(Config(p, db), Checking(m, 1)));
    ReachesStep(plan, a, At(Config(p, db), Checking(m, 1)), Accept, At(Config(p, db), Choosing(m, 0)));
    var h := Acceptor(plan, m, 0);
    FindsHandler(plan, a, p, db, m, h);
    ReachesStep(plan, a, At(Config(p, db), Choosing(m, h)), Take, At(Config(p, db), Running(m, h, 0)));
  }

  lemma {:induction false} FindsHandler(plan: Plan, a: Config, p: Process, db: Shared, m: nat, h: nat)
    requires m < |plan.tasks| && h <= Acceptor(plan, m, 0)
    requires Reaches(plan, a, At(Config(p, db), Choosing(m, 0)))
    ensures Reaches(plan, a, At(Config(p, db), Choosing(m, h)))
  {
    if h > 0 {
      FindsHandler(plan, a, p, db, m, h - 1);
      ReachesStep(plan, a, At(Config(p, db), Choosing(m, h - 1)), Pass, At(Config(p, db), Choosing(m, h)));
    }
  }

  function WithUnits(plan: Plan, db: Shared, m: nat, units: seq<Unit>): Shared
    requires m < |plan.tasks|
  {
    db.(content := db.content.(log := db.content.log + EntriesOfUnits(plan.tasks[m].key, units)))
  }

  lemma {:induction false} Commits(plan: Plan, a: Config, p: Process, db: Shared, m: nat, h: nat, units: seq<Unit>)
    requires Part(plan, m, units) && Reaches(plan, a, At(Config(p, db), Running(m, h, 0)))
    ensures Reaches(plan, a, At(Config(p, WithUnits(plan, db, m, units)), Running(m, h, |units|)))
  {
    if units == [] {
      assert db.content.log + [] == db.content.log;
    } else {
      var n := |units| - 1;
      Commits(plan, a, p, db, m, h, units[..n]);
      var before, after := WithUnits(plan, db, m, units[..n]), WithUnits(plan, db, m, units);
      assert after.content.log == before.content.log + Entries(plan.tasks[m].key, units[n]);
      ReachesStep(plan, a, At(Config(p, before), Running(m, h, n)), CommitUnit(units[n]),
                  At(Config(p, after), Running(m, h, n + 1)));
    }
  }

  /** Once with its handler, the step may be executed in full; and then the process dies. */
  lemma {:induction false} DiesWithUnits(plan: Plan, a: Config, p: Process, db: Shared, m: nat, units: seq<Unit>)
    returns (after: Config)
    requires m < |plan.tasks| && Whole(plan, m, units)
    requires Reaches(plan, a, At(Config(p, db), Running(m, Acceptor(plan, m, 0), 0)))
    ensures Reaches(plan, a, after) && after.process.pc == Crashed
    ensures after.db.content == WithUnits(plan, db, m, units).content
  {
    var handler, done := Acceptor(plan, m, 0), WithUnits(plan, db, m, units);
    Commits(plan, a, p, db, m, handler, units);
    ReachesStep(plan, a, At(Config(p, done), Running(m, handler, |units|)), Complete,
                At(Config(p, done), Marking(m, handler)));
    after := At(Config(p, done), Crashed);
    ReachesStep(plan, a, At(Config(p, done), Marking(m, handler)), Crash, after);
  }

  /** A run that executes the first unmarked step in full and dies before marking it. */
  lemma {:induction false} DiesBeforeMark(plan: Plan, m0: nat, base: seq<Entry>, h: seq<Attempt>, db: Shared,
                                          units: seq<Unit>)
    returns (after: Config)
    requires Plain(plan, m0, base) && Explained(plan, m0, base, db.content, h) && CanEnter(db)
    requires Whole(plan, m0 + Marks(h), units)
    ensures Reaches(plan, Config(START, db), after) && after.process.pc == Crashed
    ensures after.db.content == WithUnits(plan, db, m0 + Marks(h), units).content
  {
    var m := m0 + Marks(h);
    var a := Config(START, db);
    ReachesSelf(plan, a);
    var p, db' := Enters(plan, a, db);
    PassesOver(plan, m0, base, h, a, p, db', m);
    LetsThrough(plan, a, p, db', m);
    after := DiesWithUnits(plan, a, p, db', m, units);
  }

  /** The same commands n times over. */
  function Times(entries: seq<Entry>, n: nat): seq<Entry> {
    if n == 0 then [] else Times(entries, n - 1) + entries
  }

  /** What these transactions of step m commit. */
  function StepLog(plan: Plan, m: nat, units: seq<Unit>): seq<Entry>
    requires m < |plan.tasks|
  {
    EntriesOfUnits(plan.tasks[m].key, units)
  }

  /** Step m attempted n times, each time in full, and never marked. */
  function Repeats(m: nat, units: seq<Unit>, n: nat): (h: seq<Attempt>)
    ensures |h| == n
  {
    if n == 0 then [] else Repeats(m, units, n - 1) + [Attempt(m, units, false)]
  }

  lemma {:induction false} RepeatsAreInOrder(plan: Plan, m: nat, units: seq<Unit>, n: nat)
    requires Whole(plan, m, units)
    ensures var h := Repeats(m, units, n);
      InOrder(plan, m, h) && Marks(h) == 0 && Log(plan, m, h) == Times(StepLog(plan, m, units), n)
  {
    if n > 0 {
      RepeatsAreInOrder(plan, m, units, n - 1);
      OneMoreAttempt(plan, m, Repeats(m, units, n - 1), Attempt(m, units, false));
    }
  }

  lemma {:induction false} TimesNext(log: seq<Entry>, entries: seq<Entry>, n: nat)
    ensures log + Times(entries, n) + entries == log + Times(entries, n + 1)
  {
  }

  /** The next run that dies, once the dead holder's lease has run out. */
  lemma {:induction false} DiesAgain(plan: Plan, m0: nat, base: seq<Entry>, h: seq<Attempt>, last: Shared,
                                     units: seq<Unit>)
    returns (run: Run)
    requires Plain(plan, m0, base) && Explained(plan, m0, base, last.content, h)
    requires Whole(plan, m0 + Marks(h), units)
    requires last.locks.None? || HasLockRow(last, LOCK_ID)
    ensures Elapse(last, run.before) && (CanEnter(last) ==> run.before == last)
    ensures Reaches(plan, Config(START, run.before), run.after) && run.after.process.pc == Crashed
    ensures run.after.db.content == WithUnits(plan, last, m0 + Marks(h), units).content
  {
    var later := last.(now := if HasLockRow(last, LOCK_ID) && Expiration(last, LOCK_ID) >= last.now
                              then Expiration(last, LOCK_ID) + 1 else last.now);
    var after := DiesBeforeMark(plan, m0, base, h, later, units);
    run := Run(later, after);
  }

  function Last(db: Shared, runs: seq<Run>): Shared {
    if runs == [] then db else runs[|runs| - 1].after.db
  }

  /** These runs, the first of them on db, all died, having executed the step in full each
      time, and marked nothing. */
  ghost predicate AllDied(plan: Plan, db: Shared, m: nat, units: seq<Unit>, runs: seq<Run>)
    requires m < |plan.tasks|
  {
    && OneAfterAnother(plan, runs) && (runs != [] ==> runs[0].before == db) && Aborted(runs) == |runs|
    && Last(db, runs).content == db.content.(log := db.content.log + Times(StepLog(plan, m, units), |runs|))
  }

  lemma {:induction false} OneMoreDeath(plan: Plan, db: Shared, m: nat, units: seq<Unit>, last: Shared, n: nat)
    returns (run: Run)
    requires Plain(plan, m, db.content.log) && MarkedUpTo(plan, db.content.marks, m) && Whole(plan, m, units)
    requires last.content == db.content.(log := db.content.log + Times(StepLog(plan, m, units), n))
    requires last.locks.None? || HasLockRow(last, LOCK_ID)
    ensures Elapse(last, run.before) && (CanEnter(last) ==> run.before == last)
    ensures Reaches(plan, Config(START, run.before), run.after) && run.after.process.pc == Crashed
    ensures run.after.db.content == db.content.(log := db.content.log + Times(StepLog(plan, m, units), n + 1))
  {
    RepeatsAreInOrder(plan, m, units, n);
    run := DiesAgain(plan, m, db.content.log, Repeats(m, units, n), last, units);
    TimesNext(db.content.log, StepLog(plan, m, units), n);
  }

  lemma {:induction false} StillEnterable(plan: Plan, db: Shared, m: nat, units: seq<Unit>, runs: seq<Run>)
    requires m < |plan.tasks| && CanEnter(db) && AllDied(plan, db, m, units, runs)
    ensures Last(db, runs).locks.None? || HasLockRow(Last(db, runs), LOCK_ID)
  {
    if runs != [] {
      StaysEnterable(plan, runs, |runs| - 1);
    }
  }

  lemma {:induction false} NextDeath(plan: Plan, db: Shared, m: nat, units: seq<Unit>, earlier: seq<Run>)
    returns (runs: seq<Run>)
    requires Plain(plan, m, db.content.log) && MarkedUpTo(plan, db.content.marks, m)
    requires Whole(plan, m, units) && CanEnter(db)
    requires AllDied(plan, db, m, units, earlier)
    ensures |runs| == |earlier| + 1 && AllDied(plan, db, m, units, runs)
  {
    StillEnterable(plan, db, m, units, earlier);
    var run := OneMoreDeath(plan, db, m, units, Last(db, earlier), |earlier|);
    OneMoreRun(plan, earlier, run);
    runs := earlier + [run];
  }

  /** However many runs die that way, the first unmarked step is executed in full by each of
      them: n aborted runs, n executions, and still no mark. Given are the transactions that a
      complete execution commits. */
  lemma {:induction false} EachAbortRepeats(plan: Plan, db: Shared, m: nat, units: seq<Unit>, n: nat)
    returns (runs: seq<Run>)
    requires Plain(plan, m, db.content.log) && MarkedUpTo(plan, db.content.marks, m)
    requires Whole(plan, m, units) && CanEnter(db)
    ensures |runs| == n && AllDied(plan, db, m, units, runs)
  {
    runs := [];
    if n == 0 {
      assert db.content.log + [] == db.content.log;
    } else {
      runs := EachAbortRepeats(plan, db, m, units, n - 1);
      runs := NextDeath(plan, db, m, units, runs);
    }
  }

  lemma {:induction false} StaysEnterable(plan: Plan, runs: seq<Run>, k: nat)
    requires OneAfterAnother(plan, runs) && k < |runs| && CanEnter(runs[0].before)
    ensures runs[k].after.db.locks.None? || HasLockRow(runs[k].after.db, LOCK_ID)
  {
    if k > 0 {
      StaysEnterable(plan, runs, k - 1);
      assert Elapse(runs[k - 1].after.db, runs[k].before);
    }
    assert Reaches(plan, Config(START, runs[k].before), runs[k].after);
    var path :| Connects(plan, Config(START, runs[k].before), path, runs[k].after);
    LockStays(plan, Config(START, runs[k].before), path, runs[k].after);
  }
}
