/**
 Upgrades one after another on the same database, each of them cut off anywhere:
 what is marked, what was executed, and how often.
 */
module RepeatedRuns {
  import opened MarkStore
  import opened Migration
  import opened UpgradeMachine
  import opened History

  /** 1 where a run has used up, or is about to use up, its one unmarked attempt. */
  function Debt(pc: Pc): nat {
    match pc
    case Running(_, _, _) => 1
    case Marking(_, _) => 1
    case Leaving(failed) => if failed then 1 else 0
    case Failed => 1
    case Crashed => 1
    case _ => 0
  }

  lemma {:induction false} MoveAndDebt(plan: Plan, move: Move, c: Config, c': Config)
    requires Moves(plan, move, c, c')
    ensures Debt(c.process.pc) + (if move.Take? then 1 else 0) <= Debt(c'.process.pc) + (if move.Mark? then 1 else 0)
  {
  }

  /** The content is explained, with at most `credit` unmarked attempts apart from this run's own. */
  ghost predicate Owing(plan: Plan, m0: nat, base: seq<Entry>, credit: nat, c: Config, h: seq<Attempt>) {
    && Explained(plan, m0, base, c.db.content, h) && Placed(plan, c.process.pc, m0 + Marks(h), h)
    && Loose(h) <= credit + Debt(c.process.pc)
  }

  lemma {:induction false} MoveOwes(plan: Plan, m0: nat, base: seq<Entry>, move: Move, b: Config, c: Config,
                                    h: seq<Attempt>, credit: nat)
    returns (h': seq<Attempt>)
    requires Plain(plan, m0, base) && Owing(plan, m0, base, credit, b, h) && Moves(plan, move, b, c)
    ensures Owing(plan, m0, base, credit, c, h')
  {
    h' := MoveKeeps(plan, m0, base, move, b, c, h);
    MoveAndDebt(plan, move, b, c);
  }

  /** A run leaves at most one unmarked attempt behind, however it ends. */
  lemma {:induction false} SoloKeeps(plan: Plan, m0: nat, base: seq<Entry>, a: Config, path: seq<Config>, c: Config,
                                     h: seq<Attempt>, credit: nat) returns (h': seq<Attempt>)
    requires Plain(plan, m0, base) && Connects(plan, a, path, c) && Owing(plan, m0, base, credit, a, h)
    ensures Owing(plan, m0, base, credit, c, h')
    decreases |path|
  {
    if |path| == 1 {
      h' := h;
    } else {
      var before, b := PathBefore(plan, path);
      h' := SoloKeeps(plan, m0, base, a, before, b, h, credit);
      if move :| Moves(plan, move, b, c) {
        h' := MoveOwes(plan, m0, base, move, b, c, h', credit);
      }
    }
  }

  /** One run: the database before it, and the updater and the database when it was last seen. */
  datatype Run = Run(before: Shared, after: Config)

  /** Each run starts afresh, alone, some time after the one before it was cut off. */
  ghost predicate OneAfterAnother(plan: Plan, runs: seq<Run>) {
    && (forall k :: 0 <= k < |runs| ==> Reaches(plan, Config(START, runs[k].before), runs[k].after))
    && (forall k {:trigger runs[k]} :: 0 < k < |runs| ==> Elapse(runs[k - 1].after.db, runs[k].before))
  }

  /** The number of runs that neither finished nor are still waiting for the lock. */
  function Aborted(runs: seq<Run>): nat {
    if runs == [] then 0
    else Aborted(runs[..|runs| - 1]) +
         if runs[|runs| - 1].after.process.pc.Finished? || runs[|runs| - 1].after.process.pc.Waiting? then 0 else 1
  }

  lemma {:induction false} OneMoreRun(plan: Plan, runs: seq<Run>, run: Run)
    requires OneAfterAnother(plan, runs) && Reaches(plan, Config(START, run.before), run.after)
    requires runs != [] ==> Elapse(runs[|runs| - 1].after.db, run.before)
    ensures OneAfterAnother(plan, runs + [run])
    ensures Aborted(runs + [run]) ==
            Aborted(runs) + if run.after.process.pc.Finished? || run.after.process.pc.Waiting? then 0 else 1
  {
    var more := runs + [run];
    assert more[..|runs|] == runs;
    forall k {:trigger more[k]} | 0 < k < |more|
      ensures Elapse(more[k - 1].after.db, more[k].before)
    {
      assert k < |runs| ==> Elapse(runs[k - 1].after.db, runs[k].before);
    }
  }

  /** One more run keeps the explanation, and may leave one more unmarked attempt behind. */
  lemma {:induction false} RunKeeps(plan: Plan, m0: nat, base: seq<Entry>, run: Run, h: seq<Attempt>, credit: nat)
    returns (h': seq<Attempt>)
    requires Plain(plan, m0, base) && Reaches(plan, Config(START, run.before), run.after)
    requires Explained(plan, m0, base, run.before.content, h) && Loose(h) <= credit
    ensures Owing(plan, m0, base, credit, run.after, h')
  {
    var path :| Connects(plan, Config(START, run.before), path, run.after);
    h' := SoloKeeps(plan, m0, base, Config(START, run.before), path, run.after, h, credit);
  }

  lemma {:induction false} RunsBefore(plan: Plan, runs: seq<Run>)
    requires OneAfterAnother(plan, runs) && |runs| > 1
    ensures var init, run := runs[..|runs| - 1], runs[|runs| - 1];
      OneAfterAnother(plan, init) && Elapse(init[|init| - 1].after.db, run.before)
  {
    assert Elapse(runs[|runs| - 2].after.db, runs[|runs| - 1].before);
  }

  lemma {:induction false} RunsKeep(plan: Plan, m0: nat, runs: seq<Run>) returns (h: seq<Attempt>)
    requires runs != [] && Plain(plan, m0, runs[0].before.content.log) && OneAfterAnother(plan, runs)
    requires MarkedUpTo(plan, runs[0].before.content.marks, m0)
    ensures var last := runs[|runs| - 1].after;
      && Explained(plan, m0, runs[0].before.content.log, last.db.content, h)
      && Placed(plan, last.process.pc, m0 + Marks(h), h)
      && Loose(h) <= Aborted(runs)
  {
    var base := runs[0].before.content.log;
    var init, run := runs[..|runs| - 1], runs[|runs| - 1];
    h := [];
    if init != [] {
      RunsBefore(plan, runs);
      h := RunsKeep(plan, m0, init);
    }
    h := RunKeeps(plan, m0, base, run, h, Aborted(init));
  }

  /** Crash consistency: after any runs, each cut at any point, the marked keys are those of
      a prefix of the script, and the log consists of attempts in script order, at most one
      more than the newly marked steps per aborted run. */
  lemma {:induction false} CrashConsistency(plan: Plan, m0: nat, runs: seq<Run>) returns (h: seq<Attempt>)
    requires runs != [] && Plain(plan, m0, runs[0].before.content.log) && OneAfterAnother(plan, runs)
    requires MarkedUpTo(plan, runs[0].before.content.marks, m0)
    ensures Explained(plan, m0, runs[0].before.content.log, runs[|runs| - 1].after.db.content, h)
    ensures |h| <= Marks(h) + Aborted(runs)
  {
    h := RunsKeep(plan, m0, runs);
    MarksAndLoose(h);
  }

  /** If no run was aborted, every newly marked step was executed exactly once. */
  lemma {:induction false} ExactlyOnceWithoutAborts(plan: Plan, m0: nat, runs: seq<Run>)
    returns (m: nat, does: seq<seq<Unit>>)
    requires runs != [] && Plain(plan, m0, runs[0].before.content.log) && OneAfterAnother(plan, runs)
    requires MarkedUpTo(plan, runs[0].before.content.marks, m0) && Aborted(runs) == 0
    ensures var last := runs[|runs| - 1].after;
      && DoneOnce(plan, m0, runs[0].before.content.log, last.db.content, m, does)
      && (last.process.pc.Finished? ==> m == |plan.tasks|)
  {
    var h := RunsKeep(plan, m0, runs);
    does := AllMarkedIsDone(plan, m0, runs[0].before.content.log, runs[|runs| - 1].after.db.content, h);
    m := m0 + |h|;
  }

  /** Behind every newly marked step there is a complete attempt. */
  lemma {:induction false} MarkedStepsWereExecuted(plan: Plan, m0: nat, h: seq<Attempt>, step: nat)
    returns (a: Attempt)
    requires InOrder(plan, m0, h) && m0 <= step < m0 + Marks(h)
    ensures a in h && a.step == step && a.marked && Whole(plan, step, a.units)
  {
    var init, last := h[..|h| - 1], h[|h| - 1];
    if step < m0 + Marks(init) {
      a := MarkedStepsWereExecuted(plan, m0, init, step);
    } else {
      a := last;
    }
  }

  // ------------------------------------------------------------------ mark tables

  ghost predicate Sound(marks: Tables) {
    MarkStore.Valid(marks) && NoOrphans(marks)
  }

  /** Sound tables stay sound, and lose no key. */
  ghost predicate StaysSound(before: Tables, after: Tables) {
    Sound(before) ==> Sound(after) && forall key :: Has(before, key) ==> Has(after, key)
  }

  lemma {:induction false} MoveAndTables(plan: Plan, move: Move, b: Config, c: Config)
    requires Moves(plan, move, b, c)
    ensures StaysSound(b.db.content.marks, c.db.content.marks)
  {
    var marks, marks' := b.db.content.marks, c.db.content.marks;
    if marks' != marks && Sound(marks) {
      assert MarkStep(plan, b, c);
      var key := plan.tasks[b.process.pc.step].key;
      MarkAddsKey(marks, key, marks');
      MarkLeavesNoOrphans(marks, key, marks');
    }
  }

  lemma {:induction false} PathAndTables(plan: Plan, a: Config, path: seq<Config>, c: Config)
    requires Connects(plan, a, path, c)
    ensures StaysSound(a.db.content.marks, c.db.content.marks)
    decreases |path|
  {
    if |path| > 1 {
      var before, b := PathBefore(plan, path);
      PathAndTables(plan, a, before, b);
      if move :| Moves(plan, move, b, c) {
        MoveAndTables(plan, move, b, c);
      }
    }
  }

  /** Whatever the script, and however each of the runs is cut, the committed mark tables stay
      valid and free of orphans, and no key is ever lost. */
  lemma {:induction false} TablesStaySound(plan: Plan, runs: seq<Run>)
    requires runs != [] && OneAfterAnother(plan, runs)
    ensures StaysSound(runs[0].before.content.marks, runs[|runs| - 1].after.db.content.marks)
  {
    var run := runs[|runs| - 1];
    var path :| Connects(plan, Config(START, run.before), path, run.after);
    PathAndTables(plan, Config(START, run.before), path, run.after);
    if |runs| > 1 {
      RunsBefore(plan, runs);
      TablesStaySound(plan, runs[..|runs| - 1]);
    }
  }

  // -------------------------------------------------------------------- fail-stop

  /** Past its first failure, and past its end, a run changes nothing but the lock. */
  lemma {:induction false} NothingAfterFailure(plan: Plan, a: Config, path: seq<Config>, c: Config)
    requires Connects(plan, a, path, c) && (a.process.pc.Leaving? || a.process.pc.Over())
    ensures c.db.content == a.db.content && (c.process.pc.Leaving? || c.process.pc.Over())
    ensures a.process.pc == Leaving(true) ==> c.process.pc != Finished && c.process.pc != Leaving(false)
    ensures a.process.pc.Over() ==> c.process.pc == a.process.pc
    decreases |path|
  {
    if |path| > 1 {
      var before, b := PathBefore(plan, path);
      NothingAfterFailure(plan, a, before, b);
    }
  }
}
