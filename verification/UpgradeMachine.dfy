/**
 One updater as a machine: where it is in its run, what the database looks like, and
 the moves it can make. Every move is one action that other sessions see as atomic.
 */
module UpgradeMachine {
  import opened Wrappers
  import opened MarkStore
  import opened Migration
  import Preconditions

  const LOCK_ID := 5362
  const EXPIRATION_MINUTES := 5
  const RETRY_SECONDS := 5

  /** What all sessions share: the clock (in seconds), the lock table with the expiration
      of each lock row (None before the table is created), and the content. */
  datatype Shared = Shared(now: int, locks: Option<map<int, int>>, content: Content)

  predicate HasLockRow(db: Shared, id: int) {
    db.locks.Some? && id in db.locks.value
  }

  function Expiration(db: Shared, id: int): int
    requires HasLockRow(db, id)
  {
    db.locks.value[id]
  }

  predicate LockFree(db: Shared, id: int) {
    HasLockRow(db, id) && Expiration(db, id) < db.now
  }

  function WithExpiration(db: Shared, id: int, expiration: int): Shared
    requires HasLockRow(db, id)
  {
    db.(locks := Some(db.locks.value[id := expiration]))
  }

  /** The conditional update of a lock row. */
  function Acquired(db: Shared, id: int, minutes: int): Shared {
    if LockFree(db, id) then WithExpiration(db, id, db.now + 60 * minutes) else db
  }

  /** The unconditional one; nobody asks who holds the lock. */
  function Released(db: Shared, id: int): Shared {
    if HasLockRow(db, id) then WithExpiration(db, id, db.now - 60) else db
  }

  /** Taking a free row moves its expiration that many minutes ahead of the clock; a row that has
      not expired stays, and so does everything else. */
  lemma {:induction false} AcquiredMeaning(db: Shared, id: int, minutes: int)
    ensures var db' := Acquired(db, id, minutes);
      && db'.now == db.now && db'.content == db.content
      && (HasLockRow(db, id) && Expiration(db, id) < db.now ==>
            HasLockRow(db', id) && Expiration(db', id) == db.now + 60 * minutes)
      && (!HasLockRow(db, id) || Expiration(db, id) >= db.now ==> db' == db)
      && forall other :: other != id ==>
           && (HasLockRow(db', other) <==> HasLockRow(db, other))
           && (HasLockRow(db, other) ==> Expiration(db', other) == Expiration(db, other))
  {
  }

  /** Releasing a row puts its expiration one minute into the past, whatever it was; everything
      else stays. */
  lemma {:induction false} ReleasedMeaning(db: Shared, id: int)
    ensures var db' := Released(db, id);
      && db'.now == db.now && db'.content == db.content
      && (HasLockRow(db, id) ==> HasLockRow(db', id) && Expiration(db', id) == db.now - 60)
      && (!HasLockRow(db, id) ==> db' == db)
      && forall other :: other != id ==>
           && (HasLockRow(db', other) <==> HasLockRow(db, other))
           && (HasLockRow(db, other) ==> Expiration(db', other) == Expiration(db, other))
  {
  }

  // ------------------------------------------------------------------ processes

  datatype Pc =
    | Waiting                                        // before the lock
    | Checking(step: nat, passed: nat)               // this many preconditions of the step were met
    | Choosing(step: nat, handler: nat)              // about to ask this handler
    | Running(step: nat, handler: nat, units: nat)   // the handler committed this many transactions
    | Marking(step: nat, handler: nat)               // the handler is done, the mark is not
    | Leaving(failed: bool)                          // about to release the lock
    | Finished | Failed | Crashed
  {
    predicate InBody() {
      Checking? || Choosing? || Running? || Marking?
    }

    predicate Inside() {
      InBody() || Leaving?
    }

    predicate Over() {
      Finished? || Failed? || Crashed?
    }
  }

  datatype Process = Process(pc: Pc, locked: bool, lease: int)

  const START := Process(Waiting, false, 0)

  /** An updater that has just taken the lock, with the end of its lease. */
  function Entered(db: Shared): Process {
    Process(Checking(0, 0), true, db.now + 60 * EXPIRATION_MINUTES)
  }

  datatype Plan = Plan(settings: Settings, tasks: seq<Task>)

  datatype Config = Config(process: Process, db: Shared)

  function At(c: Config, pc: Pc): Config {
    c.(process := c.process.(pc := pc))
  }

  /** The transactions of a database step. */
  function UnitsAt(plan: Plan, step: nat): seq<Unit>
    requires step < |plan.tasks| && plan.tasks[step].work.DbCommand?
  {
    UnitsOfAlternatives(plan.settings, plan.tasks[step].work.alternatives)
  }

  /** After so many transactions of one execution, the step may commit these commands in the next one. */
  predicate MayCommit(plan: Plan, step: nat, done: nat, commands: Unit)
    requires step < |plan.tasks|
  {
    match plan.tasks[step].work
    case DbCommand(_) => done < |UnitsAt(plan, step)| && UnitsAt(plan, step)[done] == commands
    case Typed(_, mayCommit) => mayCommit(commands)
  }

  /** After so many transactions the execution of the step may be complete. */
  predicate MayEnd(plan: Plan, step: nat, done: nat)
    requires step < |plan.tasks|
  {
    match plan.tasks[step].work
    case DbCommand(_) => done == |UnitsAt(plan, step)|
    case Typed(_, _) => true
  }

  predicate Accepts(plan: Plan, step: nat, handler: nat)
    requires step < |plan.tasks| && handler < |plan.settings.stepHandlers|
  {
    plan.settings.stepHandlers[handler].CanHandle(plan.tasks[step].work)
  }

  datatype Move =
    | TryLock | SkipLock | FailLock
    | Judge | Accept | Pass | Take | CommitUnit(commands: Unit) | Complete | Mark | NextStep | EndScripts
    | Abort | Release | FailRelease | Crash

  ghost predicate JudgeStep(plan: Plan, c: Config, c': Config) {
    && c.process.pc.Checking? && c.process.pc.step < |plan.tasks|
    && var Checking(i, passed) := c.process.pc;
    && var task := plan.tasks[i];
    && task.preconditions.Some? && passed < |task.preconditions.value|
    && match Preconditions.Judge(plan.settings.preconditionHandlers, task.key, task.preconditions.value[passed],
                                 c.db.content)
       case Met => c' == At(c, Checking(i, passed + 1))
       case NotMet => c' == At(c, Checking(i + 1, 0))
       case Raises => false
  }

  ghost predicate AcceptStep(plan: Plan, c: Config, c': Config) {
    && c.process.pc.Checking? && c.process.pc.step < |plan.tasks|
    && var Checking(i, passed) := c.process.pc;
    && plan.tasks[i].preconditions.Some? && passed == |plan.tasks[i].preconditions.value|
    && c' == At(c, Choosing(i, 0))
  }

  ghost predicate ChooseStep(plan: Plan, take: bool, c: Config, c': Config) {
    && c.process.pc.Choosing? && c.process.pc.step < |plan.tasks|
    && var Choosing(i, h) := c.process.pc;
    && h < |plan.settings.stepHandlers| && Accepts(plan, i, h) == take
    && c' == At(c, if take then Running(i, h, 0) else Choosing(i, h + 1))
  }

  ghost predicate CommitUnitStep(plan: Plan, commands: Unit, c: Config, c': Config) {
    && c.process.pc.Running? && c.process.pc.step < |plan.tasks|
    && var Running(i, h, j) := c.process.pc;
    && MayCommit(plan, i, j, commands)
    && var content := c.db.content;
    && c' == At(c, Running(i, h, j + 1)).(db := c.db.(content :=
         content.(log := content.log + Entries(plan.tasks[i].key, commands))))
  }

  ghost predicate CompleteStep(plan: Plan, c: Config, c': Config) {
    && c.process.pc.Running? && c.process.pc.step < |plan.tasks|
    && var Running(i, h, j) := c.process.pc;
    && MayEnd(plan, i, j)
    && c' == At(c, Marking(i, h))
  }

  ghost predicate MarkStep(plan: Plan, c: Config, c': Config) {
    && c.process.pc.Marking? && c.process.pc.step < |plan.tasks|
    && var Marking(i, h) := c.process.pc;
    && c'.process == c.process.(pc := Choosing(i, h + 1))
    && var marks' := c'.db.content.marks;
    && c'.db == c.db.(content := c.db.content.(marks := marks'))
    && if plan.tasks[i].mark then Marked(c.db.content.marks, plan.tasks[i].key, marks')
       else marks' == c.db.content.marks
  }

  ghost predicate NextStepStep(plan: Plan, c: Config, c': Config) {
    && c.process.pc.Choosing?
    && var Choosing(i, h) := c.process.pc;
    && h == |plan.settings.stepHandlers|
    && c' == At(c, Checking(i + 1, 0))
  }

  /** The moves of one updater. Aborting and crashing are possible anywhere in the body:
      whether they happen is up to the environment. A failing lock call may still have
      taken effect in the database. */
  ghost predicate Moves(plan: Plan, move: Move, c: Config, c': Config) {
    var pc := c.process.pc;
    match move
    case TryLock =>
      pc.Waiting? && c.db.locks.Some?
      && c' == if LockFree(c.db, LOCK_ID)
               then Config(Entered(c.db), Acquired(c.db, LOCK_ID, EXPIRATION_MINUTES)) else c
    case SkipLock =>
      pc.Waiting? && c.db.locks.None? && c' == Config(Process(Checking(0, 0), false, c.process.lease), c.db)
    case FailLock =>
      && pc.Waiting? && c'.process == c.process.(pc := Failed)
      && (c'.db == c.db || c'.db == Acquired(c.db, LOCK_ID, EXPIRATION_MINUTES))
    case Judge => JudgeStep(plan, c, c')
    case Accept => AcceptStep(plan, c, c')
    case Pass => ChooseStep(plan, false, c, c')
    case Take => ChooseStep(plan, true, c, c')
    case CommitUnit(commands) => CommitUnitStep(plan, commands, c, c')
    case Complete => CompleteStep(plan, c, c')
    case Mark => MarkStep(plan, c, c')
    case NextStep => NextStepStep(plan, c, c')
    case EndScripts => pc == Checking(|plan.tasks|, 0) && c' == At(c, Leaving(false))
    case Abort => pc.InBody() && c' == At(c, Leaving(true))
    case Release =>
      && pc.Leaving? && c'.process == c.process.(pc := if pc.failed then Failed else Finished)
      && c'.db == if c.process.locked then Released(c.db, LOCK_ID) else c.db
    case FailRelease =>
      pc.Leaving? && c.process.locked
      && c'.process == c.process.(pc := Failed) && (c'.db == c.db || c'.db == Released(c.db, LOCK_ID))
    case Crash => !pc.Over() && c' == At(c, Crashed)
  }

  ghost predicate Elapse(db: Shared, db': Shared) {
    db'.now >= db.now && db' == db.(now := db'.now)
  }

  // -------------------------------------------------------------- runs alone

  ghost predicate Hop(plan: Plan, c: Config, c': Config) {
    (exists move :: Moves(plan, move, c, c')) || (c'.process == c.process && Elapse(c.db, c'.db))
  }

  ghost predicate HopAt(plan: Plan, path: seq<Config>, k: nat)
    requires k + 1 < |path|
  {
    Hop(plan, path[k], path[k + 1])
  }

  /** A run of an updater that is alone with the clock. */
  ghost predicate IsPath(plan: Plan, path: seq<Config>) {
    path != [] && forall k: nat {:trigger HopAt(plan, path, k)} :: k + 1 < |path| ==> HopAt(plan, path, k)
  }

  ghost predicate Connects(plan: Plan, a: Config, path: seq<Config>, c: Config) {
    IsPath(plan, path) && path[0] == a && path[|path| - 1] == c
  }

  /** Some run alone leads from a to c. */
  ghost predicate Reaches(plan: Plan, a: Config, c: Config) {
    exists path :: Connects(plan, a, path, c)
  }

  lemma {:induction false} ReachesSelf(plan: Plan, a: Config)
    ensures Reaches(plan, a, a)
  {
    assert Connects(plan, a, [a], a);
  }

  lemma {:induction false} ReachesHop(plan: Plan, a: Config, b: Config, c: Config)
    requires Reaches(plan, a, b) && Hop(plan, b, c)
    ensures Reaches(plan, a, c)
  {
    var before :| Connects(plan, a, before, b);
    var path := before + [c];
    forall k: nat | k + 1 < |path|
      ensures HopAt(plan, path, k)
    {
      if k + 1 < |before| {
        assert HopAt(plan, before, k);
      }
    }
    assert Connects(plan, a, path, c);
  }

  lemma {:induction false} ReachesStep(plan: Plan, a: Config, b: Config, move: Move, c: Config)
    requires Reaches(plan, a, b) && Moves(plan, move, b, c)
    ensures Reaches(plan, a, c)
  {
    ReachesHop(plan, a, b, c);
  }

  /** A run of more than one configuration, without its last one. */
  lemma {:induction false} PathBefore(plan: Plan, path: seq<Config>) returns (before: seq<Config>, b: Config)
    requires IsPath(plan, path) && |path| > 1
    ensures before == path[..|path| - 1] && b == before[|before| - 1]
    ensures Connects(plan, path[0], before, b) && Hop(plan, b, path[|path| - 1])
  {
    before := path[..|path| - 1];
    b := before[|before| - 1];
    assert HopAt(plan, path, |path| - 2);
    forall k: nat | k + 1 < |before|
      ensures HopAt(plan, before, k)
    {
      assert HopAt(plan, path, k);
    }
  }

  /** A lock table is never lost, nor is the lock row. */
  lemma {:induction false} LockStays(plan: Plan, a: Config, path: seq<Config>, c: Config)
    requires Connects(plan, a, path, c)
    ensures a.db.locks.None? <==> c.db.locks.None?
    ensures HasLockRow(a.db, LOCK_ID) <==> HasLockRow(c.db, LOCK_ID)
    decreases |path|
  {
    if |path| > 1 {
      var before, b := PathBefore(plan, path);
      LockStays(plan, a, before, b);
    }
  }

  /** Whoever is locked has a row; and whoever got in holds the lock if there are lock tables. */
  lemma {:induction false} EntersByLock(plan: Plan, a: Config, path: seq<Config>, c: Config)
    requires Connects(plan, a, path, c) && a.process == START
    ensures c.process.locked ==> HasLockRow(c.db, LOCK_ID)
    ensures c.process.pc.Inside() || c.process.pc.Finished? ==> (c.process.locked <==> c.db.locks.Some?)
    decreases |path|
  {
    if |path| > 1 {
      var before, b := PathBefore(plan, path);
      EntersByLock(plan, a, before, b);
    }
  }

  // ---------------------------------------------------- histories with rivals

  /** What others may turn the database into while a session waits for its turn. */
  type Rivalry = (Shared, Shared) -> bool

  ghost predicate Alone(rivals: Rivalry) {
    forall db, db' :: rivals(db, db') ==> db' == db
  }

  /** What may happen between two moves of a session: time passes, and rivals do what they may do. */
  predicate Meanwhile(rivals: Rivalry, db: Shared, db': Shared) {
    db'.now >= db.now && (rivals(db, db') || db' == db.(now := db'.now))
  }

  /** What a session lives through: its own moves, and what it finds others and the clock to
      have done. */
  datatype Beat = Own(move: Move, after: Config) | Other(after: Config)

  /** The configuration after k beats. */
  function Moment(start: Config, history: seq<Beat>, k: nat): Config
    requires k <= |history|
  {
    if k == 0 then start else history[k - 1].after
  }

  ghost predicate BeatFrom(plan: Plan, rivals: Rivalry, c: Config, beat: Beat) {
    match beat
    case Own(move, after) => Moves(plan, move, c, after)
    case Other(after) => after.process == c.process && Meanwhile(rivals, c.db, after.db)
  }

  ghost predicate BeatAt(plan: Plan, rivals: Rivalry, start: Config, history: seq<Beat>, k: nat)
    requires k < |history|
  {
    BeatFrom(plan, rivals, Moment(start, history, k), history[k])
  }

  /** Each beat goes on from where the one before it got to. */
  ghost predicate IsHistory(plan: Plan, rivals: Rivalry, start: Config, history: seq<Beat>) {
    forall k: nat {:trigger BeatAt(plan, rivals, start, history, k)} ::
      k < |history| ==> BeatAt(plan, rivals, start, history, k)
  }

  lemma {:induction false} HistoryGrows(plan: Plan, rivals: Rivalry, start: Config, history: seq<Beat>, beat: Beat)
    requires IsHistory(plan, rivals, start, history)
    requires BeatFrom(plan, rivals, Moment(start, history, |history|), beat)
    ensures IsHistory(plan, rivals, start, history + [beat])
  {
    forall k: nat | k < |history + [beat]|
      ensures BeatAt(plan, rivals, start, history + [beat], k)
    {
      if k < |history| {
        assert BeatAt(plan, rivals, start, history, k);
      }
    }
  }

  /** The history of a session that is alone is a run alone. */
  lemma {:induction false} AloneReaches(plan: Plan, rivals: Rivalry, start: Config, history: seq<Beat>, k: nat)
    requires IsHistory(plan, rivals, start, history) && Alone(rivals) && k <= |history|
    ensures Reaches(plan, start, Moment(start, history, k))
  {
    if k == 0 {
      ReachesSelf(plan, start);
    } else {
      AloneReaches(plan, rivals, start, history, k - 1);
      assert BeatAt(plan, rivals, start, history, k - 1);
      ReachesHop(plan, start, Moment(start, history, k - 1), Moment(start, history, k));
    }
  }
}
