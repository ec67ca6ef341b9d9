/**
 Explaining the committed content of the database: the log is a sequence of attempts at
 steps, in script order, and the marked keys are those of a prefix of the script.
 Everything here is about one move of one updater.
 */
module History {
  import opened Wrappers
  import opened MarkStore
  import opened Migration
  import opened UpgradeMachine

  // ------------------------------------------------------------- plain scripts

  /** The step is guarded by exactly "not executed yet", and is marked when it was. */
  predicate Guarded(task: Task) {
    && task.mark && task.preconditions.Some?
    && |task.preconditions.value| == 1 && task.preconditions.value[0].name == "StepNotExecuted"
  }

  /** The built-in handler is the one that claims "StepNotExecuted". */
  predicate GuardHandled(plan: Plan) {
    Preconditions.Claimer(plan.settings.preconditionHandlers, "StepNotExecuted") == Some(StepNotExecuted)
  }

  /** The first step handler that accepts the step; their number if none does. */
  function Acceptor(plan: Plan, step: nat, from: nat): (a: nat)
    requires step < |plan.tasks| && from <= |plan.settings.stepHandlers|
    ensures from <= a <= |plan.settings.stepHandlers|
    ensures a < |plan.settings.stepHandlers| ==> Accepts(plan, step, a)
    ensures forall b :: from <= b < a ==> !Accepts(plan, step, b)
    decreases |plan.settings.stepHandlers| - from
  {
    if from == |plan.settings.stepHandlers| || Accepts(plan, step, from) then from else Acceptor(plan, step, from + 1)
  }

  ghost predicate OneAcceptor(plan: Plan, step: nat)
    requires step < |plan.tasks|
  {
    var a := Acceptor(plan, step, 0);
    && a < |plan.settings.stepHandlers|
    && forall b :: a < b < |plan.settings.stepHandlers| ==> !Accepts(plan, step, b)
  }

  /** The number of unguarded steps in front. */
  function Skipped(tasks: seq<Task>): (n: nat)
    ensures n <= |tasks| && forall i :: 0 <= i < n ==> !Guarded(tasks[i])
  {
    if tasks == [] || Guarded(tasks[0]) then 0 else 1 + Skipped(tasks[1..])
  }

  /** Steps in front that are not guarded, and then only guarded steps, with distinct keys,
      each accepted by exactly one handler. */
  ghost predicate Orderly(plan: Plan) {
    var s := Skipped(plan.tasks);
    && GuardHandled(plan)
    && (forall i :: s <= i < |plan.tasks| ==> Guarded(plan.tasks[i]) && OneAcceptor(plan, i))
    && (forall i, j :: s <= i < j < |plan.tasks| ==> plan.tasks[i].key != plan.tasks[j].key)
  }

  // ------------------------------------------------------------------ attempts

  /** One handler call for a step: the transactions that were committed, and whether the step
      was marked in the end. */
  datatype Attempt = Attempt(step: nat, units: seq<Unit>, marked: bool)

  /** These transactions may be what a step has committed so far. */
  ghost predicate Part(plan: Plan, step: nat, units: seq<Unit>) {
    step < |plan.tasks| && forall j :: 0 <= j < |units| ==> MayCommit(plan, step, j, units[j])
  }

  /** And these may be all that a complete execution commits. */
  ghost predicate Whole(plan: Plan, step: nat, units: seq<Unit>) {
    Part(plan, step, units) && MayEnd(plan, step, |units|)
  }

  /** A database step commits its applying alternatives, in order; all of them if it is executed completely. */
  lemma {:induction false} DatabaseStepIsFixed(plan: Plan, step: nat, units: seq<Unit>)
    requires step < |plan.tasks| && plan.tasks[step].work.DbCommand?
    ensures Part(plan, step, units) <==> units <= UnitsAt(plan, step)
    ensures Whole(plan, step, units) <==> units == UnitsAt(plan, step)
  {
    if Part(plan, step, units) && units != [] {
      assert MayCommit(plan, step, |units| - 1, units[|units| - 1]);
    }
  }

  function Marks(h: seq<Attempt>): nat {
    if h == [] then 0 else Marks(h[..|h| - 1]) + if h[|h| - 1].marked then 1 else 0
  }

  /** Attempts that were never marked. */
  function Loose(h: seq<Attempt>): nat {
    if h == [] then 0 else Loose(h[..|h| - 1]) + if h[|h| - 1].marked then 0 else 1
  }

  lemma {:induction false} MarksAndLoose(h: seq<Attempt>)
    ensures Marks(h) + Loose(h) == |h|
  {
    if h != [] {
      MarksAndLoose(h[..|h| - 1]);
    }
  }

  /** Each attempt is at the first step not marked before it, and was marked only if complete. */
  ghost predicate InOrder(plan: Plan, m0: nat, h: seq<Attempt>) {
    h == [] ||
    var init, last := h[..|h| - 1], h[|h| - 1];
    && InOrder(plan, m0, init)
    && last.step == m0 + Marks(init) < |plan.tasks|
    && Part(plan, last.step, last.units)
    && (last.marked ==> Whole(plan, last.step, last.units))
  }

  /** What an attempt committed. */
  function AttemptLog(plan: Plan, a: Attempt): seq<Entry>
    requires a.step < |plan.tasks|
  {
    EntriesOfUnits(plan.tasks[a.step].key, a.units)
  }

  function Log(plan: Plan, m0: nat, h: seq<Attempt>): seq<Entry>
    requires InOrder(plan, m0, h)
  {
    if h == [] then [] else Log(plan, m0, h[..|h| - 1]) + AttemptLog(plan, h[|h| - 1])
  }

  /** Of the steps that are not skipped, exactly those before step m are marked. */
  ghost predicate MarkedUpTo(plan: Plan, marks: Tables, m: nat) {
    && Skipped(plan.tasks) <= m <= |plan.tasks| && MarkStore.Valid(marks)
    && forall i {:trigger plan.tasks[i]} :: Skipped(plan.tasks) <= i < |plan.tasks| ==>
        (Has(marks, plan.tasks[i].key) <==> i < m)
  }

  /** The content came from `base`, where m0 steps were marked, by the attempts of h. */
  ghost predicate Explained(plan: Plan, m0: nat, base: seq<Entry>, content: Content, h: seq<Attempt>) {
    && InOrder(plan, m0, h)
    && MarkedUpTo(plan, content.marks, m0 + Marks(h))
    && content.log == base + Log(plan, m0, h)
  }

  /** The step's first precondition says no. */
  predicate Refused(plan: Plan, step: nat, content: Content)
    requires step < |plan.tasks|
  {
    var task := plan.tasks[step];
    && task.preconditions.Some? && task.preconditions.value != []
    && Preconditions.Judge(plan.settings.preconditionHandlers, task.key, task.preconditions.value[0], content) == NotMet
  }

  /** The step is skipped on every content that attempts at the script make of `base`, like
      the installer's steps that create the mark tables, once these exist. */
  ghost predicate NeverMet(plan: Plan, m0: nat, base: seq<Entry>, step: nat)
    requires step < |plan.tasks|
  {
    forall content, h :: Explained(plan, m0, base, content, h) ==> Refused(plan, step, content)
  }

  /** A script on an installed database: the steps in front are always skipped, and the others
      are guarded. */
  ghost predicate Plain(plan: Plan, m0: nat, base: seq<Entry>) {
    Orderly(plan) && forall i :: 0 <= i < Skipped(plan.tasks) ==> NeverMet(plan, m0, base, i)
  }

  /** The last attempt is at this step, and unmarked. */
  predicate LastIs(h: seq<Attempt>, step: nat) {
    h != [] && h[|h| - 1].step == step && !h[|h| - 1].marked
  }

  /** Where an updater may be when m steps are marked. */
  ghost predicate Placed(plan: Plan, pc: Pc, m: nat, h: seq<Attempt>) {
    match pc
    case Checking(i, passed) => i <= m && passed <= 1 && (passed == 1 ==> i == m < |plan.tasks|)
    case Choosing(i, handler) =>
      && Skipped(plan.tasks) <= i < |plan.tasks| && handler <= |plan.settings.stepHandlers|
      && if handler <= Acceptor(plan, i, 0) then i == m else i + 1 == m
    case Running(i, handler, j) =>
      && i == m < |plan.tasks| && handler == Acceptor(plan, i, 0)
      && LastIs(h, i) && |h[|h| - 1].units| == j
    case Marking(i, handler) =>
      && i == m < |plan.tasks| && handler == Acceptor(plan, i, 0)
      && LastIs(h, i) && MayEnd(plan, i, |h[|h| - 1].units|)
    case Leaving(failed) => !failed ==> m == |plan.tasks|
    case Finished => m == |plan.tasks|
    case _ => true
  }

  /** Attempting: an unmarked attempt is under way. */
  predicate Attempting(pc: Pc) {
    pc.Running? || pc.Marking?
  }

  // ------------------------------------------------------------------ one move

  lemma {:induction false} JudgeKeeps(plan: Plan, m0: nat, base: seq<Entry>, c: Config, c': Config, h: seq<Attempt>)
    requires Plain(plan, m0, base) && Explained(plan, m0, base, c.db.content, h)
    requires Placed(plan, c.process.pc, m0 + Marks(h), h) && JudgeStep(plan, c, c')
    ensures c'.db == c.db && Placed(plan, c'.process.pc, m0 + Marks(h), h)
  {
    var Checking(i, passed) := c.process.pc;
    var task := plan.tasks[i];
    if i < Skipped(plan.tasks) {
      assert NeverMet(plan, m0, base, i);
    } else {
      assert Guarded(task);
      IsExecutedMeaning(c.db.content.marks, task.key);
    }
  }

  lemma {:induction false} ChooseKeeps(plan: Plan, m0: nat, take: bool, c: Config, c': Config, h: seq<Attempt>)
    requires Orderly(plan) && Placed(plan, c.process.pc, m0 + Marks(h), h) && ChooseStep(plan, take, c, c')
    requires Skipped(plan.tasks) <= c.process.pc.step
    ensures c'.db == c.db
    ensures !take ==> Placed(plan, c'.process.pc, m0 + Marks(h), h)
    ensures take ==> c.process.pc.step == m0 + Marks(h) && c.process.pc.handler == Acceptor(plan, c.process.pc.step, 0)
  {
    assert OneAcceptor(plan, c.process.pc.step);
  }

  /** One more attempt, that was not marked. */
  lemma {:induction false} OneMoreAttempt(plan: Plan, m0: nat, h: seq<Attempt>, a: Attempt)
    requires InOrder(plan, m0, h) && a.step == m0 + Marks(h) && Part(plan, a.step, a.units) && !a.marked
    ensures var h' := h + [a];
      && InOrder(plan, m0, h') && Marks(h') == Marks(h) && Loose(h') == Loose(h) + 1
      && Log(plan, m0, h') == Log(plan, m0, h) + AttemptLog(plan, a)
  {
    assert (h + [a])[..|h|] == h;
  }

  lemma {:induction false} AppendAttempt(plan: Plan, m0: nat, base: seq<Entry>, content: Content, h: seq<Attempt>)
    requires Explained(plan, m0, base, content, h) && m0 + Marks(h) < |plan.tasks|
    ensures var h' := h + [Attempt(m0 + Marks(h), [], false)];
      && Explained(plan, m0, base, content, h') && Marks(h') == Marks(h) && Loose(h') == Loose(h) + 1
  {
    var a := Attempt(m0 + Marks(h), [], false);
    OneMoreAttempt(plan, m0, h, a);
    assert Log(plan, m0, h + [a]) == Log(plan, m0, h) by {
      assert AttemptLog(plan, a) == [];
    }
  }

  /** Only the last attempt of a history changes. */
  lemma {:induction false} LastAttempt(plan: Plan, m0: nat, h: seq<Attempt>, last: Attempt) returns (h': seq<Attempt>)
    requires InOrder(plan, m0, h) && h != [] && !h[|h| - 1].marked && last.step == h[|h| - 1].step
    requires Part(plan, last.step, last.units) && (last.marked ==> Whole(plan, last.step, last.units))
    ensures InOrder(plan, m0, h') && h' != [] && h'[|h'| - 1] == last
    ensures Marks(h') == Marks(h) + (if last.marked then 1 else 0)
    ensures Loose(h') + (if last.marked then 1 else 0) == Loose(h)
    ensures Log(plan, m0, h) == Log(plan, m0, h[..|h| - 1]) + AttemptLog(plan, h[|h| - 1])
    ensures Log(plan, m0, h') == Log(plan, m0, h[..|h| - 1]) + AttemptLog(plan, last)
  {
    h' := h[..|h| - 1] + [last];
    assert h'[..|h'| - 1] == h[..|h| - 1];
  }

  lemma {:induction false} OneUnitMore(plan: Plan, a: Attempt, commands: seq<string>) returns (more: Attempt)
    requires Part(plan, a.step, a.units) && MayCommit(plan, a.step, |a.units|, commands)
    ensures more == a.(units := a.units + [commands]) && Part(plan, a.step, more.units)
    ensures AttemptLog(plan, more) == AttemptLog(plan, a) + Entries(plan.tasks[a.step].key, commands)
  {
    more := a.(units := a.units + [commands]);
    assert more.units[..|a.units|] == a.units;
  }

  /** The last attempt commits one more transaction. */
  lemma {:induction false} LastGoesOn(plan: Plan, m0: nat, h: seq<Attempt>, commands: Unit) returns (h': seq<Attempt>)
    requires InOrder(plan, m0, h) && h != [] && !h[|h| - 1].marked
    requires MayCommit(plan, h[|h| - 1].step, |h[|h| - 1].units|, commands)
    ensures InOrder(plan, m0, h') && Marks(h') == Marks(h) && Loose(h') == Loose(h)
    ensures LastIs(h', h[|h| - 1].step) && |h'[|h'| - 1].units| == |h[|h| - 1].units| + 1
    ensures Log(plan, m0, h') == Log(plan, m0, h) + Entries(plan.tasks[h[|h| - 1].step].key, commands)
  {
    var more := OneUnitMore(plan, h[|h| - 1], commands);
    h' := LastAttempt(plan, m0, h, more);
  }

  lemma {:induction false} CommitKeeps(plan: Plan, m0: nat, base: seq<Entry>, commands: Unit,
                                       c: Config, c': Config, h: seq<Attempt>)
    returns (h': seq<Attempt>)
    requires Explained(plan, m0, base, c.db.content, h)
    requires Placed(plan, c.process.pc, m0 + Marks(h), h) && CommitUnitStep(plan, commands, c, c')
    ensures Explained(plan, m0, base, c'.db.content, h') && Marks(h') == Marks(h) && Loose(h') == Loose(h)
    ensures Placed(plan, c'.process.pc, m0 + Marks(h'), h')
  {
    h' := LastGoesOn(plan, m0, h, commands);
  }

  lemma {:induction false} MarkKeeps(plan: Plan, m0: nat, base: seq<Entry>, c: Config, c': Config, h: seq<Attempt>)
    returns (h': seq<Attempt>)
    requires Plain(plan, m0, base) && Explained(plan, m0, base, c.db.content, h)
    requires Placed(plan, c.process.pc, m0 + Marks(h), h) && MarkStep(plan, c, c')
    ensures Explained(plan, m0, base, c'.db.content, h') && Marks(h') == Marks(h) + 1 && Loose(h') + 1 == Loose(h)
    ensures Placed(plan, c'.process.pc, m0 + Marks(h'), h')
  {
    var i := c.process.pc.step;
    assert Guarded(plan.tasks[i]) && OneAcceptor(plan, i);
    MarkAddsKey(c.db.content.marks, plan.tasks[i].key, c'.db.content.marks);
    OneKeyMore(plan, c.db.content.marks, i, c'.db.content.marks);
    var last := h[|h| - 1];
    assert AttemptLog(plan, last.(marked := true)) == AttemptLog(plan, last);
    h' := LastAttempt(plan, m0, h, last.(marked := true));
  }

  lemma {:induction false} OneKeyMore(plan: Plan, marks: Tables, i: nat, marks': Tables)
    requires Orderly(plan) && Skipped(plan.tasks) <= i < |plan.tasks| && MarkedUpTo(plan, marks, i)
    requires MarkStore.Valid(marks')
    requires forall k :: Has(marks', k) <==> Has(marks, k) || k == plan.tasks[i].key
    ensures MarkedUpTo(plan, marks', i + 1)
  {
  }

  lemma {:induction false} TakeKeeps(plan: Plan, m0: nat, base: seq<Entry>, c: Config, c': Config, h: seq<Attempt>)
    returns (h': seq<Attempt>)
    requires Plain(plan, m0, base) && Explained(plan, m0, base, c.db.content, h)
    requires Placed(plan, c.process.pc, m0 + Marks(h), h) && ChooseStep(plan, true, c, c')
    ensures Explained(plan, m0, base, c'.db.content, h') && Marks(h') == Marks(h) && Loose(h') == Loose(h) + 1
    ensures Placed(plan, c'.process.pc, m0 + Marks(h'), h')
  {
    ChooseKeeps(plan, m0, true, c, c', h);
    AppendAttempt(plan, m0, base, c.db.content, h);
    h' := h + [Attempt(m0 + Marks(h), [], false)];
  }

  lemma {:induction false} AcceptKeeps(plan: Plan, m0: nat, base: seq<Entry>, c: Config, c': Config, h: seq<Attempt>)
    requires Plain(plan, m0, base) && Explained(plan, m0, base, c.db.content, h)
    requires Placed(plan, c.process.pc, m0 + Marks(h), h) && AcceptStep(plan, c, c')
    ensures c'.db == c.db && Placed(plan, c'.process.pc, m0 + Marks(h), h)
  {
    var i := c.process.pc.step;
    assert if i < Skipped(plan.tasks) then NeverMet(plan, m0, base, i) else Guarded(plan.tasks[i]);
  }

  lemma {:induction false} NextKeeps(plan: Plan, c: Config, c': Config, m: nat, h: seq<Attempt>)
    requires Orderly(plan) && Placed(plan, c.process.pc, m, h) && NextStepStep(plan, c, c')
    requires Skipped(plan.tasks) <= c.process.pc.step < |plan.tasks|
    ensures c'.db == c.db && Placed(plan, c'.process.pc, m, h)
  {
    assert OneAcceptor(plan, c.process.pc.step);
  }

  /** The moves that neither start, extend nor mark an attempt. */
  lemma {:induction false} QuietMoveKeeps(plan: Plan, m0: nat, base: seq<Entry>, move: Move, c: Config, c': Config,
                                          h: seq<Attempt>)
    requires Plain(plan, m0, base) && Explained(plan, m0, base, c.db.content, h)
    requires Placed(plan, c.process.pc, m0 + Marks(h), h) && Moves(plan, move, c, c')
    requires !move.Take? && !move.CommitUnit? && !move.Mark?
    ensures c'.db.content == c.db.content && Placed(plan, c'.process.pc, m0 + Marks(h), h)
  {
    match move
    case Judge => JudgeKeeps(plan, m0, base, c, c', h);
    case Pass => ChooseKeeps(plan, m0, false, c, c', h);
    case NextStep => NextKeeps(plan, c, c', m0 + Marks(h), h);
    case Accept => AcceptKeeps(plan, m0, base, c, c', h);
    case _ =>
  }

  /** Every move keeps the explanation, and changes the number of unmarked attempts only
      by starting an attempt or by marking one. */
  lemma {:induction false} MoveKeeps(plan: Plan, m0: nat, base: seq<Entry>, move: Move, c: Config, c': Config,
                                     h: seq<Attempt>)
    returns (h': seq<Attempt>)
    requires Plain(plan, m0, base) && Explained(plan, m0, base, c.db.content, h)
    requires Placed(plan, c.process.pc, m0 + Marks(h), h) && Moves(plan, move, c, c')
    ensures Explained(plan, m0, base, c'.db.content, h') && Placed(plan, c'.process.pc, m0 + Marks(h'), h')
    ensures Marks(h) <= Marks(h')
    ensures Loose(h') + (if move.Mark? then 1 else 0) == Loose(h) + (if move.Take? then 1 else 0)
    ensures !c.process.pc.InBody() ==> h' == h
  {
    if move.Take? {
      h' := TakeKeeps(plan, m0, base, c, c', h);
    } else if move.CommitUnit? {
      h' := CommitKeeps(plan, m0, base, move.commands, c, c', h);
    } else if move.Mark? {
      h' := MarkKeeps(plan, m0, base, c, c', h);
    } else {
      QuietMoveKeeps(plan, m0, base, move, c, c', h);
      h' := h;
    }
  }

  // ------------------------------------------------------- shape of the log

  /** One complete execution of each step. */
  ghost predicate Performance(plan: Plan, does: seq<seq<Unit>>) {
    |does| == |plan.tasks| && forall i: nat :: i < |does| ==> Whole(plan, i, does[i])
  }

  /** What executing steps lo to hi - 1 once each, in order, commits. */
  function FullLog(plan: Plan, does: seq<seq<Unit>>, lo: nat, hi: nat): seq<Entry>
    requires lo <= hi <= |plan.tasks| == |does|
    decreases hi - lo
  {
    if lo == hi then []
    else FullLog(plan, does, lo, hi - 1) + EntriesOfUnits(plan.tasks[hi - 1].key, does[hi - 1])
  }

  /** Of the steps from m0 on, those before m were executed once each, in order, and are marked. */
  ghost predicate DoneOnce(plan: Plan, m0: nat, base: seq<Entry>, content: Content, m: nat, does: seq<seq<Unit>>) {
    && Performance(plan, does) && m0 <= m <= |plan.tasks|
    && MarkedUpTo(plan, content.marks, m)
    && content.log == base + FullLog(plan, does, m0, m)
  }

  /** The steps from m0 on are being executed, once each, in order. */
  ghost predicate DoneSoFar(plan: Plan, m0: nat, base: seq<Entry>, log: seq<Entry>, does: seq<seq<Unit>>) {
    && Performance(plan, does) && m0 <= |plan.tasks|
    && base <= log <= base + FullLog(plan, does, m0, |plan.tasks|)
  }

  /** Of the attempts that were marked, and the last one, what each step does. */
  function DoesOf(plan: Plan, m0: nat, h: seq<Attempt>): (does: seq<seq<Unit>>)
    ensures |does| == |plan.tasks|
  {
    seq(|plan.tasks|, i requires 0 <= i < |plan.tasks| =>
      if plan.tasks[i].work.DbCommand? then UnitsAt(plan, i)
      else if m0 <= i < m0 + |h| then h[i - m0].units else [])
  }

  /** Each attempt but the last one was marked, so each is at the step after the one before it. */
  ghost predicate Straight(m0: nat, h: seq<Attempt>) {
    && (forall k :: 0 <= k < |h| ==> h[k].step == m0 + k)
    && (forall k :: 0 <= k < |h| - 1 ==> h[k].marked)
  }

  lemma {:induction false} AllMarkedIsStraight(plan: Plan, m0: nat, h: seq<Attempt>)
    requires InOrder(plan, m0, h) && Loose(h) == 0
    ensures Straight(m0, h) && Marks(h) == |h| && forall k :: 0 <= k < |h| ==> h[k].marked
    ensures m0 <= |plan.tasks| ==> m0 + |h| <= |plan.tasks|
  {
    if h != [] {
      AllMarkedIsStraight(plan, m0, h[..|h| - 1]);
    }
  }

  lemma {:induction false} AttemptsAreParts(plan: Plan, m0: nat, h: seq<Attempt>, k: nat)
    requires InOrder(plan, m0, h) && k < |h|
    ensures Part(plan, h[k].step, h[k].units) && (h[k].marked ==> Whole(plan, h[k].step, h[k].units))
  {
    if k < |h| - 1 {
      AttemptsAreParts(plan, m0, h[..|h| - 1], k);
    }
  }

  /** What a step does goes on from what the attempt at it did. */
  lemma {:induction false} AttemptIsDone(plan: Plan, m0: nat, h: seq<Attempt>, k: nat)
    requires InOrder(plan, m0, h) && Straight(m0, h) && k < |h|
    ensures var a, does := h[k], DoesOf(plan, m0, h);
      && a.step == m0 + k < |plan.tasks| && a.units <= does[a.step] && Whole(plan, a.step, does[a.step])
      && (a.marked ==> a.units == does[a.step])
  {
    AttemptsAreParts(plan, m0, h, k);
    if plan.tasks[h[k].step].work.DbCommand? {
      DatabaseStepIsFixed(plan, h[k].step, h[k].units);
    }
  }

  lemma {:induction false} DoesOfPerforms(plan: Plan, m0: nat, h: seq<Attempt>)
    requires InOrder(plan, m0, h) && Straight(m0, h)
    ensures Performance(plan, DoesOf(plan, m0, h))
  {
    var does := DoesOf(plan, m0, h);
    forall i: nat | i < |plan.tasks|
      ensures Whole(plan, i, does[i])
    {
      if m0 <= i < m0 + |h| {
        AttemptIsDone(plan, m0, h, i - m0);
      }
    }
  }

  /** The log of marked attempts is the log of the steps they are at, once each. */
  lemma {:induction false} LogOfMarked(plan: Plan, does: seq<seq<Unit>>, m0: nat, h: seq<Attempt>)
    requires InOrder(plan, m0, h) && m0 + |h| <= |plan.tasks| == |does|
    requires forall k :: 0 <= k < |h| ==> h[k].step == m0 + k && h[k].units == does[m0 + k]
    ensures Log(plan, m0, h) == FullLog(plan, does, m0, m0 + |h|)
  {
    if h != [] {
      LogOfMarked(plan, does, m0, h[..|h| - 1]);
    }
  }

  /** Without unmarked attempts the log is that of complete executions of the steps, once each. */
  lemma {:induction false} AllMarkedLog(plan: Plan, m0: nat, h: seq<Attempt>) returns (does: seq<seq<Unit>>)
    requires InOrder(plan, m0, h) && m0 <= |plan.tasks| && Loose(h) == 0
    ensures Marks(h) == |h| && m0 + |h| <= |plan.tasks| && Performance(plan, does)
    ensures Log(plan, m0, h) == FullLog(plan, does, m0, m0 + |h|)
  {
    AllMarkedIsStraight(plan, m0, h);
    DoesOfPerforms(plan, m0, h);
    does := DoesOf(plan, m0, h);
    forall k | 0 <= k < |h|
      ensures h[k].units == does[m0 + k]
    {
      AttemptIsDone(plan, m0, h, k);
    }
    LogOfMarked(plan, does, m0, h);
  }

  lemma {:induction false} AllMarkedIsDone(plan: Plan, m0: nat, base: seq<Entry>, content: Content, h: seq<Attempt>)
    returns (does: seq<seq<Unit>>)
    requires Explained(plan, m0, base, content, h) && Loose(h) == 0
    ensures Marks(h) == |h| && DoneOnce(plan, m0, base, content, m0 + |h|, does)
  {
    does := AllMarkedLog(plan, m0, h);
  }

  lemma {:induction false} FullLogPrefix(plan: Plan, does: seq<seq<Unit>>, lo: nat, mid: nat, hi: nat)
    requires lo <= mid <= hi <= |plan.tasks| == |does|
    ensures FullLog(plan, does, lo, mid) <= FullLog(plan, does, lo, hi)
    decreases hi - mid
  {
    if mid < hi {
      FullLogPrefix(plan, does, lo, mid, hi - 1);
    }
  }

  lemma {:induction false} UnitsPrefix(key: StepKey, units: seq<Unit>, all: seq<Unit>)
    requires units <= all
    ensures EntriesOfUnits(key, units) <= EntriesOfUnits(key, all)
  {
    if |units| < |all| {
      UnitsPrefix(key, units, all[..|all| - 1]);
    } else {
      assert units == all;
    }
  }

  lemma {:induction false} FullLogNext(plan: Plan, does: seq<seq<Unit>>, lo: nat, hi: nat)
    requires lo <= hi < |plan.tasks| == |does|
    ensures FullLog(plan, does, lo, hi + 1) ==
            FullLog(plan, does, lo, hi) + EntriesOfUnits(plan.tasks[hi].key, does[hi])
  {
  }

  /** The last attempt may be partial. */
  lemma {:induction false} LogOfPartial(plan: Plan, does: seq<seq<Unit>>, m0: nat, h: seq<Attempt>)
    requires InOrder(plan, m0, h) && h != [] && m0 + |h| <= |plan.tasks| == |does|
    requires forall k :: 0 <= k < |h| ==> h[k].step == m0 + k && h[k].units <= does[m0 + k]
    requires forall k :: 0 <= k < |h| - 1 ==> h[k].units == does[m0 + k]
    ensures Log(plan, m0, h) <= FullLog(plan, does, m0, m0 + |h|)
  {
    var init, last := h[..|h| - 1], h[|h| - 1];
    LogOfMarked(plan, does, m0, init);
    UnitsPrefix(plan.tasks[last.step].key, last.units, does[last.step]);
    FullLogNext(plan, does, m0, last.step);
  }

  lemma {:induction false} LogBeforeMark(plan: Plan, m0: nat, h: seq<Attempt>) returns (does: seq<seq<Unit>>)
    requires InOrder(plan, m0, h) && m0 <= |plan.tasks| && h != [] && Loose(h[..|h| - 1]) == 0
    ensures Performance(plan, does) && m0 + |h| <= |plan.tasks|
    ensures Log(plan, m0, h) <= FullLog(plan, does, m0, m0 + |h|)
  {
    AllMarkedIsStraight(plan, m0, h[..|h| - 1]);
    assert Straight(m0, h);
    does := DoesOf(plan, m0, h);
    DoesOfPerforms(plan, m0, h);
    forall k | 0 <= k < |h|
      ensures h[k].units <= does[m0 + k] && (k < |h| - 1 ==> h[k].units == does[m0 + k])
    {
      AttemptIsDone(plan, m0, h, k);
    }
    LogOfPartial(plan, does, m0, h);
  }

  /** With at most the last attempt unmarked, the log is a prefix of that of complete executions. */
  lemma {:induction false} AlmostMarkedLog(plan: Plan, m0: nat, h: seq<Attempt>) returns (does: seq<seq<Unit>>)
    requires InOrder(plan, m0, h) && m0 <= |plan.tasks|
    requires Loose(h) == 0 || (Loose(h) == 1 && !h[|h| - 1].marked)
    ensures Performance(plan, does)
    ensures Log(plan, m0, h) <= FullLog(plan, does, m0, |plan.tasks|)
  {
    if Loose(h) == 0 {
      does := AllMarkedLog(plan, m0, h);
    } else {
      does := LogBeforeMark(plan, m0, h);
    }
    FullLogPrefix(plan, does, m0, m0 + |h|, |plan.tasks|);
  }
}
