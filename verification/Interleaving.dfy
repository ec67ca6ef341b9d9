/**
 Any number of updaters on one database, interleaved move by move with the clock.
 Mutual exclusion rests on a lease discipline; under it, execution is exactly once.
 */
module Interleaving {
  import opened Migration
  import opened UpgradeMachine
  import opened History
  import RepeatedRuns

  datatype Global = Global(db: Shared, processes: seq<Process>)

  datatype Action = Act(who: nat, move: Move) | Tick | Restart(who: nat)

  ghost predicate Next(plan: Plan, g: Global, action: Action, g': Global) {
    && |g'.processes| == |g.processes|
    && match action
       case Act(who, move) =>
         && who < |g.processes|
         && g'.processes == g.processes[who := g'.processes[who]]
         && Moves(plan, move, Config(g.processes[who], g.db), Config(g'.processes[who], g'.db))
       case Tick => g'.processes == g.processes && Elapse(g.db, g'.db)
       case Restart(who) =>
         who < |g.processes| && g.processes[who].pc.Over() && g' == g.(processes := g.processes[who := START])
  }

  ghost predicate IsRun(plan: Plan, gs: seq<Global>, actions: seq<Action>) {
    && |gs| == |actions| + 1
    && forall k :: 0 <= k < |actions| ==> Next(plan, gs[k], actions[k], gs[k + 1])
  }

  /** Whatever the scripts, and with or without a lock, the mark tables stay valid and free of
      orphans in every interleaving, and no key is ever lost. */
  lemma {:induction false} TablesStaySoundTogether(plan: Plan, gs: seq<Global>, actions: seq<Action>, k: nat)
    requires IsRun(plan, gs, actions) && k < |gs|
    ensures RepeatedRuns.StaysSound(gs[0].db.content.marks, gs[k].db.content.marks)
  {
    if k > 0 {
      TablesStaySoundTogether(plan, gs, actions, k - 1);
      var g, g' := gs[k - 1], gs[k];
      assert Next(plan, g, actions[k - 1], g');
      match actions[k - 1]
      case Act(who, move) =>
        RepeatedRuns.MoveAndTables(plan, move, Config(g.processes[who], g.db), Config(g'.processes[who], g'.db));
      case _ =>
    }
  }

  // ----------------------------------------------------------- mutual exclusion

  /** Whoever is inside under the lock is there no longer than its lease. */
  ghost predicate Disciplined(g: Global) {
    forall p :: 0 <= p < |g.processes| && g.processes[p].pc.Inside() && g.processes[p].locked
                ==> g.db.now <= g.processes[p].lease
  }

  ghost predicate AtMostOneInside(g: Global) {
    forall p, q :: 0 <= p < q < |g.processes| ==> !(g.processes[p].pc.Inside() && g.processes[q].pc.Inside())
  }

  /** The lock row tells when the one who is inside has to be out. */
  ghost predicate LockSound(g: Global) {
    && HasLockRow(g.db, LOCK_ID) && AtMostOneInside(g)
    && forall p :: 0 <= p < |g.processes| && g.processes[p].pc.Inside()
                   ==> g.processes[p].locked && g.processes[p].lease == Expiration(g.db, LOCK_ID)
  }

  lemma {:induction false} LockSoundKept(plan: Plan, g: Global, action: Action, g': Global)
    requires LockSound(g) && Disciplined(g) && Next(plan, g, action, g')
    ensures LockSound(g')
  {
    if action.Act? {
      var c, c' := Config(g.processes[action.who], g.db), Config(g'.processes[action.who], g'.db);
      MoveAndLock(plan, action.move, c, c');
    }
  }

  /** A move touches the lock row only from inside, or by taking it when it was free. */
  lemma {:induction false} MoveAndLock(plan: Plan, move: Move, c: Config, c': Config)
    requires Moves(plan, move, c, c') && HasLockRow(c.db, LOCK_ID)
    ensures HasLockRow(c'.db, LOCK_ID)
    ensures Expiration(c'.db, LOCK_ID) != Expiration(c.db, LOCK_ID) ==> LockFree(c.db, LOCK_ID) || c.process.pc.Inside()
    ensures c'.process.pc.Inside() && !c.process.pc.Inside() ==>
              LockFree(c.db, LOCK_ID) && c'.process.locked && c'.process.lease == Expiration(c'.db, LOCK_ID)
    ensures c'.process.pc.Inside() && c.process.pc.Inside() ==>
              && Expiration(c'.db, LOCK_ID) == Expiration(c.db, LOCK_ID)
              && c'.process.locked == c.process.locked && c'.process.lease == c.process.lease
  {
  }

  /** As long as every holder leaves before its lease ends, at most one updater is inside. */
  lemma {:induction false} MutualExclusion(plan: Plan, gs: seq<Global>, actions: seq<Action>, k: nat)
    requires IsRun(plan, gs, actions) && k < |gs|
    requires HasLockRow(gs[0].db, LOCK_ID) && forall p :: 0 <= p < |gs[0].processes| ==> !gs[0].processes[p].pc.Inside()
    requires forall i :: 0 <= i < k ==> Disciplined(gs[i])
    ensures LockSound(gs[k])
  {
    if k > 0 {
      MutualExclusion(plan, gs, actions, k - 1);
      LockSoundKept(plan, gs[k - 1], actions[k - 1], gs[k]);
    }
  }

  /** The discipline is what it takes: a rival gets in exactly when the holder is overdue. */
  lemma {:induction false} RivalEntersIffOverdue(plan: Plan, g: Global, p: nat, q: nat, g': Global)
    requires LockSound(g) && p < |g.processes| && q < |g.processes| && p != q
    requires g.processes[p].pc.Inside() && g.processes[q].pc.Waiting?
    requires Next(plan, g, Act(q, TryLock), g')
    ensures g'.processes[q].pc.Inside() <==> g.processes[p].lease < g.db.now
    ensures !g'.processes[q].pc.Inside() ==> g' == g
    ensures AtMostOneInside(g') <==> g.processes[p].lease >= g.db.now
  {
    assert g'.processes[p] == g.processes[p];
    if !g'.processes[q].pc.Inside() {
      assert g'.processes == g.processes;
    }
  }

  /** Release asks for no owner: one overdue holder lets a rival in, and by releasing late it
      lets a third one in beside the rival, although neither of those two is overdue. */
  lemma {:induction false} LateReleaseLetsThirdIn(plan: Plan, g: Global, p: nat, q: nat, r: nat)
    returns (gs: seq<Global>, actions: seq<Action>)
    requires LockSound(g) && p < |g.processes| && q < |g.processes| && r < |g.processes|
    requires p != q && q != r && p != r
    requires g.processes[p].pc.Leaving? && g.processes[p].lease < g.db.now
    requires g.processes[q].pc.Waiting? && g.processes[r].pc.Waiting?
    ensures IsRun(plan, gs, actions) && |gs| == 4 && gs[0] == g && |gs[3].processes| == |g.processes|
    ensures gs[3].processes[q].pc.Inside() && gs[3].processes[r].pc.Inside()
    ensures gs[3].db.now <= gs[3].processes[q].lease && gs[3].db.now <= gs[3].processes[r].lease
  {
    var inside := Entered(g.db);
    var out := g.processes[p].(pc := if g.processes[p].pc.failed then Failed else Finished);
    var g1 := Global(Acquired(g.db, LOCK_ID, EXPIRATION_MINUTES), g.processes[q := inside]);
    var g2 := Global(Released(g1.db, LOCK_ID), g1.processes[p := out]);
    var g3 := Global(Acquired(g2.db, LOCK_ID, EXPIRATION_MINUTES), g2.processes[r := inside]);
    gs, actions := [g, g1, g2, g3], [Act(q, TryLock), Act(p, Release), Act(r, TryLock)];
    assert Next(plan, g, actions[0], g1);
    assert Next(plan, g1, actions[1], g2);
    assert Next(plan, g2, actions[2], g3);
  }

  /** The action tries for the lock, whether or not that goes well. */
  predicate IsAttempt(action: Action) {
    action.Act? && (action.move.TryLock? || action.move.FailLock?)
  }

  /** Nothing but an attempt takes a free row. */
  lemma {:induction false} StaysFree(plan: Plan, gs: seq<Global>, actions: seq<Action>, k: nat)
    requires IsRun(plan, gs, actions) && k < |gs| && LockFree(gs[0].db, LOCK_ID)
    requires forall i :: 0 <= i < k ==> !IsAttempt(actions[i])
    ensures LockFree(gs[k].db, LOCK_ID)
  {
    if k > 0 {
      StaysFree(plan, gs, actions, k - 1);
      assert Next(plan, gs[k - 1], actions[k - 1], gs[k]);
    }
  }

  /** When a holder releases, the row is free at once, whatever it held; and it stays so until the next
      attempt, which gets in and has five minutes from then. */
  lemma {:induction false} ReleaseLetsNextIn(plan: Plan, g: Global, p: nat, gs: seq<Global>, actions: seq<Action>,
                                             q: nat, g': Global)
    requires IsRun(plan, gs, actions) && forall i :: 0 <= i < |actions| ==> !IsAttempt(actions[i])
    requires Next(plan, g, Act(p, Release), gs[0]) && g.processes[p].locked && HasLockRow(g.db, LOCK_ID)
    requires Next(plan, gs[|actions|], Act(q, TryLock), g')
    ensures LockFree(gs[0].db, LOCK_ID)
    ensures g'.processes[q].pc.Inside() && g'.processes[q].lease == g'.db.now + 300
    ensures HasLockRow(g'.db, LOCK_ID) && Expiration(g'.db, LOCK_ID) == g'.db.now + 300
  {
    StaysFree(plan, gs, actions, |actions|);
  }

  // ---------------------------------------------------------------- execution

  ghost predicate SomeoneAttempting(g: Global) {
    exists p :: 0 <= p < |g.processes| && Attempting(g.processes[p].pc)
  }

  predicate IsAbort(g: Global, action: Action) {
    action.Act? && action.who < |g.processes| &&
    (action.move.Abort? || (action.move.Crash? && g.processes[action.who].pc.InBody()))
  }

  /** How many updaters gave up in the middle of the scripts. */
  function Aborts(gs: seq<Global>, actions: seq<Action>): nat
    requires |gs| == |actions| + 1
  {
    var n := |actions|;
    if n == 0 then 0 else Aborts(gs[..n], actions[..n - 1]) + if IsAbort(gs[n - 1], actions[n - 1]) then 1 else 0
  }

  ghost predicate PlacedAt(plan: Plan, g: Global, p: nat, m: nat, h: seq<Attempt>)
    requires p < |g.processes|
  {
    Placed(plan, g.processes[p].pc, m, h)
  }

  ghost predicate AllPlaced(plan: Plan, g: Global, m: nat, h: seq<Attempt>) {
    forall p: nat {:trigger PlacedAt(plan, g, p, m, h)} :: p < |g.processes| ==> PlacedAt(plan, g, p, m, h)
  }

  ghost predicate Accounted(plan: Plan, m0: nat, base: seq<Entry>, g: Global, h: seq<Attempt>, aborts: nat) {
    && Explained(plan, m0, base, g.db.content, h)
    && AllPlaced(plan, g, m0 + Marks(h), h)
    && Loose(h) <= aborts + if SomeoneAttempting(g) then 1 else 0
  }

  /** For an updater outside the body, more marks do not matter. */
  lemma {:induction false} OutsideStaysPlaced(plan: Plan, pc: Pc, m: nat, h: seq<Attempt>, m': nat, h': seq<Attempt>)
    requires Placed(plan, pc, m, h) && !pc.InBody() && m <= m' <= |plan.tasks|
    ensures Placed(plan, pc, m', h')
  {
  }

  lemma {:induction false} AllStayPlaced(plan: Plan, g: Global, who: nat, g': Global, m: nat, h: seq<Attempt>,
                                         m': nat, h': seq<Attempt>)
    requires AllPlaced(plan, g, m, h) && AtMostOneInside(g) && who < |g.processes|
    requires |g'.processes| == |g.processes| && g'.processes == g.processes[who := g'.processes[who]]
    requires Placed(plan, g'.processes[who].pc, m', h') && m <= m' <= |plan.tasks|
    requires !g.processes[who].pc.InBody() ==> h' == h && m' == m
    ensures AllPlaced(plan, g', m', h')
  {
    forall q: nat | q < |g'.processes|
      ensures PlacedAt(plan, g', q, m', h')
    {
      if q != who {
        assert PlacedAt(plan, g, q, m, h);
        assert g'.processes[q] == g.processes[q];
        if g.processes[who].pc.InBody() {
          OutsideStaysPlaced(plan, g.processes[q].pc, m, h, m', h');
        }
      }
    }
  }

  /** What the mover's move did to the history. */
  ghost predicate MoverDone(plan: Plan, m0: nat, base: seq<Entry>, g: Global, who: nat, g': Global, h: seq<Attempt>,
                            h': seq<Attempt>, abort: nat)
    requires who < |g.processes| == |g'.processes|
  {
    && Explained(plan, m0, base, g'.db.content, h') && PlacedAt(plan, g', who, m0 + Marks(h'), h')
    && Marks(h) <= Marks(h') && (!g.processes[who].pc.InBody() ==> h' == h)
    && Loose(h') + (if Attempting(g.processes[who].pc) then 1 else 0) <=
       Loose(h) + (if Attempting(g'.processes[who].pc) then 1 else 0) + abort
  }

  lemma {:induction false} AttemptsEnd(plan: Plan, move: Move, c: Config, c': Config)
    requires Moves(plan, move, c, c')
    ensures (if move.Take? then 1 else 0) + (if Attempting(c.process.pc) then 1 else 0) <=
            (if Attempting(c'.process.pc) then 1 else 0) + (if move.Mark? then 1 else 0)
            + (if move.Abort? || (move.Crash? && c.process.pc.InBody()) then 1 else 0)
  {
  }

  lemma {:induction false} MoverKeeps(plan: Plan, m0: nat, base: seq<Entry>, g: Global, who: nat, move: Move,
                                      g': Global, h: seq<Attempt>)
    returns (h': seq<Attempt>)
    requires Plain(plan, m0, base) && who < |g.processes| == |g'.processes|
    requires Explained(plan, m0, base, g.db.content, h) && PlacedAt(plan, g, who, m0 + Marks(h), h)
    requires Moves(plan, move, Config(g.processes[who], g.db), Config(g'.processes[who], g'.db))
    ensures MoverDone(plan, m0, base, g, who, g', h, h', if IsAbort(g, Act(who, move)) then 1 else 0)
  {
    var c, c' := Config(g.processes[who], g.db), Config(g'.processes[who], g'.db);
    h' := MoveKeeps(plan, m0, base, move, c, c', h);
    AttemptsEnd(plan, move, c, c');
  }

  lemma {:induction false} AfterMove(plan: Plan, m0: nat, base: seq<Entry>, g: Global, who: nat, g': Global,
                                     h: seq<Attempt>, h': seq<Attempt>, aborts: nat, abort: nat)
    requires Accounted(plan, m0, base, g, h, aborts) && AtMostOneInside(g)
    requires who < |g.processes| == |g'.processes| && g'.processes == g.processes[who := g'.processes[who]]
    requires MoverDone(plan, m0, base, g, who, g', h, h', abort)
    ensures Accounted(plan, m0, base, g', h', aborts + abort)
  {
    AllStayPlaced(plan, g, who, g', m0 + Marks(h), h, m0 + Marks(h'), h');
    if Attempting(g'.processes[who].pc) {
      assert SomeoneAttempting(g');
    }
    if SomeoneAttempting(g) && !Attempting(g.processes[who].pc) {
      var p :| 0 <= p < |g.processes| && Attempting(g.processes[p].pc);
      assert g'.processes[p] == g.processes[p];
      assert SomeoneAttempting(g');
    }
  }

  lemma {:induction false} ActionKeeps(plan: Plan, m0: nat, base: seq<Entry>, g: Global, action: Action, g': Global,
                    h: seq<Attempt>, aborts: nat) returns (h': seq<Attempt>)
    requires Plain(plan, m0, base) && Accounted(plan, m0, base, g, h, aborts) && AtMostOneInside(g)
    requires Next(plan, g, action, g')
    ensures Accounted(plan, m0, base, g', h', aborts + if IsAbort(g, action) then 1 else 0)
  {
    match action
    case Act(who, move) =>
      assert PlacedAt(plan, g, who, m0 + Marks(h), h);
      h' := MoverKeeps(plan, m0, base, g, who, move, g', h);
      AfterMove(plan, m0, base, g, who, g', h, h', aborts, if IsAbort(g, action) then 1 else 0);
    case Tick =>
      h' := h;
      TickKeeps(plan, g, g', m0 + Marks(h), h);
    case Restart(who) =>
      h' := h;
      RestartKeeps(plan, g, who, g', m0 + Marks(h), h);
  }

  lemma {:induction false} TickKeeps(plan: Plan, g: Global, g': Global, m: nat, h: seq<Attempt>)
    requires AllPlaced(plan, g, m, h) && g'.processes == g.processes
    ensures AllPlaced(plan, g', m, h)
  {
    forall q: nat | q < |g'.processes|
      ensures PlacedAt(plan, g', q, m, h)
    {
      assert PlacedAt(plan, g, q, m, h);
    }
  }

  lemma {:induction false} RestartKeeps(plan: Plan, g: Global, who: nat, g': Global, m: nat, h: seq<Attempt>)
    requires AllPlaced(plan, g, m, h) && Next(plan, g, Restart(who), g')
    ensures AllPlaced(plan, g', m, h)
    ensures SomeoneAttempting(g) ==> SomeoneAttempting(g')
  {
    forall q: nat | q < |g'.processes|
      ensures PlacedAt(plan, g', q, m, h)
    {
      assert PlacedAt(plan, g, q, m, h);
      assert q != who ==> g'.processes[q] == g.processes[q];
    }
    if SomeoneAttempting(g) {
      var p :| 0 <= p < |g.processes| && Attempting(g.processes[p].pc);
      assert g'.processes[p] == g.processes[p];
    }
  }

  /** The setting of the theorems: a run from processes that have not entered, on a database
      where m0 steps are marked; either the lock row exists and the discipline is kept, or
      there is only one updater slot. */
  ghost predicate Supervised(plan: Plan, m0: nat, gs: seq<Global>, actions: seq<Action>) {
    && IsRun(plan, gs, actions)
    && MarkedUpTo(plan, gs[0].db.content.marks, m0)
    && (forall p :: 0 <= p < |gs[0].processes| ==> gs[0].processes[p] == START)
    && (|gs[0].processes| <= 1 || (HasLockRow(gs[0].db, LOCK_ID) && forall i :: 0 <= i < |gs| ==> Disciplined(gs[i])))
  }

  lemma {:induction false} SameProcesses(plan: Plan, gs: seq<Global>, actions: seq<Action>, k: nat)
    requires IsRun(plan, gs, actions) && k < |gs|
    ensures |gs[k].processes| == |gs[0].processes|
  {
    if k > 0 {
      SameProcesses(plan, gs, actions, k - 1);
      assert Next(plan, gs[k - 1], actions[k - 1], gs[k]);
    }
  }

  lemma {:induction false} OneInsideAt(plan: Plan, m0: nat, gs: seq<Global>, actions: seq<Action>, k: nat)
    requires Supervised(plan, m0, gs, actions) && k < |gs|
    ensures AtMostOneInside(gs[k])
  {
    SameProcesses(plan, gs, actions, k);
    if |gs[0].processes| > 1 {
      MutualExclusion(plan, gs, actions, k);
    }
  }

  lemma {:induction false} SupervisedBefore(plan: Plan, m0: nat, gs: seq<Global>, actions: seq<Action>)
    requires Supervised(plan, m0, gs, actions) && actions != []
    ensures Supervised(plan, m0, gs[..|actions|], actions[..|actions| - 1])
    ensures Next(plan, gs[|actions| - 1], actions[|actions| - 1], gs[|actions|])
  {
  }

  lemma {:induction false} AbortsNext(gs: seq<Global>, actions: seq<Action>)
    requires |gs| == |actions| + 1 && actions != []
    ensures var n := |actions|;
      Aborts(gs, actions) == Aborts(gs[..n], actions[..n - 1]) + if IsAbort(gs[n - 1], actions[n - 1]) then 1 else 0
  {
  }

  lemma {:induction false} NobodyStarted(plan: Plan, m0: nat, gs: seq<Global>)
    requires gs != [] && MarkedUpTo(plan, gs[0].db.content.marks, m0)
    requires forall p :: 0 <= p < |gs[0].processes| ==> gs[0].processes[p] == START
    ensures Accounted(plan, m0, gs[0].db.content.log, gs[0], [], 0)
  {
  }

  lemma {:induction false} RunKeeps(plan: Plan, m0: nat, gs: seq<Global>, actions: seq<Action>)
    returns (h: seq<Attempt>)
    requires Supervised(plan, m0, gs, actions) && Plain(plan, m0, gs[0].db.content.log)
    ensures Accounted(plan, m0, gs[0].db.content.log, gs[|actions|], h, Aborts(gs, actions))
  {
    var n := |actions|;
    if n == 0 {
      NobodyStarted(plan, m0, gs);
      h := [];
    } else {
      SupervisedBefore(plan, m0, gs, actions);
      var before := RunKeeps(plan, m0, gs[..n], actions[..n - 1]);
      OneInsideAt(plan, m0, gs, actions, n - 1);
      h := ActionKeeps(plan, m0, gs[0].db.content.log, gs[n - 1], actions[n - 1], gs[n], before,
                       Aborts(gs[..n], actions[..n - 1]));
      AbortsNext(gs, actions);
    }
  }

  /** At least once, with an exact bound on repeats: across all updaters together, the
      attempts exceed the newly marked steps by at most one per abort, plus the one that
      may be under way. */
  lemma {:induction false} AtLeastOnce(plan: Plan, m0: nat, gs: seq<Global>, actions: seq<Action>)
    returns (h: seq<Attempt>)
    requires Supervised(plan, m0, gs, actions) && Plain(plan, m0, gs[0].db.content.log)
    ensures Explained(plan, m0, gs[0].db.content.log, gs[|actions|].db.content, h)
    ensures |h| <= Marks(h) + Aborts(gs, actions) + if SomeoneAttempting(gs[|actions|]) then 1 else 0
  {
    h := RunKeeps(plan, m0, gs, actions);
    MarksAndLoose(h);
  }

  /** As long as nobody aborts, the committed log is a prefix of that of the script's steps, once each. */
  lemma {:induction false} LogIsPrefix(plan: Plan, m0: nat, base: seq<Entry>, g: Global, h: seq<Attempt>)
    returns (does: seq<seq<Unit>>)
    requires Accounted(plan, m0, base, g, h, 0)
    ensures DoneSoFar(plan, m0, base, g.db.content.log, does)
  {
    if SomeoneAttempting(g) {
      var p :| 0 <= p < |g.processes| && Attempting(g.processes[p].pc);
      assert PlacedAt(plan, g, p, m0 + Marks(h), h);
    }
    does := AlmostMarkedLog(plan, m0, h);
  }

  /** Once an updater has finished without aborts, all of them have been executed. */
  lemma {:induction false} LogIsComplete(plan: Plan, m0: nat, base: seq<Entry>, g: Global, h: seq<Attempt>, p: nat)
    returns (does: seq<seq<Unit>>)
    requires Accounted(plan, m0, base, g, h, 0) && p < |g.processes| && g.processes[p].pc.Finished?
    ensures DoneOnce(plan, m0, base, g.db.content, |plan.tasks|, does)
  {
    assert PlacedAt(plan, g, p, m0 + Marks(h), h);
    forall q | 0 <= q < |g.processes|
      ensures !Attempting(g.processes[q].pc)
    {
      assert PlacedAt(plan, g, q, m0 + Marks(h), h);
    }
    does := AllMarkedIsDone(plan, m0, base, g.db.content, h);
  }

  /** Exactly once: if nobody aborts, the committed log is always a prefix of the log of the
      script's steps, each executed completely and once; and it is all of it, with every step
      marked, once any updater has finished. */
  lemma {:induction false} ExactlyOnce(plan: Plan, m0: nat, gs: seq<Global>, actions: seq<Action>)
    returns (does: seq<seq<Unit>>)
    requires Supervised(plan, m0, gs, actions) && Plain(plan, m0, gs[0].db.content.log) && Aborts(gs, actions) == 0
    ensures var base, g := gs[0].db.content.log, gs[|actions|];
      && DoneSoFar(plan, m0, base, g.db.content.log, does)
      && ((exists p :: 0 <= p < |g.processes| && g.processes[p].pc.Finished?) ==>
            DoneOnce(plan, m0, base, g.db.content, |plan.tasks|, does))
  {
    var base, g := gs[0].db.content.log, gs[|actions|];
    var h := RunKeeps(plan, m0, gs, actions);
    if p :| 0 <= p < |g.processes| && g.processes[p].pc.Finished? {
      does := LogIsComplete(plan, m0, base, g, h, p);
    } else {
      does := LogIsPrefix(plan, m0, base, g, h);
    }
  }
}
