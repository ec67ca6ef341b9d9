/**
 Several upgrades on one database, each known by its own history only. Histories that
 can be woven into one order of events, so that what each session finds changed is what
 the others and the clock did, are a run of the interleaved machine.
 */
module Sessions {
  import opened UpgradeMachine
  import opened Migration
  import opened History
  import opened Interleaving

  /** An upgrade as its session lived through it. */
  datatype Session = Session(rivals: Rivalry, start: Config, history: seq<Beat>)

  function Here(s: Session, k: nat): Config
    requires k <= |s.history|
  {
    Moment(s.start, s.history, k)
  }

  function End(s: Session): Config {
    Here(s, |s.history|)
  }

  ghost predicate IsSession(plan: Plan, s: Session) {
    s.start.process == START && IsHistory(plan, s.rivals, s.start, s.history)
  }

  ghost predicate AreSessions(plan: Plan, sessions: seq<Session>) {
    forall p :: 0 <= p < |sessions| ==> IsSession(plan, sessions[p])
  }

  // ------------------------------------------------------------------ weaving

  /** Whose next beat is due; or the clock goes on. */
  datatype Turn = Of(who: nat) | Clock

  /** The database, and how many beats each session has had. */
  datatype Stage = Stage(db: Shared, at: seq<nat>)

  predicate OnStage(sessions: seq<Session>, s: Stage) {
    |s.at| == |sessions| && forall p :: 0 <= p < |s.at| ==> s.at[p] <= |sessions[p].history|
  }

  /** A session's own move starts from the database as it is, and makes it what it is next. What
      a session finds others to have done is the database as it is by now. */
  ghost predicate Beats(session: Session, k: nat, db: Shared, db': Shared)
    requires k < |session.history|
  {
    match session.history[k]
    case Own(_, after) => Here(session, k).db == db && after.db == db'
    case Other(after) => after.db == db && db' == db
  }

  ghost predicate Takes(sessions: seq<Session>, s: Stage, turn: Turn, s': Stage) {
    && OnStage(sessions, s) && OnStage(sessions, s')
    && match turn
       case Of(p) =>
         && p < |sessions| && s.at[p] < |sessions[p].history|
         && s'.at == s.at[p := s.at[p] + 1]
         && Beats(sessions[p], s.at[p], s.db, s'.db)
       case Clock => s'.at == s.at && Elapse(s.db, s'.db)
  }

  ghost predicate TakesAt(sessions: seq<Session>, stages: seq<Stage>, turns: seq<Turn>, k: nat)
    requires k < |turns| && k + 1 < |stages|
  {
    Takes(sessions, stages[k], turns[k], stages[k + 1])
  }

  /** One order of all beats, from where no session has begun. */
  ghost predicate Woven(sessions: seq<Session>, stages: seq<Stage>, turns: seq<Turn>) {
    && |stages| == |turns| + 1
    && OnStage(sessions, stages[0]) && (forall p :: 0 <= p < |sessions| ==> stages[0].at[p] == 0)
    && forall k: nat {:trigger TakesAt(sessions, stages, turns, k)} ::
         k < |turns| ==> TakesAt(sessions, stages, turns, k)
  }

  function GlobalOf(sessions: seq<Session>, s: Stage): (g: Global)
    requires OnStage(sessions, s)
    ensures g.db == s.db && |g.processes| == |sessions|
    ensures forall p :: 0 <= p < |sessions| ==> g.processes[p] == Here(sessions[p], s.at[p]).process
  {
    Global(s.db, seq(|sessions|, p requires 0 <= p < |sessions| => Here(sessions[p], s.at[p]).process))
  }

  function ActionOf(sessions: seq<Session>, s: Stage, turn: Turn): Action
    requires OnStage(sessions, s)
    requires turn.Of? ==> turn.who < |sessions| && s.at[turn.who] < |sessions[turn.who].history|
  {
    match turn
    case Clock => Tick
    case Of(p) =>
      match sessions[p].history[s.at[p]]
      case Own(move, _) => Act(p, move)
      case Other(_) => Tick
  }

  lemma {:induction false} TurnIsAction(plan: Plan, sessions: seq<Session>, s: Stage, turn: Turn, s': Stage)
    requires AreSessions(plan, sessions) && Takes(sessions, s, turn, s')
    ensures Next(plan, GlobalOf(sessions, s), ActionOf(sessions, s, turn), GlobalOf(sessions, s'))
  {
    var g, g' := GlobalOf(sessions, s), GlobalOf(sessions, s');
    if turn.Of? {
      var p := turn.who;
      var session := sessions[p];
      assert IsSession(plan, session);
      assert BeatAt(plan, session.rivals, session.start, session.history, s.at[p]);
      assert Here(session, s.at[p] + 1) == session.history[s.at[p]].after;
      assert g'.processes == g.processes[p := g'.processes[p]];
    } else {
      assert g'.processes == g.processes;
    }
  }

  lemma {:induction false} AllOnStage(sessions: seq<Session>, stages: seq<Stage>, turns: seq<Turn>, k: nat)
    requires Woven(sessions, stages, turns) && k < |stages|
    ensures OnStage(sessions, stages[k])
  {
    if k > 0 {
      assert TakesAt(sessions, stages, turns, k - 1);
    }
  }

  ghost function GlobalsOf(sessions: seq<Session>, stages: seq<Stage>, turns: seq<Turn>): (gs: seq<Global>)
    requires Woven(sessions, stages, turns)
    ensures |gs| == |stages|
    ensures forall k :: 0 <= k < |gs| ==> OnStage(sessions, stages[k]) && gs[k] == GlobalOf(sessions, stages[k])
  {
    assert forall k {:trigger stages[k]} :: 0 <= k < |stages| ==> OnStage(sessions, stages[k]) by {
      forall k | 0 <= k < |stages|
        ensures OnStage(sessions, stages[k])
      {
        AllOnStage(sessions, stages, turns, k);
      }
    }
    seq(|stages|, k requires 0 <= k < |stages| => GlobalOf(sessions, stages[k]))
  }

  ghost function ActionsOf(sessions: seq<Session>, stages: seq<Stage>, turns: seq<Turn>): (actions: seq<Action>)
    requires Woven(sessions, stages, turns)
    ensures |actions| == |turns|
    ensures forall k: nat {:trigger actions[k]} :: k < |turns| ==>
      TakesAt(sessions, stages, turns, k) && actions[k] == ActionOf(sessions, stages[k], turns[k])
  {
    seq(|turns|, k requires 0 <= k < |turns| =>
      assert TakesAt(sessions, stages, turns, k);
      ActionOf(sessions, stages[k], turns[k]))
  }

  /** Woven histories are a run of all updaters together. */
  lemma {:induction false} WovenIsRun(plan: Plan, sessions: seq<Session>, stages: seq<Stage>, turns: seq<Turn>)
    requires AreSessions(plan, sessions) && Woven(sessions, stages, turns)
    ensures IsRun(plan, GlobalsOf(sessions, stages, turns), ActionsOf(sessions, stages, turns))
  {
    var gs, actions := GlobalsOf(sessions, stages, turns), ActionsOf(sessions, stages, turns);
    forall k | 0 <= k < |actions|
      ensures Next(plan, gs[k], actions[k], gs[k + 1])
    {
      assert TakesAt(sessions, stages, turns, k);
      TurnIsAction(plan, sessions, stages[k], turns[k], stages[k + 1]);
    }
  }

  // ---------------------------------------------- every run can be woven

  /** What updater p lives through in a run: its own moves, and everything else as the doing of others. */
  function HistoryOf(gs: seq<Global>, actions: seq<Action>, p: nat): (history: seq<Beat>)
    requires |gs| == |actions| + 1 && forall g :: g in gs ==> p < |g.processes|
    ensures |history| == |actions|
    ensures forall k :: 0 <= k < |actions| ==> history[k].after == Config(gs[k + 1].processes[p], gs[k + 1].db)
    ensures forall k :: 0 <= k < |actions| ==>
      if actions[k].Act? && actions[k].who == p then history[k].Own? && history[k].move == actions[k].move
      else history[k].Other?
  {
    seq(|actions|, k requires 0 <= k < |actions| =>
      var after := Config(gs[k + 1].processes[p], gs[k + 1].db);
      if actions[k].Act? && actions[k].who == p then Own(actions[k].move, after) else Other(after))
  }

  function SessionOf(gs: seq<Global>, actions: seq<Action>, p: nat): Session
    requires |gs| == |actions| + 1 && forall g :: g in gs ==> p < |g.processes|
  {
    Session((db, db') => true, Config(gs[0].processes[p], gs[0].db), HistoryOf(gs, actions, p))
  }

  /** A run of updaters that have not started yet and start once. */
  ghost predicate FreshRun(plan: Plan, gs: seq<Global>, actions: seq<Action>) {
    && IsRun(plan, gs, actions)
    && (forall p :: 0 <= p < |gs[0].processes| ==> gs[0].processes[p] == START)
    && (forall k :: 0 <= k < |actions| ==> !actions[k].Restart?)
    && (forall k {:trigger gs[k]} :: 0 <= k < |gs| ==> |gs[k].processes| == |gs[0].processes|)
  }

  ghost function SessionsOf(plan: Plan, gs: seq<Global>, actions: seq<Action>): (sessions: seq<Session>)
    requires FreshRun(plan, gs, actions)
    ensures |sessions| == |gs[0].processes|
    ensures forall p :: 0 <= p < |sessions| ==> sessions[p] == SessionOf(gs, actions, p)
  {
    seq(|gs[0].processes|, p requires 0 <= p < |gs[0].processes| => SessionOf(gs, actions, p))
  }

  lemma {:induction false} ClockStands(plan: Plan, move: Move, c: Config, c': Config)
    requires Moves(plan, move, c, c')
    ensures c'.db.now == c.db.now
  {
  }

  lemma {:induction false} SessionOfIsSession(plan: Plan, gs: seq<Global>, actions: seq<Action>, p: nat)
    requires FreshRun(plan, gs, actions) && p < |gs[0].processes|
    ensures IsSession(plan, SessionOf(gs, actions, p))
  {
    var s := SessionOf(gs, actions, p);
    forall k: nat | k < |actions|
      ensures BeatAt(plan, s.rivals, s.start, s.history, k)
    {
      assert Next(plan, gs[k], actions[k], gs[k + 1]);
      assert Here(s, k) == Config(gs[k].processes[p], gs[k].db);
      if actions[k].Act? && actions[k].who != p {
        var who := actions[k].who;
        ClockStands(plan, actions[k].move, Config(gs[k].processes[who], gs[k].db),
                    Config(gs[k + 1].processes[who], gs[k + 1].db));
      }
    }
  }

  lemma {:induction false} WovenGrows(sessions: seq<Session>, stages: seq<Stage>, turns: seq<Turn>, turn: Turn,
                                      s': Stage)
    requires Woven(sessions, stages, turns) && Takes(sessions, stages[|turns|], turn, s')
    ensures Woven(sessions, stages + [s'], turns + [turn])
  {
    forall k: nat | k < |turns| + 1
      ensures TakesAt(sessions, stages + [s'], turns + [turn], k)
    {
      if k < |turns| {
        assert TakesAt(sessions, stages, turns, k);
      }
    }
  }

  /** The first q sessions, and the one that acts, have had n + 1 beats; the others n. */
  function Halfway(n: nat, sessions: nat, actor: int, q: nat): seq<nat> {
    seq(sessions, p requires 0 <= p < sessions => if p < q || p == actor then n + 1 else n)
  }

  function Actor(action: Action): int {
    if action.Act? then action.who else -1
  }

  lemma {:induction false} HalfwayOnStage(plan: Plan, gs: seq<Global>, actions: seq<Action>, n: nat, actor: int)
    requires FreshRun(plan, gs, actions) && n < |actions|
    ensures OnStage(SessionsOf(plan, gs, actions), Stage(gs[n].db, Halfway(n, |gs[0].processes|, -1, 0)))
    ensures OnStage(SessionsOf(plan, gs, actions), Stage(gs[n + 1].db, Halfway(n, |gs[0].processes|, actor, 0)))
  {
  }

  /** One action of the run: the actor's beat, or the clock. */
  lemma {:induction false} ActionTakes(plan: Plan, gs: seq<Global>, actions: seq<Action>, n: nat) returns (turn: Turn)
    requires FreshRun(plan, gs, actions) && n < |actions|
    ensures var sessions, m := SessionsOf(plan, gs, actions), |gs[0].processes|;
      Takes(sessions, Stage(gs[n].db, Halfway(n, m, -1, 0)), turn,
            Stage(gs[n + 1].db, Halfway(n, m, Actor(actions[n]), 0)))
  {
    var m := |gs[0].processes|;
    assert Next(plan, gs[n], actions[n], gs[n + 1]);
    turn := if actions[n].Act? then Of(actions[n].who) else Clock;
    HalfwayOnStage(plan, gs, actions, n, Actor(actions[n]));
    var at, at' := Halfway(n, m, -1, 0), Halfway(n, m, Actor(actions[n]), 0);
    if actions[n].Act? {
      ActorBeats(plan, gs, actions, n);
      assert at' == at[actions[n].who := n + 1];
    } else {
      assert at' == at;
    }
  }

  lemma {:induction false} ActorBeats(plan: Plan, gs: seq<Global>, actions: seq<Action>, n: nat)
    requires FreshRun(plan, gs, actions) && n < |actions| && actions[n].Act? && actions[n].who < |gs[0].processes|
    ensures var session := SessionOf(gs, actions, actions[n].who);
      n < |session.history| && Beats(session, n, gs[n].db, gs[n + 1].db)
  {
    var p := actions[n].who;
    assert Here(SessionOf(gs, actions, p), n) == Config(gs[n].processes[p], gs[n].db);
  }

  /** Then session q finds out, unless it is the one that acted. */
  lemma {:induction false} NextFindsOut(plan: Plan, gs: seq<Global>, actions: seq<Action>, n: nat, q: nat)
    requires FreshRun(plan, gs, actions) && n < |actions| && q < |gs[0].processes|
    ensures var sessions, m, actor := SessionsOf(plan, gs, actions), |gs[0].processes|, Actor(actions[n]);
      if q == actor then Halfway(n, m, actor, q + 1) == Halfway(n, m, actor, q)
      else Takes(sessions, Stage(gs[n + 1].db, Halfway(n, m, actor, q)), Of(q),
                 Stage(gs[n + 1].db, Halfway(n, m, actor, q + 1)))
  {
    var m, actor := |gs[0].processes|, Actor(actions[n]);
    var at, at' := Halfway(n, m, actor, q), Halfway(n, m, actor, q + 1);
    if q != actor {
      assert at' == at[q := at[q] + 1];
    }
  }

  /** Woven are the first n actions, and of the next one what the first q sessions find out. */
  ghost predicate WovenUpTo(plan: Plan, gs: seq<Global>, actions: seq<Action>, n: nat, q: nat,
                            stages: seq<Stage>, turns: seq<Turn>)
    requires FreshRun(plan, gs, actions) && n < |actions|
  {
    && Woven(SessionsOf(plan, gs, actions), stages, turns) && stages[0].db == gs[0].db
    && stages[|turns|] == Stage(gs[n + 1].db, Halfway(n, |gs[0].processes|, Actor(actions[n]), q))
  }

  lemma {:induction false} WeaveAction(plan: Plan, gs: seq<Global>, actions: seq<Action>, n: nat,
                                       before: seq<Stage>, earlier: seq<Turn>)
    returns (stages: seq<Stage>, turns: seq<Turn>)
    requires FreshRun(plan, gs, actions) && n < |actions|
    requires Woven(SessionsOf(plan, gs, actions), before, earlier) && before[0].db == gs[0].db
    requires before[|earlier|] == Stage(gs[n].db, Halfway(n, |gs[0].processes|, -1, 0))
    ensures WovenUpTo(plan, gs, actions, n, 0, stages, turns)
  {
    var turn := ActionTakes(plan, gs, actions, n);
    var s' := Stage(gs[n + 1].db, Halfway(n, |gs[0].processes|, Actor(actions[n]), 0));
    WovenGrows(SessionsOf(plan, gs, actions), before, earlier, turn, s');
    stages, turns := before + [s'], earlier + [turn];
  }

  lemma {:induction false} WeaveFinding(plan: Plan, gs: seq<Global>, actions: seq<Action>, n: nat, q: nat,
                                        before: seq<Stage>, earlier: seq<Turn>)
    returns (stages: seq<Stage>, turns: seq<Turn>)
    requires FreshRun(plan, gs, actions) && n < |actions| && q < |gs[0].processes|
    requires WovenUpTo(plan, gs, actions, n, q, before, earlier)
    ensures WovenUpTo(plan, gs, actions, n, q + 1, stages, turns)
  {
    stages, turns := before, earlier;
    NextFindsOut(plan, gs, actions, n, q);
    if q != Actor(actions[n]) {
      var s' := Stage(gs[n + 1].db, Halfway(n, |gs[0].processes|, Actor(actions[n]), q + 1));
      WovenGrows(SessionsOf(plan, gs, actions), before, earlier, Of(q), s');
      stages, turns := before + [s'], earlier + [Of(q)];
    }
  }

  lemma {:induction false} Weave(plan: Plan, gs: seq<Global>, actions: seq<Action>, n: nat, q: nat)
    returns (stages: seq<Stage>, turns: seq<Turn>)
    requires FreshRun(plan, gs, actions) && n < |actions| && q <= |gs[0].processes|
    ensures WovenUpTo(plan, gs, actions, n, q, stages, turns)
    decreases n, q
  {
    var m := |gs[0].processes|;
    if q > 0 {
      stages, turns := Weave(plan, gs, actions, n, q - 1);
      stages, turns := WeaveFinding(plan, gs, actions, n, q - 1, stages, turns);
    } else {
      stages, turns := [Stage(gs[0].db, Halfway(0, m, -1, 0))], [];
      if n > 0 {
        stages, turns := Weave(plan, gs, actions, n - 1, m);
        assert Halfway(n - 1, m, Actor(actions[n - 1]), m) == Halfway(n, m, -1, 0);
      }
      stages, turns := WeaveAction(plan, gs, actions, n, stages, turns);
    }
  }

  /** Conversely every run of updaters that start once is woven from histories of its own. */
  lemma {:induction false} RunIsWoven(plan: Plan, gs: seq<Global>, actions: seq<Action>)
    returns (sessions: seq<Session>, stages: seq<Stage>, turns: seq<Turn>)
    requires IsRun(plan, gs, actions) && forall k :: 0 <= k < |actions| ==> !actions[k].Restart?
    requires forall p :: 0 <= p < |gs[0].processes| ==> gs[0].processes[p] == START
    ensures AreSessions(plan, sessions) && Woven(sessions, stages, turns) && OnStage(sessions, stages[|turns|])
    ensures stages[0].db == gs[0].db && stages[|turns|].db == gs[|actions|].db
    ensures |sessions| == |gs[|actions|].processes| && forall p :: 0 <= p < |sessions| ==>
      && End(sessions[p]).process == gs[|actions|].processes[p]
      && stages[|turns|].at[p] == |sessions[p].history|
  {
    forall k | 0 <= k < |gs|
      ensures |gs[k].processes| == |gs[0].processes|
    {
      SameProcesses(plan, gs, actions, k);
    }
    sessions := SessionsOf(plan, gs, actions);
    forall p | 0 <= p < |sessions|
      ensures IsSession(plan, sessions[p])
    {
      SessionOfIsSession(plan, gs, actions, p);
    }
    if actions == [] {
      stages, turns := [Stage(gs[0].db, Halfway(0, |sessions|, -1, 0))], [];
    } else {
      stages, turns := Weave(plan, gs, actions, |actions| - 1, |sessions|);
    }
  }

  // ------------------------------------------------- what the sessions did

  /** 1 for an upgrade that gave up or died. */
  function Doomed(pc: Pc): nat {
    if pc == Leaving(true) || pc.Failed? || pc.Crashed? then 1 else 0
  }

  function DoomedCount(processes: seq<Process>): nat {
    if processes == [] then 0
    else DoomedCount(processes[..|processes| - 1]) + Doomed(processes[|processes| - 1].pc)
  }

  lemma {:induction false} OneChanges(processes: seq<Process>, p: nat, next: Process)
    requires p < |processes|
    ensures DoomedCount(processes[p := next]) + Doomed(processes[p].pc) == DoomedCount(processes) + Doomed(next.pc)
  {
    var n := |processes| - 1;
    if p < n {
      OneChanges(processes[..n], p, next);
      assert processes[p := next][..n] == processes[..n][p := next];
    } else {
      assert processes[p := next][..n] == processes[..n];
    }
  }

  lemma {:induction false} AbortDooms(plan: Plan, g: Global, action: Action, g': Global)
    requires Next(plan, g, action, g') && !action.Restart?
    ensures DoomedCount(g'.processes) >= DoomedCount(g.processes) + if IsAbort(g, action) then 1 else 0
  {
    if action.Act? {
      OneChanges(g.processes, action.who, g'.processes[action.who]);
    }
  }

  /** Each upgrade aborts at most once. */
  lemma {:induction false} AbortsAreDoomed(plan: Plan, gs: seq<Global>, actions: seq<Action>)
    requires IsRun(plan, gs, actions) && forall k :: 0 <= k < |actions| ==> !actions[k].Restart?
    ensures Aborts(gs, actions) <= DoomedCount(gs[|actions|].processes)
  {
    var n := |actions|;
    if n > 0 {
      AbortsAreDoomed(plan, gs[..n], actions[..n - 1]);
      AbortDooms(plan, gs[n - 1], actions[n - 1], gs[n]);
    }
  }

  /** The setting: sessions of one plan woven on a database of which m0 steps are marked, with
      the lock row in place and every holder leaving before its lease ends, or only one session. */
  ghost predicate Together(plan: Plan, m0: nat, sessions: seq<Session>, stages: seq<Stage>, turns: seq<Turn>) {
    && AreSessions(plan, sessions) && Woven(sessions, stages, turns)
    && MarkedUpTo(plan, stages[0].db.content.marks, m0) && Plain(plan, m0, stages[0].db.content.log)
    && (|sessions| > 1 ==>
          && HasLockRow(stages[0].db, LOCK_ID)
          && forall g :: g in GlobalsOf(sessions, stages, turns) ==> Disciplined(g))
  }

  /** All sessions have come to their ends, and this many of them by an exception or by dying. */
  ghost predicate AllEnded(sessions: seq<Session>, last: Stage, failed: nat) {
    && OnStage(sessions, last)
    && (forall p :: 0 <= p < |sessions| ==>
          && last.at[p] == |sessions[p].history|
          && (End(sessions[p]).process.pc.Over() || End(sessions[p]).process.pc.Waiting?))
    && DoomedCount(GlobalOf(sessions, last).processes) == failed
  }

  lemma {:induction false} TogetherIsSupervised(plan: Plan, m0: nat, sessions: seq<Session>, stages: seq<Stage>,
                                                turns: seq<Turn>)
    requires Together(plan, m0, sessions, stages, turns)
    ensures Supervised(plan, m0, GlobalsOf(sessions, stages, turns), ActionsOf(sessions, stages, turns))
    ensures var actions := ActionsOf(sessions, stages, turns);
      forall k :: 0 <= k < |actions| ==> !actions[k].Restart?
  {
    WovenIsRun(plan, sessions, stages, turns);
    var gs := GlobalsOf(sessions, stages, turns);
    forall p | 0 <= p < |sessions|
      ensures gs[0].processes[p] == START
    {
      assert IsSession(plan, sessions[p]);
    }
  }

  /** Updaters that have all ended attempt nothing; and if one succeeded, all steps are marked. */
  lemma {:induction false} NobodyAttempts(plan: Plan, g: Global, m: nat, h: seq<Attempt>)
    requires AllPlaced(plan, g, m, h)
    requires forall p :: 0 <= p < |g.processes| ==> g.processes[p].pc.Over() || g.processes[p].pc.Waiting?
    ensures !SomeoneAttempting(g)
    ensures forall p :: 0 <= p < |g.processes| && g.processes[p].pc.Finished? ==> m == |plan.tasks|
  {
    forall p | 0 <= p < |g.processes| && g.processes[p].pc.Finished?
      ensures m == |plan.tasks|
    {
      assert PlacedAt(plan, g, p, m, h);
    }
  }

  /** The first m steps have been executed, in some way. */
  ghost predicate IsDone(plan: Plan, m0: nat, base: seq<Entry>, content: Content, m: nat) {
    exists does :: DoneOnce(plan, m0, base, content, m, does)
  }

  /** What the sessions leave behind, given how many of them failed, and whether one succeeded. */
  ghost predicate OnceEach(plan: Plan, m0: nat, base: seq<Entry>, content: Content, h: seq<Attempt>,
                           failed: nat, succeeded: bool)
  {
    var m := m0 + Marks(h);
    && Explained(plan, m0, base, content, h) && |h| <= Marks(h) + failed
    && (failed == 0 ==> IsDone(plan, m0, base, content, m))
    && (succeeded ==> m == |plan.tasks|)
  }

  lemma {:induction false} UnfailedIsDone(plan: Plan, m0: nat, base: seq<Entry>, content: Content, h: seq<Attempt>,
                                          m: nat)
    requires Explained(plan, m0, base, content, h) && Loose(h) == 0 && m == m0 + Marks(h)
    ensures IsDone(plan, m0, base, content, m)
  {
    var does := AllMarkedIsDone(plan, m0, base, content, h);
    assert DoneOnce(plan, m0, base, content, m, does);
  }

  lemma {:induction false} AccountedOnce(plan: Plan, m0: nat, base: seq<Entry>, g: Global, h: seq<Attempt>,
                                         failed: nat, succeeded: bool)
    requires Accounted(plan, m0, base, g, h, failed)
    requires forall p :: 0 <= p < |g.processes| ==> g.processes[p].pc.Over() || g.processes[p].pc.Waiting?
    requires succeeded ==> exists p :: 0 <= p < |g.processes| && g.processes[p].pc.Finished?
    ensures OnceEach(plan, m0, base, g.db.content, h, failed, succeeded)
  {
    var m := m0 + Marks(h);
    MarksAndLoose(h);
    NobodyAttempts(plan, g, m, h);
    assert |h| <= Marks(h) + failed;
    if failed == 0 {
      UnfailedIsDone(plan, m0, base, g.db.content, h, m);
    }
  }

  lemma {:induction false} TogetherAccounted(plan: Plan, m0: nat, sessions: seq<Session>, stages: seq<Stage>,
                                             turns: seq<Turn>)
    returns (h: seq<Attempt>)
    requires Together(plan, m0, sessions, stages, turns)
    ensures OnStage(sessions, stages[|turns|])
    ensures var g := GlobalOf(sessions, stages[|turns|]);
      Accounted(plan, m0, stages[0].db.content.log, g, h, DoomedCount(g.processes))
  {
    var gs, actions := GlobalsOf(sessions, stages, turns), ActionsOf(sessions, stages, turns);
    TogetherIsSupervised(plan, m0, sessions, stages, turns);
    h := RunKeeps(plan, m0, gs, actions);
    AbortsAreDoomed(plan, gs, actions);
  }

  /** All upgrades together: the log consists of attempts in script order, one for each newly
      marked step and at most one more for each upgrade that failed or died. Without such, the
      newly marked steps were executed once each; and if an upgrade succeeded, that is all of them. */
  lemma {:induction false} TogetherOnce(plan: Plan, m0: nat, sessions: seq<Session>, stages: seq<Stage>,
                                        turns: seq<Turn>, failed: nat)
    returns (h: seq<Attempt>)
    requires Together(plan, m0, sessions, stages, turns) && AllEnded(sessions, stages[|turns|], failed)
    ensures OnceEach(plan, m0, stages[0].db.content.log, stages[|turns|].db.content, h, failed,
                     exists p :: 0 <= p < |sessions| && End(sessions[p]).process.pc.Finished?)
  {
    h := TogetherAccounted(plan, m0, sessions, stages, turns);
    var g := GlobalOf(sessions, stages[|turns|]);
    assert forall p :: 0 <= p < |sessions| ==> g.processes[p] == End(sessions[p]).process;
    var succeeded := exists p :: 0 <= p < |sessions| && End(sessions[p]).process.pc.Finished?;
    AccountedOnce(plan, m0, stages[0].db.content.log, g, h, failed, succeeded);
  }

  /** At every moment before something fails, the committed log is a prefix of that of the
      script's steps, each executed completely and once. */
  lemma {:induction false} TogetherInOrder(plan: Plan, m0: nat, sessions: seq<Session>, stages: seq<Stage>,
                                           turns: seq<Turn>, k: nat)
    returns (does: seq<seq<Unit>>)
    requires Together(plan, m0, sessions, stages, turns) && k < |stages|
    requires DoomedCount(GlobalsOf(sessions, stages, turns)[k].processes) == 0
    ensures DoneSoFar(plan, m0, stages[0].db.content.log, stages[k].db.content.log, does)
  {
    var gs, actions := GlobalsOf(sessions, stages, turns)[..k + 1], ActionsOf(sessions, stages, turns)[..k];
    TogetherIsSupervised(plan, m0, sessions, stages, turns);
    assert Supervised(plan, m0, gs, actions);
    AbortsAreDoomed(plan, gs, actions);
    does := ExactlyOnce(plan, m0, gs, actions);
  }
}
