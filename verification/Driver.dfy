/**
 The database as one session sees it, and the provider of the session's single
 transaction. Every driver call may throw, the process may die in any of them, and
 other sessions may change the database between them.
 */
module Driver {
  import opened Wrappers
  import opened Migration
  import opened UpgradeMachine
  import opened Protocol

  /** How many of the first n calls do not return. */
  function Faults(outcome: nat -> Outcome, n: nat): nat {
    if n == 0 then 0 else Faults(outcome, n - 1) + if outcome(n - 1).Done? then 0 else 1
  }

  lemma {:induction false} NoFaults(outcome: nat -> Outcome, n: nat)
    requires forall k: nat :: outcome(k).Done?
    ensures Faults(outcome, n) == 0
  {
    if n > 0 {
      NoFaults(outcome, n - 1);
    }
  }

  class Database {
    /** What other sessions may do when they get their turn. */
    const rivals: Rivalry
    /** How each call to the outside ends: that is up to the environment, and to nobody else. */
    const outcome: nat -> Outcome
    var calls: nat
    var committed: Shared
    /** The content as the session's open transaction sees it. */
    var pending: Option<Content>
    /** The order of the session's calls. */
    var trace: Trace
    /** How many of the calls threw, or killed the process. */
    var faults: nat

    /** The upgrade as a machine: its plan, where it started, where it is, and all that has
        happened to the database since, whether by its own moves or by others. */
    ghost const plan: Plan
    ghost var start: Config
    ghost var process: Process
    ghost var history: seq<Beat>

    constructor (rivals: Rivalry, outcome: nat -> Outcome, committed: Shared, ghost plan: Plan)
      ensures this.rivals == rivals && this.outcome == outcome && this.committed == committed && this.plan == plan
      ensures pending.None? && trace == Nothing && faults == 0
      ensures Recorded() && start == Config(START, committed) && process == START
    {
      this.rivals, this.outcome, this.committed, this.plan := rivals, outcome, committed, plan;
      calls := 0;
      pending, trace, faults := None, Nothing, 0;
      start, process, history := Config(START, committed), START, [];
    }

    /** The history leads to where the process is, and to this database; and the faults so far
        are those of the environment. */
    ghost predicate Behind(db: Shared)
      reads this
    {
      && IsHistory(plan, rivals, start, history)
      && Moment(start, history, |history|) == Config(process, db)
      && faults == Faults(outcome, calls)
    }

    /** Every call returns. */
    ghost predicate Reliable() {
      forall n: nat :: outcome(n).Done?
    }

    /** The history explains the whole committed database. */
    ghost predicate Recorded()
      reads this
    {
      Behind(committed)
    }

    /** The last that happened was this move of the updater's own. */
    ghost predicate LastMove(move: Move)
      reads this
    {
      history != [] && history[|history| - 1].Own? && history[|history| - 1].move == move
    }

    /** Still the same upgrade, with its history complete and its trace legal. */
    twostate predicate Kept()
      reads this
    {
      && Recorded() && start == old(start)
      && old(State(trace)).Some? && State(trace).Some? && State(trace).value.run == old(State(trace)).value.run
    }

    /** A call with this outcome that made no move; but dying is one. */
    twostate predicate Stayed(o: Outcome)
      reads this
    {
      Kept() && process == if o.Died? then old(process).(pc := Crashed) else old(process)
    }

    /** A call with this outcome took the updater to this place if it returned; if it threw,
        the updater is still somewhere in the body. */
    twostate predicate Went(o: Outcome, to: Pc)
      reads this
    {
      && Kept() && process == old(process).(pc := process.pc)
      && match o
         case Done => process.pc == to
         case Threw => process.pc.InBody()
         case Died => process.pc == Crashed
    }

    /** What threw is the fault of the environment, or that of scripts which cannot be run, and then
        no transaction is left open; a process dies by the environment only. */
    twostate predicate Blames(o: Outcome, runnable: bool)
      reads this
    {
      match o
      case Done => faults == old(faults)
      case Threw => faults > old(faults) || (faults == old(faults) && !runnable && pending.None?)
      case Died => faults > old(faults)
    }

    /** A new upgrade begins on this session. */
    ghost method Begin()
      requires Recorded()
      modifies this`start, this`process, this`history
      ensures Recorded() && start == Config(START, committed) && process == START
    {
      start, process, history := Config(START, committed), START, [];
    }

    /** The updater has just made this move, and with it turned `before` into the database as it is. */
    ghost method Did(move: Move, before: Shared, next: Process)
      requires Behind(before) && Moves(plan, move, Config(process, before), Config(next, committed))
      modifies this`process, this`history
      ensures Recorded() && process == next && LastMove(move)
    {
      HistoryGrows(plan, rivals, start, history, Own(move, Config(next, committed)));
      process, history := next, history + [Own(move, Config(next, committed))];
    }

    /** A move that takes the updater elsewhere and leaves the database as it is. */
    ghost method Goes(move: Move, to: Pc)
      requires Recorded()
      requires Moves(plan, move, Config(process, committed), Config(process.(pc := to), committed))
      modifies this`process, this`history
      ensures Recorded() && process == old(process).(pc := to)
    {
      Did(move, committed, process.(pc := to));
    }

    method Record(event: Event)
      modifies this`trace
      ensures trace == Then(old(trace), event)
    {
      trace := Then(trace, event);
    }

    /** Time goes by, and other sessions get their turn; but while this one has a transaction
        open they leave the content alone. */
    method Idle(seconds: nat)
      requires Recorded()
      modifies this`committed, this`history
      ensures Recorded() && Meanwhile(rivals, old(committed), committed)
      ensures committed.now >= old(committed).now + seconds
      ensures pending.Some? ==> committed.content == old(committed).content
    {
      ghost var before := committed;
      var late: int := *;
      var other: Shared := *;
      if other.now >= committed.now + seconds && rivals(committed, other)
         && (pending.None? || other.content == committed.content) {
        committed := other;
      } else {
        committed := committed.(now := committed.now + seconds + if late < 0 then 0 else late);
      }
      HistoryGrows(plan, rivals, start, history, Other(Config(process, committed)));
      history := history + [Other(Config(process, committed))];
    }

    /** Any call to the outside: it returns, throws, or is the last thing the process does. */
    method Call() returns (o: Outcome)
      requires Recorded() && !process.pc.Over()
      modifies this`committed, this`history, this`process, this`calls, this`faults, this`trace
      ensures Recorded() && Meanwhile(rivals, old(committed), committed)
      ensures process == if o.Died? then old(process).(pc := Crashed) else old(process)
      ensures pending.Some? ==> committed.content == old(committed).content
      ensures trace == if o.Threw? then Then(old(trace), Faulted) else old(trace)
      ensures faults == old(faults) + if o.Done? then 0 else 1
    {
      Idle(0);
      o := outcome(calls);
      calls := calls + 1;
      match o
      case Done =>
      case Threw =>
        faults := faults + 1;
        Record(Faulted);
      case Died =>
        faults := faults + 1;
        Goes(Crash, Crashed);
    }

    /** Start a transaction; the connection has room for one only. */
    method BeginTransaction() returns (o: Outcome)
      requires Recorded() && !process.pc.Over()
      modifies this
      ensures Recorded() && start == old(start) && Meanwhile(rivals, old(committed), committed)
      ensures process == if o.Died? then old(process).(pc := Crashed) else old(process)
      ensures o.Done? ==> old(pending).None? && pending == Some(committed.content)
      ensures !o.Done? ==> pending == old(pending)
      ensures trace == if o.Threw? then Then(old(trace), Faulted) else old(trace)
      ensures old(pending).None? ==> faults == old(faults) + if o.Done? then 0 else 1
      ensures faults >= old(faults)
    {
      o := Call();
      if o.Done? {
        if pending.Some? {
          Record(Faulted);
          return Threw;
        }
        pending := Some(committed.content);
      }
    }

    /** A command inside the transaction: it changes the pending content, or throws and does not. */
    method Execute(next: Content) returns (o: Outcome)
      requires Recorded() && !process.pc.Over() && pending.Some?
      modifies this
      ensures Recorded() && start == old(start) && committed.content == old(committed).content
      ensures process == if o.Died? then old(process).(pc := Crashed) else old(process)
      ensures pending == if o.Done? then Some(next) else old(pending)
      ensures trace == if o.Threw? then Then(old(trace), Faulted) else old(trace)
      ensures faults == old(faults) + if o.Done? then 0 else 1
    {
      o := Call();
      if o.Done? {
        pending := Some(next);
      }
    }

    /** Publishing the pending content now is this move of the updater. */
    ghost predicate Publishes(move: Move, to: Pc)
      requires pending.Some?
      reads this
    {
      forall db: Shared :: db.content == committed.content ==>
        Moves(plan, move, Config(process, db), Config(process.(pc := to), db.(content := pending.value)))
    }

    /** Commit ends the transaction. If it throws, the changes may have been committed all the same. */
    method Commit(ghost move: Move, ghost to: Pc) returns (o: Outcome)
      requires Recorded() && !process.pc.Over() && pending.Some? && Publishes(move, to)
      modifies this
      ensures Recorded() && start == old(start)
      ensures o.Died? ==> process == old(process).(pc := Crashed) && committed.content == old(committed).content
      ensures !o.Died? ==> pending.None?
      ensures o.Done? ==> process == old(process).(pc := to) && committed.content == old(pending).value
      ensures o.Threw? ==>
        || (process == old(process) && committed.content == old(committed).content)
        || (process == old(process).(pc := to) && committed.content == old(pending).value)
      ensures trace == if o.Threw? then Then(old(trace), Faulted) else old(trace)
      ensures faults == old(faults) + if o.Done? then 0 else 1
    {
      o := Call();
      if o.Died? {
        return;
      }
      var effective := true;
      if o.Threw? {
        effective := *;
      }
      if effective {
        ghost var before := committed;
        committed := committed.(content := pending.value);
        Did(move, before, process.(pc := to));
      }
      pending := None;
    }

    /** Rollback drops the changes. If it throws, the connection may be left with the transaction open. */
    method Rollback() returns (o: Outcome)
      requires Recorded() && !process.pc.Over() && pending.Some?
      modifies this
      ensures Recorded() && start == old(start) && committed.content == old(committed).content
      ensures process == if o.Died? then old(process).(pc := Crashed) else old(process)
      ensures o.Done? ==> pending.None?
      ensures trace == if o.Threw? then Then(old(trace), Faulted) else old(trace)
      ensures faults == old(faults) + if o.Done? then 0 else 1
    {
      o := Call();
      if o.Done? {
        pending := None;
      } else if o.Threw? {
        if * {
          pending := None;
        }
      }
    }
  }

  /** Begin, commit and rollback over one slot. */
  class TransactionProvider {
    const db: Database
    /** The slot is filled. */
    var active: bool

    constructor (db: Database)
      ensures this.db == db && !active
    {
      this.db := db;
      active := false;
    }

    /** The slot agrees with the trace, and a filled slot stands for an open transaction. */
    ghost predicate Valid(held: Held)
      reads this, db
    {
      && db.Recorded()
      && State(db.trace) == Some(held) && held.transaction == active
      && (active ==> db.pending.Some?)
    }

    /** No transaction is open, neither in the slot nor on the connection, and nothing has thrown. */
    ghost predicate Ready(held: Held)
      reads this, db
    {
      Valid(held) && !active && db.pending.None? && !held.failing
    }

    method BeginTransaction(ghost held: Held) returns (o: Outcome)
      requires Valid(held) && !held.failing && !db.process.pc.Over()
      modifies this`active, db
      ensures db.Stayed(o) && Meanwhile(db.rivals, old(db.committed), db.committed)
      ensures o.Done? ==>
        Valid(held.(transaction := true)) && old(Ready(held)) && db.pending == Some(db.committed.content)
      ensures o.Threw? ==> Valid(held.After(o)) && db.pending == old(db.pending) && active == old(active)
      ensures old(Ready(held)) ==> db.faults == old(db.faults) + if o.Done? then 0 else 1
      ensures db.faults >= old(db.faults)
    {
      if active {
        db.Record(Faulted);
        return Threw;
      }
      o := db.BeginTransaction();
      if o.Done? {
        db.Record(Began);
        active := true;
      }
    }

    /** Empties the slot before it asks the driver, so a commit that throws leaves it empty. */
    method CommitTransaction(ghost held: Held, ghost move: Move, ghost to: Pc) returns (o: Outcome)
      requires Valid(held) && !db.process.pc.Over() && (active ==> db.Publishes(move, to))
      modifies this`active, db
      ensures !active
      ensures !old(active) ==> o.Threw? && db.trace == Then(old(db.trace), Refused)
      ensures !old(active) ==> unchanged(db`committed, db`pending, db`process, db`history, db`start, db`faults)
      ensures old(active) ==> db.Kept()
      ensures old(active) && !o.Died? ==> Valid(held.(transaction := false).After(o)) && db.pending.None?
      ensures old(active) && o.Died? ==>
        db.process == old(db.process).(pc := Crashed) && db.committed.content == old(db.committed).content
      ensures old(active) && o.Done? ==>
        db.process == old(db.process).(pc := to) && db.committed.content == old(db.pending).value
      ensures old(active) && o.Threw? ==>
        || (db.process == old(db.process) && db.committed.content == old(db.committed).content)
        || (db.process == old(db.process).(pc := to) && db.committed.content == old(db.pending).value)
      ensures old(active) ==> db.faults == old(db.faults) + if o.Done? then 0 else 1
    {
      if !active {
        db.Record(Refused);
        return Threw;
      }
      active := false;
      db.Record(Ended);
      o := db.Commit(move, to);
    }

    /** Called when something has thrown; there may be no transaction to roll back any more. */
    method RollbackTransaction(ghost held: Held) returns (o: Outcome)
      requires Valid(held) && !db.process.pc.Over() && (!active ==> held.failing)
      modifies this`active, db
      ensures db.Stayed(o) && !active && db.committed.content == old(db.committed).content
      ensures !o.Died? ==> Valid(held.(transaction := false).After(o))
      ensures !old(active) ==> o.Threw?
      ensures !old(active) ==> unchanged(db`committed, db`pending, db`process, db`history, db`faults)
      ensures o.Done? ==> db.pending.None?
      ensures db.faults >= old(db.faults)
    {
      if !active {
        db.Record(Refused);
        return Threw;
      }
      active := false;
      db.Record(Ended);
      o := db.Rollback();
    }

    /** The active transaction, for a command to run in. To ask for it without one breaks the protocol. */
    method GetTransaction(ghost held: Held) returns (o: Outcome)
      requires Valid(held) && !held.failing
      modifies db`trace
      ensures o == if active then Done else Threw
      ensures db.trace == Then(old(db.trace), Used)
      ensures State(db.trace) == if active then Some(held) else None
      ensures active ==> Valid(held)
    {
      db.Record(Used);
      return if active then Done else Threw;
    }

    /** Disposing rolls an open transaction back. */
    method Dispose(ghost held: Held) returns (o: Outcome)
      requires Valid(held) && !db.process.pc.Over()
      modifies this`active, db
      ensures db.Stayed(o) && !active && db.committed.content == old(db.committed).content
      ensures old(active) && o.Done? ==> db.pending.None? && Valid(held.(transaction := false))
      ensures !old(active) ==> o.Done? && unchanged(db)
    {
      o := Done;
      if active {
        o := RollbackTransaction(held);
      }
    }
  }
}
