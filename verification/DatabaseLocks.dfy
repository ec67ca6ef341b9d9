/** The lease lock on a row of the lock table, and the retry loop on top of it. */
module DatabaseLocks {
  import opened Wrappers
  import opened UpgradeMachine
  import opened Protocol
  import opened Driver

  /** The lock as the SQLite, PostgreSQL, MySQL and Firebird extensions implement it. */
  class DatabaseLock {
    const db: Database

    constructor (db: Database)
      ensures this.db == db
    {
      this.db := db;
    }

    /** Supported means that the lock table exists; the lock row may still be missing. */
    method IsSupported(ghost held: Held) returns (o: Outcome, supported: bool)
      requires db.Recorded() && !db.process.pc.Over()
      requires State(db.trace) == Some(held) && held.IsFree() && !held.failing
      modifies db
      ensures db.Stayed(o) && State(db.trace) == Some(held.After(o)) && db.pending == old(db.pending)
      ensures Meanwhile(db.rivals, old(db.committed), db.committed)
      ensures o.Done? ==> supported == db.committed.locks.Some?
      ensures db.faults == old(db.faults) + if o.Done? then 0 else 1
    {
      supported := false;
      db.Record(Probed);
      o := db.Call();
      if o.Done? {
        supported := db.committed.locks.Some?;
      }
    }

    /** One update of the row, if it has expired, in a transaction of its own; `seen` is
        the database as the update found it. */
    method Acquire(id: int, minutes: int, ghost held: Held) returns (o: Outcome, acquired: bool, ghost seen: Shared)
      requires db.Recorded() && !db.process.pc.Over()
      requires State(db.trace) == Some(held) && held.IsFree() && !held.failing
      modifies db
      ensures db.Behind(seen) && Meanwhile(db.rivals, old(db.committed), seen)
      ensures db.start == old(db.start) && db.pending == old(db.pending)
      ensures db.process == if o.Died? then old(db.process).(pc := Crashed) else old(db.process)
      ensures o.Done? && acquired ==> LockFree(seen, id) && db.committed == Acquired(seen, id, minutes)
      ensures o.Done? && !acquired ==> !LockFree(seen, id) && db.committed == seen
      ensures o.Threw? ==> db.committed == seen || db.committed == Acquired(seen, id, minutes)
      ensures o.Died? ==> db.committed == seen
      ensures State(db.trace) == Some(if o.Done? then held.(lock := acquired) else held.After(o))
      ensures old(db.pending).None? ==> db.faults == old(db.faults) + if o.Done? then 0 else 1
      ensures db.faults >= old(db.faults)
    {
      acquired := false;
      o := db.Call();
      seen := db.committed;
      if o.Died? {
        return;
      }
      if db.pending.Some? {
        if o.Done? {
          db.Record(Faulted);
        }
        return Threw, false, seen;
      }
      // an update that throws may have been made all the same
      var effective := true;
      if o.Threw? {
        effective := *;
      }
      var free := LockFree(db.committed, id);
      if free && effective {
        db.committed := WithExpiration(db.committed, id, db.committed.now + 60 * minutes);
      }
      if o.Done? {
        db.Record(if free then Locked else LockDenied);
        acquired := free;
      }
    }

    /** Expires the row, whoever holds the lock: if the call returns, the row lies in the past. */
    method Release(id: int, ghost held: Held) returns (o: Outcome, ghost seen: Shared)
      requires db.Recorded() && !db.process.pc.Over()
      requires State(db.trace) == Some(held) && held.lock && !held.stream && !held.transaction
      modifies db
      ensures db.Behind(seen) && Meanwhile(db.rivals, old(db.committed), seen)
      ensures db.start == old(db.start) && db.pending == old(db.pending)
      ensures db.process == if o.Died? then old(db.process).(pc := Crashed) else old(db.process)
      ensures o.Done? && HasLockRow(seen, id) ==>
        HasLockRow(db.committed, id) && Expiration(db.committed, id) < db.committed.now
      ensures o.Done? ==> db.committed == Released(seen, id)
      ensures o.Threw? ==> db.committed == seen || db.committed == Released(seen, id)
      ensures o.Died? ==> db.committed == seen
      ensures State(db.trace) == Some(held.(lock := false).After(o))
      ensures old(db.pending).None? ==> db.faults == old(db.faults) + if o.Done? then 0 else 1
      ensures db.faults >= old(db.faults)
    {
      db.Record(Unlocked);
      o := db.Call();
      seen := db.committed;
      if o.Died? {
        return;
      }
      if db.pending.Some? {
        if o.Done? {
          db.Record(Faulted);
        }
        return Threw, seen;
      }
      var effective := true;
      if o.Threw? {
        effective := *;
      }
      if effective {
        db.committed := Released(db.committed, id);
      }
    }
  }

  /** The most attempts that can fail before a lock row expires with no rival about. */
  function RetryBound(db: Shared, id: int): nat
    requires HasLockRow(db, id)
  {
    if Expiration(db, id) < db.now then 0 else (Expiration(db, id) - db.now) / RETRY_SECONDS + 1
  }

  /** Who tries for the lock alone, and no more often, may be kept waiting: there is no row, or its
      lease is too long. */
  predicate Blocked(db: Shared, patience: nat) {
    db.locks.Some? && (HasLockRow(db, LOCK_ID) ==> patience < RetryBound(db, LOCK_ID))
  }

  /** Waiting this many retries can only end later than the lease. */
  lemma {:induction false} RetriesOutlastLease(db: Shared, id: int, now: int, failed: nat)
    requires HasLockRow(db, id) && now >= db.now + RETRY_SECONDS * failed && Expiration(db, id) >= now
    ensures failed + 1 <= RetryBound(db, id)
  {
    assert (Expiration(db, id) - db.now) / RETRY_SECONDS >= failed;
  }

  /** The row is free, or taken for no longer than one lease from now. */
  predicate LeaseBounded(db: Shared) {
    HasLockRow(db, LOCK_ID) && Expiration(db, LOCK_ID) <= db.now + 60 * EXPIRATION_MINUTES
  }

  /** Whoever changes the row, by a call that returns or by one that throws, and whoever has
      taken the lock, leaves it free or taken for five minutes at most; and so it stays. */
  lemma {:induction false} LeaseStaysBounded(plan: Plan, a: Config, path: seq<Config>, c: Config)
    requires Connects(plan, a, path, c) && HasLockRow(a.db, LOCK_ID) && (LeaseBounded(a.db) || !a.process.locked)
    ensures HasLockRow(c.db, LOCK_ID)
    ensures LeaseBounded(a.db) || c.process.locked || Expiration(c.db, LOCK_ID) != Expiration(a.db, LOCK_ID) ==>
      LeaseBounded(c.db)
    decreases |path|
  {
    if |path| > 1 {
      var before, b := PathBefore(plan, path);
      LeaseStaysBounded(plan, a, before, b);
    }
  }

  /** A run that has taken the lock, or has changed the row at all, keeps others waiting for 61
      failed attempts at most, wherever it died or what else became of it: also if an acquire
      took effect although it threw, or a release threw. */
  lemma {:induction false} DeadHolderBound(plan: Plan, db0: Shared, path: seq<Config>, dead: Config, later: Shared)
    requires HasLockRow(db0, LOCK_ID) && Connects(plan, Config(START, db0), path, dead) && Elapse(dead.db, later)
    requires HasLockRow(dead.db, LOCK_ID) ==>
      dead.process.locked || Expiration(dead.db, LOCK_ID) != Expiration(db0, LOCK_ID)
    ensures HasLockRow(later, LOCK_ID) && RetryBound(later, LOCK_ID) <= 61
  {
    LeaseStaysBounded(plan, Config(START, db0), path, dead);
  }

  /** What waiting for the lock has come to. */
  datatype Wait = Wait(entered: bool, locked: bool, failedAttempts: nat)

  class DatabaseLockService {
    const databaseLock: DatabaseLock

    constructor (databaseLock: DatabaseLock)
      ensures this.databaseLock == databaseLock
    {
      this.databaseLock := databaseLock;
    }

    /** One attempt: it lets the updater in, or leaves it waiting because the row is not free. */
    method TryLockOnce(ghost held: Held) returns (o: Outcome, acquired: bool)
      requires var db := databaseLock.db;
        db.Recorded() && db.process == START && db.pending.None?
      requires State(databaseLock.db.trace) == Some(held) && held.IsFree() && !held.failing
      modifies databaseLock.db
      ensures var db := databaseLock.db;
        && db.Kept() && db.pending.None?
        && State(db.trace) == Some(if o.Done? then held.(lock := acquired) else held.After(o))
        && db.faults == old(db.faults) + if o.Done? then 0 else 1
      ensures var p := databaseLock.db.process;
        match o
        case Done => if acquired then p.pc == Checking(0, 0) && p.locked else p == START
        case Threw => p.pc == Failed
        case Died => p.pc == Crashed
      ensures var db, db' := old(databaseLock.db.committed), databaseLock.db.committed;
        && db'.now >= db.now
        && (Alone(databaseLock.db.rivals) && o.Done? ==> acquired == LockFree(db.(now := db'.now), LOCK_ID))
        && (Alone(databaseLock.db.rivals) && o.Done? && !acquired ==> db'.locks == db.locks)
    {
      var db := databaseLock.db;
      ghost var seen;
      o, acquired, seen := databaseLock.Acquire(LOCK_ID, EXPIRATION_MINUTES, held);
      if o.Threw? {
        db.Did(FailLock, seen, START.(pc := Failed));
      }
      if o.Done? && acquired {
        db.Did(TryLock, seen, Entered(seen));
      }
    }

    /** Retry until the lock is acquired. The loop has no end of its own; it is observed
        for a given number of failed attempts. */
    method AcquireLock(patience: nat, ghost held: Held) returns (o: Outcome, w: Wait)
      requires var db := databaseLock.db;
        db.Recorded() && db.process == START && db.pending.None?
      requires State(databaseLock.db.trace) == Some(held) && held.IsFree() && !held.failing
      modifies databaseLock.db
      ensures var db := databaseLock.db;
        && db.Kept() && db.pending.None?
        && State(db.trace) == Some(if o.Done? then held.(lock := w.entered && w.locked) else held.After(o))
        && db.faults == old(db.faults) + if o.Done? then 0 else 1
      ensures var p := databaseLock.db.process;
        match o
        case Done => if w.entered then p.pc == Checking(0, 0) && p.locked == w.locked else p == START
        case Threw => p.pc == Failed
        case Died => p.pc == Crashed
      ensures o.Done? && !w.entered ==> w.failedAttempts == patience + 1
      ensures var db := old(databaseLock.db.committed);
        Alone(databaseLock.db.rivals) ==>
          && (HasLockRow(db, LOCK_ID) ==> w.failedAttempts <= RetryBound(db, LOCK_ID))
          && (db.locks.Some? && o.Done? && !HasLockRow(db, LOCK_ID) ==> !w.entered)
          && (o.Done? && w.entered ==> w.locked == db.locks.Some?)
          && (o.Done? && db.locks.None? ==> w.entered)
    {
      var db := databaseLock.db;
      ghost var first := db.committed;
      var supported;
      w := Wait(false, false, 0);

      o, supported := databaseLock.IsSupported(held);
      if !o.Done? {
        if o.Threw? {
          db.Goes(FailLock, Failed);
        }
        return;
      }
      if !supported {
        w := Wait(true, false, 0);
        db.Goes(SkipLock, Checking(0, 0));
        return;
      }
      while true
        invariant db.Kept() && db.process == START && db.pending.None? && State(db.trace) == Some(held)
        invariant db.faults == old(db.faults) && !w.entered && w.failedAttempts <= patience
        invariant Alone(db.rivals) ==> db.committed.locks == first.locks && first.locks.Some?
        invariant db.committed.now >= first.now + RETRY_SECONDS * w.failedAttempts
        invariant Alone(db.rivals) && HasLockRow(first, LOCK_ID) ==> w.failedAttempts <= RetryBound(first, LOCK_ID)
        decreases patience - w.failedAttempts
      {
        var acquired;
        o, acquired := TryLockOnce(held);
        if !o.Done? {
          return;
        }
        if acquired {
          w := w.(entered := true, locked := true);
          return;
        }
        if Alone(db.rivals) && HasLockRow(first, LOCK_ID) {
          RetriesOutlastLease(first, LOCK_ID, db.committed.now, w.failedAttempts);
        }
        w := w.(failedAttempts := w.failedAttempts + 1);
        if w.failedAttempts > patience {
          return;
        }
        db.Idle(RETRY_SECONDS);
      }
    }

    /** Dispose of what AcquireLock returned. */
    method ReleaseLock(w: Wait, ghost held: Held) returns (o: Outcome)
      requires var db := databaseLock.db;
        db.Recorded() && db.process.pc.Leaving? && db.process.locked == w.locked
      requires State(databaseLock.db.trace) == Some(held) && held.lock == w.locked && !held.stream && !held.transaction
      modifies databaseLock.db
      ensures var db := databaseLock.db;
        && db.Kept() && db.pending == old(db.pending)
        && State(db.trace) == Some(held.(lock := false).After(o))
      ensures var db := databaseLock.db;
        db.process.pc == match o
          case Done => if old(db.process).pc.failed then Failed else Finished
          case Threw => Failed
          case Died => Crashed
      ensures var db := databaseLock.db;
        && db.process == old(db.process).(pc := db.process.pc) && (o.Done? ==> db.LastMove(Release))
        && (o.Done? && w.locked && HasLockRow(db.committed, LOCK_ID) ==>
              Expiration(db.committed, LOCK_ID) < db.committed.now)
      ensures var db := databaseLock.db;
        old(db.pending).None? ==> db.faults == old(db.faults) + if o.Done? then 0 else 1
      ensures databaseLock.db.faults >= old(databaseLock.db.faults)
    {
      var db := databaseLock.db;
      ghost var seen := db.committed;
      ghost var p := db.process;
      o := Done;
      if w.locked {
        o, seen := databaseLock.Release(LOCK_ID, held);
      }
      match o
      case Done => db.Did(Release, seen, p.(pc := if p.pc.failed then Failed else Finished));
      case Threw => db.Did(FailRelease, seen, p.(pc := Failed));
      case Died =>
    }
  }
}
