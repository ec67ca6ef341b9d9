/**
 Executing one step: the handlers that accept it run its transactions, and then the
 step is marked in a transaction of its own. Each method is shown to take the updater
 where the machine goes, whatever driver calls throw, wherever the process dies, and
 whatever others do in between.
 */
module StepExecution {
  import opened Wrappers
  import opened MarkStore
  import opened Migration
  import opened UpgradeMachine
  import opened Protocol
  import opened Driver

  // --------------------------------------------------------------- commands

  /** One command in the active transaction. */
  method ExecuteCommand(provider: TransactionProvider, ghost held: Held, key: StepKey, command: string)
    returns (o: Outcome)
    requires provider.Valid(held) && provider.active && !held.failing && !provider.db.process.pc.Over()
    modifies provider.db
    ensures provider.db.Stayed(o) && provider.Valid(held.After(o))
    ensures provider.db.committed.content == old(provider.db.committed).content
    ensures var before := old(provider.db.pending).value;
      provider.db.pending == Some(if o.Done? then before.(log := before.log + [Entry(key, command)]) else before)
    ensures provider.db.faults == old(provider.db.faults) + if o.Done? then 0 else 1
  {
    o := provider.GetTransaction(held);
    var content := provider.db.pending.value;
    o := provider.db.Execute(content.(log := content.log + [Entry(key, command)]));
  }

  method ExecuteCommands(provider: TransactionProvider, ghost held: Held, key: StepKey, commands: Unit)
    returns (o: Outcome)
    requires provider.Valid(held) && provider.active && !held.failing && !provider.db.process.pc.Over()
    modifies provider.db
    ensures provider.db.Stayed(o) && provider.Valid(held.After(o))
    ensures provider.db.committed.content == old(provider.db.committed).content
    ensures var before := old(provider.db.pending).value;
      o.Done? ==> provider.db.pending == Some(before.(log := before.log + Entries(key, commands)))
    ensures provider.db.faults == old(provider.db.faults) + if o.Done? then 0 else 1
  {
    o := Done;
    ghost var before := provider.db.pending.value;
    assert before.log + Entries(key, commands[..0]) == before.log;
    for n := 0 to |commands|
      invariant provider.db.Stayed(o) && provider.Valid(held) && o == Done
      invariant provider.db.committed.content == old(provider.db.committed).content
      invariant provider.db.pending == Some(before.(log := before.log + Entries(key, commands[..n])))
      invariant provider.db.faults == old(provider.db.faults)
    {
      o := ExecuteCommand(provider, held, key, commands[n]);
      if !o.Done? {
        return;
      }
      assert before.log + Entries(key, commands[..n]) + [Entry(key, commands[n])] ==
             before.log + Entries(key, commands[..n + 1]);
    }
    assert commands[..|commands|] == commands;
  }

  /** One alternative statement: all its commands in one transaction, or none of them. */
  method RunInTransaction(provider: TransactionProvider, ghost held: Held, key: StepKey, commands: Unit,
                          ghost i: nat, ghost h: nat, ghost j: nat)
    returns (o: Outcome)
    requires provider.Ready(held) && provider.db.process.pc == Running(i, h, j)
    requires UnitIs(provider.db.plan, i, j, key, commands)
    modifies provider, provider.db
    ensures provider.db.Went(o, Running(i, h, j + 1))
    ensures o.Done? ==> provider.Ready(held)
    ensures o.Threw? ==> provider.Valid(held.After(o))
    ensures FaultsTell(o, old(provider.db.faults), provider.db.faults)
    ensures var content, content' := old(provider.db.committed).content, provider.db.committed.content;
      var applied := content.(log := content.log + Entries(key, commands));
      Alone(provider.db.rivals) ==> content' == applied || (content' == content && !o.Done?)
  {
    var db := provider.db;
    ghost var within := held.(transaction := true);
    o := provider.BeginTransaction(held);
    if !o.Done? {
      return;
    }
    o := ExecuteCommands(provider, within, key, commands);
    within := within.After(o);
    if o.Done? {
      o := provider.CommitTransaction(within, CommitUnit(commands), Running(i, h, j + 1));
      within := held.After(o);
    }
    if o.Threw? {
      // the failed transaction is rolled back; there is none any more if it was the commit that threw
      var r := provider.RollbackTransaction(within);
      o := if r.Died? then Died else Threw;
    }
  }

  /** The step of this key may commit this as its next transaction. */
  ghost predicate UnitIs(plan: Plan, i: nat, j: nat, key: StepKey, commands: Unit) {
    i < |plan.tasks| && plan.tasks[i].key == key && MayCommit(plan, i, j, commands)
  }

  /** The environment is to blame exactly for what did not return. */
  ghost predicate FaultsTell(o: Outcome, before: nat, after: nat) {
    if o.Done? then after == before else after > before
  }

  // ---------------------------------------------------------------- handlers

  /** The later content is the earlier one with these transactions applied, in full and in order. */
  ghost predicate Extended(before: Content, key: StepKey, units: seq<Unit>, after: Content) {
    after == before.(log := before.log + EntriesOfUnits(key, units))
  }

  lemma {:induction false} ExtendedByNone(content: Content, key: StepKey)
    ensures Extended(content, key, [], content)
  {
    assert content.log + [] == content.log;
  }

  lemma {:induction false} ExtendedByOne(before: Content, key: StepKey, units: seq<Unit>, content: Content,
                                         commands: Unit)
    requires Extended(before, key, units, content)
    ensures Extended(before, key, units + [commands], content.(log := content.log + Entries(key, commands)))
  {
    assert (units + [commands])[..|units|] == units;
    assert before.log + EntriesOfUnits(key, units) + Entries(key, commands) ==
           before.log + EntriesOfUnits(key, units + [commands]);
  }

  /** The next transaction of a step, and what the step has committed in the end. */
  method RunUnit(provider: TransactionProvider, ghost held: Held, key: StepKey, commands: Unit,
                 ghost first: Content, ghost units: seq<Unit>, ghost i: nat, ghost h: nat)
    returns (o: Outcome, ghost units': seq<Unit>)
    requires provider.Ready(held) && provider.db.process.pc == Running(i, h, |units|)
    requires UnitIs(provider.db.plan, i, |units|, key, commands)
    requires Alone(provider.db.rivals) ==> Extended(first, key, units, provider.db.committed.content)
    modifies provider, provider.db
    ensures provider.db.Went(o, Running(i, h, |units| + 1))
    ensures o.Done? ==> provider.Ready(held)
    ensures o.Threw? ==> provider.Valid(held.After(o))
    ensures FaultsTell(o, old(provider.db.faults), provider.db.faults)
    ensures units' == units + [commands] || (units' == units && !o.Done?)
    ensures Alone(provider.db.rivals) ==> Extended(first, key, units', provider.db.committed.content)
  {
    ghost var before := provider.db.committed.content;
    o := RunInTransaction(provider, held, key, commands, i, h, |units|);
    units' := if o.Done? || provider.db.committed.content != before then units + [commands] else units;
    if Alone(provider.db.rivals) {
      ExtendedByOne(first, key, units, before, commands);
    }
  }

  /** One alternative of a database step: its commands in one transaction if it is for this kind
      of database, and nothing at all if it is not. */
  method RunAlternative(provider: TransactionProvider, settings: Settings, key: StepKey,
                        alternatives: seq<Alternative>, a: nat, ghost held: Held, ghost first: Content,
                        ghost units: seq<Unit>, ghost i: nat, ghost h: nat)
    returns (o: Outcome, ghost units': seq<Unit>)
    requires provider.Ready(held) && provider.db.process.pc == Running(i, h, |units|)
    requires provider.db.plan.settings == settings && TaskIs(provider.db.plan, i, key, DbCommand(alternatives))
    requires a < |alternatives| && units == UnitsOfAlternatives(settings, alternatives[..a])
    requires Alone(provider.db.rivals) ==> Extended(first, key, units, provider.db.committed.content)
    modifies provider, provider.db
    ensures o.Done? ==> provider.db.Went(Done, Running(i, h, |units'|))
    ensures !o.Done? ==> provider.db.Went(o, provider.db.process.pc)
    ensures o.Done? ==> provider.Ready(held)
    ensures o.Threw? ==> provider.Valid(held.After(o))
    ensures FaultsTell(o, old(provider.db.faults), provider.db.faults)
    ensures units' <= UnitsOfAlternatives(settings, alternatives)
    ensures o.Done? ==> units' == UnitsOfAlternatives(settings, alternatives[..a + 1])
    ensures Alone(provider.db.rivals) ==> Extended(first, key, units', provider.db.committed.content)
  {
    var statement := alternatives[a];
    assert alternatives[..a + 1][..a] == alternatives[..a];
    AlternativesBefore(settings, alternatives, a);
    AlternativesBefore(settings, alternatives, a + 1);
    o, units' := Done, units;
    if settings.canHandle(statement.dbType) || statement.dbType == "all" {
      var commands := ScriptSplitter.ChainSplit(settings.newline, settings.splitters, statement.text);
      o, units' := RunUnit(provider, held, key, commands, first, units, i, h);
    }
  }

  /** The database step handler: each alternative for this kind of database, one after the other.
      The committed content is the old one plus a prefix of the applying alternatives, each
      applied in full. */
  method ExecuteDbCommand(provider: TransactionProvider, settings: Settings, key: StepKey,
                          alternatives: seq<Alternative>, ghost held: Held, ghost i: nat, ghost h: nat)
    returns (o: Outcome, ghost units: seq<Unit>)
    requires provider.Ready(held) && provider.db.process.pc == Running(i, h, 0)
    requires provider.db.plan.settings == settings && TaskIs(provider.db.plan, i, key, DbCommand(alternatives))
    modifies provider, provider.db
    ensures provider.db.Went(o, Running(i, h, |UnitsOfAlternatives(settings, alternatives)|))
    ensures o.Done? ==> provider.Ready(held)
    ensures o.Threw? ==> provider.Valid(held.After(o))
    ensures FaultsTell(o, old(provider.db.faults), provider.db.faults)
    ensures var all := UnitsOfAlternatives(settings, alternatives);
      units <= all && (o.Done? ==> units == all)
    ensures Alone(provider.db.rivals) ==>
      Extended(old(provider.db.committed).content, key, units, provider.db.committed.content)
  {
    var db := provider.db;
    ghost var first := db.committed.content;
    o, units := Done, [];
    ExtendedByNone(first, key);
    for a := 0 to |alternatives|
      invariant provider.Ready(held) && o == Done && db.faults == old(db.faults)
      invariant units == UnitsOfAlternatives(settings, alternatives[..a])
      invariant db.Went(Done, Running(i, h, |units|))
      invariant Alone(db.rivals) ==> Extended(first, key, units, db.committed.content)
    {
      o, units := RunAlternative(provider, settings, key, alternatives, a, held, first, units, i, h);
      if !o.Done? {
        return;
      }
    }
    assert alternatives[..|alternatives|] == alternatives;
  }

  ghost predicate TaskIs(plan: Plan, i: nat, key: StepKey, work: Work) {
    i < |plan.tasks| && plan.tasks[i].key == key && plan.tasks[i].work == work
  }

  /** What a custom or extension step does next: it may commit something, and may throw after that. */
  method GoOnTyped(provider: TransactionProvider, key: StepKey, typeName: string, mayCommit: Unit -> bool,
                   ghost held: Held, ghost first: Content, ghost units: seq<Unit>, ghost i: nat, ghost h: nat)
    returns (o: Outcome, ghost units': seq<Unit>)
    requires provider.Ready(held) && provider.db.process.pc == Running(i, h, |units|)
    requires TaskIs(provider.db.plan, i, key, Typed(typeName, mayCommit))
    requires Alone(provider.db.rivals) ==> Extended(first, key, units, provider.db.committed.content)
    modifies provider, provider.db
    ensures provider.db.Went(o, Running(i, h, |units'|))
    ensures o.Done? ==> provider.Ready(held)
    ensures o.Threw? ==> provider.Valid(held.After(o))
    ensures FaultsTell(o, old(provider.db.faults), provider.db.faults)
    ensures units <= units' && forall unit :: unit in units' ==> unit in units || mayCommit(unit)
    ensures Alone(provider.db.rivals) ==> Extended(first, key, units', provider.db.committed.content)
  {
    o, units' := Done, units;
    var commands: Unit := *;
    if mayCommit(commands) {
      o, units' := RunUnit(provider, held, key, commands, first, units, i, h);
    }
    if o.Done? {
      o := provider.db.Call();
    }
  }

  /** A custom or extension step: it may fail to be created, then commits any number of transactions
      of its own choice, each of which may fail, and may throw between and after them. It leaves the
      slot as it found it and does not touch the mark tables. */
  method ExecuteTyped(provider: TransactionProvider, key: StepKey, typeName: string, mayCommit: Unit -> bool,
                      ghost held: Held, ghost i: nat, ghost h: nat)
    returns (o: Outcome, ghost units: seq<Unit>)
    requires provider.Ready(held) && provider.db.process.pc == Running(i, h, 0)
    requires TaskIs(provider.db.plan, i, key, Typed(typeName, mayCommit))
    modifies provider, provider.db
    ensures provider.db.Went(o, Running(i, h, |units|))
    ensures o.Done? ==> provider.Ready(held)
    ensures o.Threw? ==> provider.Valid(held.After(o))
    ensures FaultsTell(o, old(provider.db.faults), provider.db.faults)
    ensures forall unit :: unit in units ==> mayCommit(unit)
    ensures Alone(provider.db.rivals) ==>
      Extended(old(provider.db.committed).content, key, units, provider.db.committed.content)
  {
    var db := provider.db;
    ghost var first := db.committed.content;
    units := [];
    ExtendedByNone(first, key);
    o := db.Call();
    if !o.Done? {
      return;
    }
    var rounds: int := *;
    for n := 0 to if rounds < 0 then 0 else rounds
      invariant provider.Ready(held) && o == Done && db.faults == old(db.faults)
      invariant db.Went(Done, Running(i, h, |units|)) && forall unit :: unit in units ==> mayCommit(unit)
      invariant Alone(db.rivals) ==> Extended(first, key, units, db.committed.content)
    {
      o, units := GoOnTyped(provider, key, typeName, mayCommit, held, first, units, i, h);
      if !o.Done? {
        return;
      }
    }
  }

  // ------------------------------------------------------------------ marking

  /** A call in the open transaction: nothing is committed by it. */
  twostate predicate InTransaction(db: Database, o: Outcome)
    reads db
  {
    && db.Stayed(o) && db.committed.content == old(db.committed).content
    && db.faults == old(db.faults) + if o.Done? then 0 else 1
  }

  /** Select the assembly row, and insert it if there is none. */
  method EnterAssembly(provider: TransactionProvider, ghost held: Held, name: string)
    returns (o: Outcome, id: int)
    requires provider.Valid(held) && provider.active && !held.failing && !provider.db.process.pc.Over()
    modifies provider.db
    ensures InTransaction(provider.db, o) && provider.Valid(held.After(o))
    ensures var before := old(provider.db.pending).value;
      o.Done? ==>
        && provider.db.pending.Some? && provider.db.pending.value.log == before.log
        && AssemblyEntered(before.marks, name, id, provider.db.pending.value.marks)
  {
    var db := provider.db;
    id := 0;
    o := db.Execute(db.pending.value);
    if !o.Done? {
      return;
    }
    var marks := db.pending.value.marks;
    var found := SelectAssembly(marks.assemblies, name);
    if found.Some? {
      return Done, found.value;
    }
    assert FreshAssemblyId(marks.assemblies, NextAssemblyId(marks.assemblies));
    id :| FreshAssemblyId(marks.assemblies, id);
    o := db.Execute(db.pending.value.(marks := marks.(assemblies := marks.assemblies + [AssemblyRow(id, name)])));
  }

  /** The same for the version below that assembly. */
  method EnterVersion(provider: TransactionProvider, ghost held: Held, assemblyId: int, version: string)
    returns (o: Outcome, id: int)
    requires provider.Valid(held) && provider.active && !held.failing && !provider.db.process.pc.Over()
    modifies provider.db
    ensures InTransaction(provider.db, o) && provider.Valid(held.After(o))
    ensures var before := old(provider.db.pending).value;
      o.Done? ==>
        && provider.db.pending.Some? && provider.db.pending.value.log == before.log
        && VersionEntered(before.marks, assemblyId, version, id, provider.db.pending.value.marks)
  {
    var db := provider.db;
    id := 0;
    o := db.Execute(db.pending.value);
    if !o.Done? {
      return;
    }
    var marks := db.pending.value.marks;
    var found := SelectVersion(marks.versions, assemblyId, version);
    if found.Some? {
      return Done, found.value;
    }
    assert FreshVersionId(marks.versions, NextVersionId(marks.versions));
    id :| FreshVersionId(marks.versions, id);
    var rows := marks.versions + [VersionRow(id, assemblyId, version)];
    o := db.Execute(db.pending.value.(marks := marks.(versions := rows)));
  }

  /** The same for the step below that version. */
  method EnterStep(provider: TransactionProvider, ghost held: Held, versionId: int, step: int)
    returns (o: Outcome, id: int)
    requires provider.Valid(held) && provider.active && !held.failing && !provider.db.process.pc.Over()
    modifies provider.db
    ensures InTransaction(provider.db, o) && provider.Valid(held.After(o))
    ensures var before := old(provider.db.pending).value;
      o.Done? ==>
        && provider.db.pending.Some? && provider.db.pending.value.log == before.log
        && StepEntered(before.marks, versionId, step, id, provider.db.pending.value.marks)
  {
    var db := provider.db;
    id := 0;
    o := db.Execute(db.pending.value);
    if !o.Done? {
      return;
    }
    var marks := db.pending.value.marks;
    var found := SelectStep(marks.steps, versionId, step);
    if found.Some? {
      return Done, found.value;
    }
    assert FreshStepId(marks.steps, NextStepId(marks.steps));
    id :| FreshStepId(marks.steps, id);
    o := db.Execute(db.pending.value.(marks := marks.(steps := marks.steps + [StepRow(id, versionId, step)])));
  }

  /** The marker: the three find-or-inserts, one below the other. */
  method MarkAsExecuted(provider: TransactionProvider, ghost held: Held, key: StepKey) returns (o: Outcome)
    requires provider.Valid(held) && provider.active && !held.failing && !provider.db.process.pc.Over()
    modifies provider.db
    ensures InTransaction(provider.db, o) && provider.Valid(held.After(o))
    ensures var before := old(provider.db.pending).value;
      o.Done? ==>
        && provider.db.pending.Some?
        && Marked(before.marks, key, provider.db.pending.value.marks)
        && provider.db.pending.value.log == before.log
  {
    var db := provider.db;
    ghost var before := db.pending.value;
    o := provider.GetTransaction(held);
    var assemblyId, versionId, stepId;
    o, assemblyId := EnterAssembly(provider, held, key.assembly);
    if !o.Done? {
      return;
    }
    ghost var t1 := db.pending.value.marks;
    o, versionId := EnterVersion(provider, held, assemblyId, key.version);
    if !o.Done? {
      return;
    }
    ghost var t2 := db.pending.value.marks;
    o, stepId := EnterStep(provider, held, versionId, key.step);
    if o.Done? {
      assert MarkedWith(before.marks, key, assemblyId, versionId, stepId, t1, t2, db.pending.value.marks);
    }
  }

  /** The step asks to be marked under this key. */
  ghost predicate WantsMark(plan: Plan, i: nat, key: StepKey) {
    i < |plan.tasks| && plan.tasks[i].key == key && plan.tasks[i].mark
  }

  /** The rest of the try block of marking, once the transaction has begun: mark, and commit. */
  method MarkAndCommit(provider: TransactionProvider, ghost held: Held, key: StepKey, ghost i: nat, ghost h: nat)
    returns (o: Outcome)
    requires provider.Valid(held.(transaction := true)) && !held.failing && provider.db.process.pc == Marking(i, h)
    requires provider.db.pending == Some(provider.db.committed.content) && WantsMark(provider.db.plan, i, key)
    modifies provider, provider.db
    ensures provider.db.Went(o, Choosing(i, h + 1))
    ensures o.Done? ==> provider.Ready(held.(transaction := false))
    ensures o.Threw? ==> provider.Valid(held.(transaction := provider.active).After(o))
    ensures FaultsTell(o, old(provider.db.faults), provider.db.faults)
  {
    ghost var within := held.(transaction := true);
    o := MarkAsExecuted(provider, within, key);
    if o.Done? {
      o := provider.CommitTransaction(within, Mark, Choosing(i, h + 1));
    }
  }

  /** The try block of marking: begin, mark, commit. */
  method TryToMark(provider: TransactionProvider, ghost held: Held, key: StepKey, ghost i: nat, ghost h: nat)
    returns (o: Outcome)
    requires provider.Ready(held) && provider.db.process.pc == Marking(i, h)
    requires WantsMark(provider.db.plan, i, key)
    modifies provider, provider.db
    ensures provider.db.Went(o, Choosing(i, h + 1))
    ensures o.Done? ==> provider.Ready(held)
    ensures o.Threw? ==> provider.Valid(held.(transaction := provider.active).After(o))
    ensures FaultsTell(o, old(provider.db.faults), provider.db.faults)
  {
    o := provider.BeginTransaction(held);
    if o.Done? {
      o := MarkAndCommit(provider, held, key, i, h);
    }
  }

  /** The second transaction of a step: nothing but the mark. Its begin is inside the try,
      so even a begin that throws is followed by a rollback call, which then throws too. */
  method MarkInTransaction(provider: TransactionProvider, ghost held: Held, key: StepKey, ghost i: nat, ghost h: nat)
    returns (o: Outcome)
    requires provider.Ready(held) && provider.db.process.pc == Marking(i, h)
    requires WantsMark(provider.db.plan, i, key)
    modifies provider, provider.db
    ensures provider.db.Went(o, Choosing(i, h + 1))
    ensures o.Done? ==> provider.Ready(held)
    ensures o.Threw? ==> provider.Valid(held.After(o))
    ensures FaultsTell(o, old(provider.db.faults), provider.db.faults)
  {
    o := TryToMark(provider, held, key, i, h);
    if o.Threw? {
      var r := provider.RollbackTransaction(held.(transaction := provider.active).After(o));
      o := if r.Died? then Died else Threw;
    }
  }

  // ------------------------------------------------------------------ service

  /** The handler's own work. */
  method ExecuteHandler(provider: TransactionProvider, settings: Settings, task: Task,
                        ghost held: Held, ghost i: nat, ghost h: nat)
    returns (o: Outcome, ghost n: nat)
    requires provider.Ready(held) && provider.db.process.pc == Running(i, h, 0)
    requires provider.db.plan.settings == settings && TaskIs(provider.db.plan, i, task.key, task.work)
    modifies provider, provider.db
    ensures provider.db.Went(o, Running(i, h, n)) && MayEnd(provider.db.plan, i, n)
    ensures o.Done? ==> provider.Ready(held)
    ensures o.Threw? ==> provider.Valid(held.After(o))
    ensures FaultsTell(o, old(provider.db.faults), provider.db.faults)
  {
    ghost var units: seq<Unit>;
    match task.work
    case DbCommand(alternatives) =>
      o, units := ExecuteDbCommand(provider, settings, task.key, alternatives, held, i, h);
      n := |UnitsOfAlternatives(settings, alternatives)|;
    case Typed(typeName, mayCommit) =>
      o, units := ExecuteTyped(provider, task.key, typeName, mayCommit, held, i, h);
      n := |units|;
  }

  /** One handler that accepts the step: execute it, then mark the step if it asks for it. */
  method HandleStep(provider: TransactionProvider, settings: Settings, task: Task, handler: nat,
                    ghost held: Held, ghost i: nat)
    returns (o: Outcome)
    requires provider.Ready(held) && provider.db.process.pc == Choosing(i, handler)
    requires provider.db.plan.settings == settings && i < |provider.db.plan.tasks| && provider.db.plan.tasks[i] == task
    requires handler < |settings.stepHandlers| && settings.stepHandlers[handler].CanHandle(task.work)
    modifies provider, provider.db
    ensures provider.db.Went(o, Choosing(i, handler + 1))
    ensures o.Done? ==> provider.Ready(held)
    ensures o.Threw? ==> provider.Valid(held.After(o))
    ensures FaultsTell(o, old(provider.db.faults), provider.db.faults)
  {
    var db := provider.db;
    db.Goes(Take, Running(i, handler, 0));
    ghost var n;
    o, n := ExecuteHandler(provider, settings, task, held, i, handler);
    if !o.Done? {
      return;
    }
    db.Goes(Complete, Marking(i, handler));
    if task.mark {
      o := MarkInTransaction(provider, held, task.key, i, handler);
    } else {
      db.Goes(Mark, Choosing(i, handler + 1));
    }
  }

  /** Every registered handler that accepts the step gets it, in order. */
  method ExecuteStep(provider: TransactionProvider, settings: Settings, task: Task, ghost held: Held, ghost i: nat)
    returns (o: Outcome)
    requires provider.Ready(held) && provider.db.process.pc == Choosing(i, 0)
    requires provider.db.plan.settings == settings && i < |provider.db.plan.tasks| && provider.db.plan.tasks[i] == task
    modifies provider, provider.db
    ensures provider.db.Went(o, Checking(i + 1, 0))
    ensures o.Done? ==> provider.Ready(held)
    ensures o.Threw? ==> provider.Valid(held.After(o))
    ensures FaultsTell(o, old(provider.db.faults), provider.db.faults)
  {
    var db := provider.db;
    o := Done;
    for handler := 0 to |settings.stepHandlers|
      invariant provider.Ready(held) && o == Done && db.faults == old(db.faults)
      invariant db.Went(Done, Choosing(i, handler))
    {
      if !settings.stepHandlers[handler].CanHandle(task.work) {
        db.Goes(Pass, Choosing(i, handler + 1));
        continue;
      }
      o := HandleStep(provider, settings, task, handler, held, i);
      if !o.Done? {
        return;
      }
    }
    db.Goes(NextStep, Checking(i + 1, 0));
  }
}
