/**
 The record of executed steps: three linked tables, written by a chain of three
 find-or-inserts and read by a three-way join. The theorems say that the tables
 are a faithful implementation of a set of (assembly, version, step) keys.
 */
module MarkStore {
  import opened Wrappers

  datatype StepKey = StepKey(assembly: string, version: string, step: int)

  datatype AssemblyRow = AssemblyRow(id: int, name: string)
  datatype VersionRow = VersionRow(id: int, assemblyId: int, version: string)
  datatype StepRow = StepRow(id: int, versionId: int, step: int)

  datatype Tables = Tables(assemblies: seq<AssemblyRow>, versions: seq<VersionRow>, steps: seq<StepRow>)

  const EMPTY := Tables([], [], [])

  // ---------------------------------------------------------------- queries

  function SelectAssembly(rows: seq<AssemblyRow>, name: string): (id: Option<int>)
    ensures id.Some? ==> exists r :: r in rows && r.name == name && r.id == id.value
    ensures id.None? ==> forall r :: r in rows ==> r.name != name
  {
    if rows == [] then None
    else if rows[0].name == name then Some(rows[0].id)
    else SelectAssembly(rows[1..], name)
  }

  function SelectVersion(rows: seq<VersionRow>, assemblyId: int, version: string): (id: Option<int>)
    ensures id.Some? ==> exists r :: r in rows && r.assemblyId == assemblyId && r.version == version && r.id == id.value
    ensures id.None? ==> forall r :: r in rows ==> !(r.assemblyId == assemblyId && r.version == version)
  {
    if rows == [] then None
    else if rows[0].assemblyId == assemblyId && rows[0].version == version then Some(rows[0].id)
    else SelectVersion(rows[1..], assemblyId, version)
  }

  function SelectStep(rows: seq<StepRow>, versionId: int, step: int): (id: Option<int>)
    ensures id.Some? ==> exists r :: r in rows && r.versionId == versionId && r.step == step && r.id == id.value
    ensures id.None? ==> forall r :: r in rows ==> !(r.versionId == versionId && r.step == step)
  {
    if rows == [] then None
    else if rows[0].versionId == versionId && rows[0].step == step then Some(rows[0].id)
    else SelectStep(rows[1..], versionId, step)
  }

  // The join of the checker, as the row count it computes.

  function CountSteps(rows: seq<StepRow>, versionId: int, step: int): nat {
    if rows == [] then 0
    else (if rows[0].versionId == versionId && rows[0].step == step then 1 else 0)
         + CountSteps(rows[1..], versionId, step)
  }

  function CountVersions(rows: seq<VersionRow>, steps: seq<StepRow>, assemblyId: int, key: StepKey): nat {
    if rows == [] then 0
    else (if rows[0].assemblyId == assemblyId && rows[0].version == key.version
          then CountSteps(steps, rows[0].id, key.step) else 0)
         + CountVersions(rows[1..], steps, assemblyId, key)
  }

  function CountAssemblies(rows: seq<AssemblyRow>, versions: seq<VersionRow>, steps: seq<StepRow>, key: StepKey): nat {
    if rows == [] then 0
    else (if rows[0].name == key.assembly then CountVersions(versions, steps, rows[0].id, key) else 0)
         + CountAssemblies(rows[1..], versions, steps, key)
  }

  function JoinCount(t: Tables, key: StepKey): nat {
    CountAssemblies(t.assemblies, t.versions, t.steps, key)
  }

  predicate IsExecuted(t: Tables, key: StepKey) {
    JoinCount(t, key) > 0
  }

  // ----------------------------------------------------------- abstraction

  ghost predicate StepPresent(steps: seq<StepRow>, versionId: int, step: int) {
    exists s :: s in steps && s.versionId == versionId && s.step == step
  }

  ghost predicate VersionPresent(versions: seq<VersionRow>, steps: seq<StepRow>, assemblyId: int, key: StepKey) {
    exists v ::
      v in versions && v.assemblyId == assemblyId && v.version == key.version && StepPresent(steps, v.id, key.step)
  }

  /** The key is recorded: some chain of rows spells it out. */
  ghost predicate Has(t: Tables, key: StepKey) {
    exists a :: a in t.assemblies && a.name == key.assembly && VersionPresent(t.versions, t.steps, a.id, key)
  }

  // -------------------------------------------------------------- validity

  ghost predicate UniqueIds(t: Tables) {
    && (forall i, j :: 0 <= i < j < |t.assemblies| ==> t.assemblies[i].id != t.assemblies[j].id)
    && (forall i, j :: 0 <= i < j < |t.versions| ==> t.versions[i].id != t.versions[j].id)
    && (forall i, j :: 0 <= i < j < |t.steps| ==> t.steps[i].id != t.steps[j].id)
  }

  ghost predicate UniqueNames(t: Tables) {
    && (forall i, j :: 0 <= i < j < |t.assemblies| ==> t.assemblies[i].name != t.assemblies[j].name)
    && (forall i, j :: 0 <= i < j < |t.versions| ==>
          t.versions[i].assemblyId != t.versions[j].assemblyId || t.versions[i].version != t.versions[j].version)
    && (forall i, j :: 0 <= i < j < |t.steps| ==>
          t.steps[i].versionId != t.steps[j].versionId || t.steps[i].step != t.steps[j].step)
  }

  ghost predicate AssemblyIdUsed(t: Tables, id: int) {
    exists a :: a in t.assemblies && a.id == id
  }

  ghost predicate VersionIdUsed(t: Tables, id: int) {
    exists v :: v in t.versions && v.id == id
  }

  ghost predicate ParentsExist(t: Tables) {
    && (forall v {:trigger AssemblyIdUsed(t, v.assemblyId)} :: v in t.versions ==> AssemblyIdUsed(t, v.assemblyId))
    && (forall s {:trigger VersionIdUsed(t, s.versionId)} :: s in t.steps ==> VersionIdUsed(t, s.versionId))
  }

  ghost predicate Valid(t: Tables) {
    UniqueIds(t) && UniqueNames(t) && ParentsExist(t)
  }

  ghost predicate AssemblyHasVersion(t: Tables, id: int) {
    exists v :: v in t.versions && v.assemblyId == id
  }

  ghost predicate VersionHasStep(t: Tables, id: int) {
    exists s :: s in t.steps && s.versionId == id
  }

  /** Every assembly row has a version row, every version row a step row. */
  ghost predicate NoOrphans(t: Tables) {
    && (forall a {:trigger AssemblyHasVersion(t, a.id)} :: a in t.assemblies ==> AssemblyHasVersion(t, a.id))
    && (forall v {:trigger VersionHasStep(t, v.id)} :: v in t.versions ==> VersionHasStep(t, v.id))
  }

  // --------------------------------------------------------------- marking

  /** An id that the database may hand out for a new row. */
  predicate FreshAssemblyId(rows: seq<AssemblyRow>, id: int) {
    forall r :: r in rows ==> r.id != id
  }

  predicate FreshVersionId(rows: seq<VersionRow>, id: int) {
    forall r :: r in rows ==> r.id != id
  }

  predicate FreshStepId(rows: seq<StepRow>, id: int) {
    forall r :: r in rows ==> r.id != id
  }

  /** The database hands out ids that no row of the table has. */
  function NextAssemblyId(rows: seq<AssemblyRow>): (id: int)
    ensures FreshAssemblyId(rows, id) && forall r :: r in rows ==> r.id < id
  {
    if rows == [] then 1
    else var next := NextAssemblyId(rows[1..]); if rows[0].id < next then next else rows[0].id + 1
  }

  function NextVersionId(rows: seq<VersionRow>): (id: int)
    ensures FreshVersionId(rows, id) && forall r :: r in rows ==> r.id < id
  {
    if rows == [] then 1
    else var next := NextVersionId(rows[1..]); if rows[0].id < next then next else rows[0].id + 1
  }

  function NextStepId(rows: seq<StepRow>): (id: int)
    ensures FreshStepId(rows, id) && forall r :: r in rows ==> r.id < id
  {
    if rows == [] then 1
    else var next := NextStepId(rows[1..]); if rows[0].id < next then next else rows[0].id + 1
  }

  ghost predicate AssemblyEntered(t: Tables, name: string, id: int, t': Tables) {
    match SelectAssembly(t.assemblies, name)
    case Some(found) => id == found && t' == t
    case None => FreshAssemblyId(t.assemblies, id) && t' == t.(assemblies := t.assemblies + [AssemblyRow(id, name)])
  }

  ghost predicate VersionEntered(t: Tables, assemblyId: int, version: string, id: int, t': Tables) {
    match SelectVersion(t.versions, assemblyId, version)
    case Some(found) => id == found && t' == t
    case None =>
      && FreshVersionId(t.versions, id)
      && t' == t.(versions := t.versions + [VersionRow(id, assemblyId, version)])
  }

  ghost predicate StepEntered(t: Tables, versionId: int, step: int, id: int, t': Tables) {
    match SelectStep(t.steps, versionId, step)
    case Some(found) => id == found && t' == t
    case None => FreshStepId(t.steps, id) && t' == t.(steps := t.steps + [StepRow(id, versionId, step)])
  }

  /** The three find-or-inserts with the ids they ended up with. */
  ghost predicate MarkedWith(t: Tables, key: StepKey, a: int, v: int, s: int, t1: Tables, t2: Tables, t': Tables) {
    && AssemblyEntered(t, key.assembly, a, t1)
    && VersionEntered(t1, a, key.version, v, t2)
    && StepEntered(t2, v, key.step, s, t')
  }

  /** What marking a key may turn the tables into, whatever fresh ids are handed out. */
  ghost predicate Marked(t: Tables, key: StepKey, t': Tables) {
    exists a, v, s, t1, t2 :: MarkedWith(t, key, a, v, s, t1, t2, t')
  }

  lemma {:induction false} AssemblyCanBeEntered(t: Tables, name: string) returns (id: int, t': Tables)
    ensures AssemblyEntered(t, name, id, t')
  {
    match SelectAssembly(t.assemblies, name)
    case Some(found) => id, t' := found, t;
    case None =>
      id := NextAssemblyId(t.assemblies);
      t' := t.(assemblies := t.assemblies + [AssemblyRow(id, name)]);
  }

  lemma {:induction false} VersionCanBeEntered(t: Tables, a: int, version: string) returns (id: int, t': Tables)
    ensures VersionEntered(t, a, version, id, t')
  {
    match SelectVersion(t.versions, a, version)
    case Some(found) => id, t' := found, t;
    case None =>
      id := NextVersionId(t.versions);
      t' := t.(versions := t.versions + [VersionRow(id, a, version)]);
  }

  lemma {:induction false} StepCanBeEntered(t: Tables, v: int, step: int) returns (id: int, t': Tables)
    ensures StepEntered(t, v, step, id, t')
  {
    match SelectStep(t.steps, v, step)
    case Some(found) => id, t' := found, t;
    case None =>
      id := NextStepId(t.steps);
      t' := t.(steps := t.steps + [StepRow(id, v, step)]);
  }

  /** There is always a way to mark a key. */
  lemma {:induction false} MarkIsPossible(t: Tables, key: StepKey) returns (t': Tables)
    ensures Marked(t, key, t')
  {
    var a, t1 := AssemblyCanBeEntered(t, key.assembly);
    var v, t2 := VersionCanBeEntered(t1, a, key.version);
    var s;
    s, t' := StepCanBeEntered(t2, v, key.step);
    assert MarkedWith(t, key, a, v, s, t1, t2, t');
  }

  // ----------------------------------------------- join count and presence

  lemma {:induction false} CountStepsMeaning(rows: seq<StepRow>, versionId: int, step: int)
    ensures CountSteps(rows, versionId, step) > 0 <==> StepPresent(rows, versionId, step)
  {
    if rows != [] {
      CountStepsMeaning(rows[1..], versionId, step);
      assert rows == [rows[0]] + rows[1..];
    }
  }

  lemma {:induction false} CountVersionsMeaning(rows: seq<VersionRow>, steps: seq<StepRow>, assemblyId: int,
                                                key: StepKey)
    ensures CountVersions(rows, steps, assemblyId, key) > 0 <==> VersionPresent(rows, steps, assemblyId, key)
  {
    if rows != [] {
      CountVersionsMeaning(rows[1..], steps, assemblyId, key);
      CountStepsMeaning(steps, rows[0].id, key.step);
      assert rows == [rows[0]] + rows[1..];
    }
  }

  lemma {:induction false} CountAssembliesMeaning(rows: seq<AssemblyRow>, t: Tables, key: StepKey)
    ensures CountAssemblies(rows, t.versions, t.steps, key) > 0 <==> Has(t.(assemblies := rows), key)
  {
    if rows != [] {
      var rest := t.(assemblies := rows[1..]);
      CountAssembliesMeaning(rows[1..], t, key);
      CountVersionsMeaning(t.versions, t.steps, rows[0].id, key);
      assert rows == [rows[0]] + rows[1..];
      if Has(rest, key) {
        var a :| a in rest.assemblies && a.name == key.assembly && VersionPresent(t.versions, t.steps, a.id, key);
        assert a in rows;
      }
    }
  }

  /** The checker answers true exactly when the key is recorded. */
  lemma {:induction false} IsExecutedMeaning(t: Tables, key: StepKey)
    ensures IsExecuted(t, key) <==> Has(t, key)
  {
    CountAssembliesMeaning(t.assemblies, t, key);
    assert t.(assemblies := t.assemblies) == t;
  }

  lemma {:induction false} CountStepsAtMostOne(rows: seq<StepRow>, versionId: int, step: int)
    requires forall i, j :: 0 <= i < j < |rows| ==>
      rows[i].versionId != rows[j].versionId || rows[i].step != rows[j].step
    ensures CountSteps(rows, versionId, step) <= 1
  {
    if rows != [] {
      CountStepsAtMostOne(rows[1..], versionId, step);
      if rows[0].versionId == versionId && rows[0].step == step {
        CountStepsMeaning(rows[1..], versionId, step);
      }
    }
  }

  lemma {:induction false} CountVersionsAtMostOne(rows: seq<VersionRow>, steps: seq<StepRow>, assemblyId: int,
                                                  key: StepKey)
    requires forall i, j :: 0 <= i < j < |rows| ==>
      rows[i].assemblyId != rows[j].assemblyId || rows[i].version != rows[j].version
    requires forall i, j :: 0 <= i < j < |steps| ==>
      steps[i].versionId != steps[j].versionId || steps[i].step != steps[j].step
    ensures CountVersions(rows, steps, assemblyId, key) <= 1
  {
    if rows != [] {
      CountVersionsAtMostOne(rows[1..], steps, assemblyId, key);
      CountStepsAtMostOne(steps, rows[0].id, key.step);
      if rows[0].assemblyId == assemblyId && rows[0].version == key.version {
        CountVersionsMeaning(rows[1..], steps, assemblyId, key);
      }
    }
  }

  lemma {:induction false} CountAssembliesAtMostOne(rows: seq<AssemblyRow>, t: Tables, key: StepKey)
    requires UniqueNames(t.(assemblies := rows))
    ensures CountAssemblies(rows, t.versions, t.steps, key) <= 1
  {
    if rows != [] {
      CountAssembliesAtMostOne(rows[1..], t, key);
      CountVersionsAtMostOne(t.versions, t.steps, rows[0].id, key);
      if rows[0].name == key.assembly {
        CountAssembliesMeaning(rows[1..], t, key);
      }
    }
  }

  /** In valid tables a key is spelled out by at most one chain of rows. */
  lemma {:induction false} OneRowPerKey(t: Tables, key: StepKey)
    requires Valid(t)
    ensures JoinCount(t, key) == if Has(t, key) then 1 else 0
  {
    IsExecutedMeaning(t, key);
    assert t.(assemblies := t.assemblies) == t;
    CountAssembliesAtMostOne(t.assemblies, t, key);
  }

  // ------------------------------------------------- effect of one marking

  lemma {:induction false} AssemblyEnteredKeepsValid(t: Tables, name: string, id: int, t': Tables)
    requires Valid(t) && AssemblyEntered(t, name, id, t')
    ensures Valid(t')
    ensures AssemblyRow(id, name) in t'.assemblies
    ensures t'.versions == t.versions && t'.steps == t.steps
    ensures forall a :: a in t.assemblies ==> a in t'.assemblies
    ensures forall a :: a in t'.assemblies ==>
      a in t.assemblies || (a == AssemblyRow(id, name) && FreshAssemblyId(t.assemblies, id))
  {
    if t' != t {
      assert AssemblyRow(id, name) == t'.assemblies[|t.assemblies|];
      forall v | v in t'.versions
        ensures AssemblyIdUsed(t', v.assemblyId)
      {
        assert AssemblyIdUsed(t, v.assemblyId);
      }
      forall s | s in t'.steps
        ensures VersionIdUsed(t', s.versionId)
      {
        assert VersionIdUsed(t, s.versionId);
      }
    }
  }

  lemma {:induction false} AssemblyEnteredKeepsKeys(t: Tables, name: string, id: int, t': Tables, k: StepKey)
    requires Valid(t) && AssemblyEntered(t, name, id, t')
    ensures Has(t', k) <==> Has(t, k)
  {
    AssemblyEnteredKeepsValid(t, name, id, t');
    if Has(t', k) {
      var a :| a in t'.assemblies && a.name == k.assembly && VersionPresent(t'.versions, t'.steps, a.id, k);
      var v :| v in t.versions && v.assemblyId == a.id && v.version == k.version && StepPresent(t.steps, v.id, k.step);
      assert AssemblyIdUsed(t, v.assemblyId);
      assert a in t.assemblies;
    }
  }

  lemma {:induction false} VersionEnteredKeepsValid(t: Tables, a: AssemblyRow, version: string, id: int, t': Tables)
    requires Valid(t) && a in t.assemblies && VersionEntered(t, a.id, version, id, t')
    ensures Valid(t')
    ensures VersionRow(id, a.id, version) in t'.versions
    ensures t'.assemblies == t.assemblies && t'.steps == t.steps
    ensures forall v :: v in t.versions ==> v in t'.versions
    ensures forall v :: v in t'.versions ==>
      v in t.versions || (v == VersionRow(id, a.id, version) && FreshVersionId(t.versions, id))
  {
    if t' != t {
      assert VersionRow(id, a.id, version) == t'.versions[|t.versions|];
      forall v | v in t'.versions
        ensures AssemblyIdUsed(t', v.assemblyId)
      {
        if v in t.versions {
          assert AssemblyIdUsed(t, v.assemblyId);
        }
      }
      forall s | s in t'.steps
        ensures VersionIdUsed(t', s.versionId)
      {
        assert VersionIdUsed(t, s.versionId);
      }
    }
  }

  lemma {:induction false} VersionEnteredKeepsKeys(t: Tables, a: AssemblyRow, version: string, id: int, t': Tables,
                                                   k: StepKey)
    requires Valid(t) && a in t.assemblies && VersionEntered(t, a.id, version, id, t')
    ensures Has(t', k) <==> Has(t, k)
  {
    VersionEnteredKeepsValid(t, a, version, id, t');
    if Has(t', k) {
      var b :| b in t'.assemblies && b.name == k.assembly && VersionPresent(t'.versions, t'.steps, b.id, k);
      var v :| v in t'.versions && v.assemblyId == b.id && v.version == k.version
                  && StepPresent(t'.steps, v.id, k.step);
      var s :| s in t.steps && s.versionId == v.id && s.step == k.step;
      assert VersionIdUsed(t, s.versionId);
      assert v in t.versions;
      assert VersionPresent(t.versions, t.steps, b.id, k);
    }
    if Has(t, k) {
      var b :| b in t.assemblies && b.name == k.assembly && VersionPresent(t.versions, t.steps, b.id, k);
      assert VersionPresent(t'.versions, t'.steps, b.id, k);
    }
  }

  lemma {:induction false} StepEnteredKeepsValid(t: Tables, v: VersionRow, step: int, id: int, t': Tables)
    requires Valid(t) && v in t.versions && StepEntered(t, v.id, step, id, t')
    ensures Valid(t')
    ensures StepRow(id, v.id, step) in t'.steps
    ensures t'.assemblies == t.assemblies && t'.versions == t.versions
    ensures forall s :: s in t.steps ==> s in t'.steps
    ensures forall s :: s in t'.steps ==> s in t.steps || s == StepRow(id, v.id, step)
  {
    if t' != t {
      assert StepRow(id, v.id, step) == t'.steps[|t.steps|];
      forall w | w in t'.versions
        ensures AssemblyIdUsed(t', w.assemblyId)
      {
        assert AssemblyIdUsed(t, w.assemblyId);
      }
      forall s | s in t'.steps
        ensures VersionIdUsed(t', s.versionId)
      {
        if s in t.steps {
          assert VersionIdUsed(t, s.versionId);
        }
      }
    }
  }

  lemma {:induction false} UniqueRows(t: Tables)
    requires Valid(t)
    ensures forall a, b :: a in t.assemblies && b in t.assemblies && (a.name == b.name || a.id == b.id) ==> a == b
    ensures forall v, w :: v in t.versions && w in t.versions && v.id == w.id ==> v == w
    ensures forall v, w ::
      v in t.versions && w in t.versions && v.assemblyId == w.assemblyId && v.version == w.version ==> v == w
  {
  }

  lemma {:induction false} StepEnteredAddsKey(t: Tables, a: AssemblyRow, v: VersionRow, step: int, id: int,
                                              t': Tables, k: StepKey)
    requires Valid(t) && a in t.assemblies && v in t.versions && v.assemblyId == a.id
    requires StepEntered(t, v.id, step, id, t')
    ensures Has(t', k) <==> Has(t, k) || k == StepKey(a.name, v.version, step)
  {
    StepEnteredKeepsValid(t, v, step, id, t');
    UniqueRows(t);
    if Has(t', k) {
      var b :| b in t'.assemblies && b.name == k.assembly && VersionPresent(t'.versions, t'.steps, b.id, k);
      var w :| w in t'.versions && w.assemblyId == b.id && w.version == k.version
                  && StepPresent(t'.steps, w.id, k.step);
      var s :| s in t'.steps && s.versionId == w.id && s.step == k.step;
      if s in t.steps {
        assert StepPresent(t.steps, w.id, k.step);
        assert VersionPresent(t.versions, t.steps, b.id, k);
      }
    }
    if Has(t, k) {
      var b :| b in t.assemblies && b.name == k.assembly && VersionPresent(t.versions, t.steps, b.id, k);
      var w :| w in t.versions && w.assemblyId == b.id && w.version == k.version && StepPresent(t.steps, w.id, k.step);
      assert StepPresent(t'.steps, w.id, k.step);
      assert VersionPresent(t'.versions, t'.steps, b.id, k);
    }
    if k == StepKey(a.name, v.version, step) {
      assert StepPresent(t'.steps, v.id, step);
      assert VersionPresent(t'.versions, t'.steps, a.id, k);
    }
  }

  /** One marking adds exactly the given key and keeps the tables valid. */
  lemma {:induction false} MarkAddsKey(t: Tables, key: StepKey, t': Tables)
    requires Valid(t) && Marked(t, key, t')
    ensures Valid(t')
    ensures forall k :: Has(t', k) <==> Has(t, k) || k == key
  {
    var a, v, s, t1, t2 :| MarkedWith(t, key, a, v, s, t1, t2, t');
    AssemblyEnteredKeepsValid(t, key.assembly, a, t1);
    var assembly := AssemblyRow(a, key.assembly);
    VersionEnteredKeepsValid(t1, assembly, key.version, v, t2);
    var version := VersionRow(v, a, key.version);
    StepEnteredKeepsValid(t2, version, key.step, s, t');
    forall k
      ensures Has(t', k) <==> Has(t, k) || k == key
    {
      AssemblyEnteredKeepsKeys(t, key.assembly, a, t1, k);
      VersionEnteredKeepsKeys(t1, assembly, key.version, v, t2, k);
      StepEnteredAddsKey(t2, assembly, version, key.step, s, t', k);
    }
  }

  /** A complete marking leaves no row without children. */
  lemma {:induction false} MarkLeavesNoOrphans(t: Tables, key: StepKey, t': Tables)
    requires Valid(t) && NoOrphans(t) && Marked(t, key, t')
    ensures NoOrphans(t')
  {
    var a, v, s, t1, t2 :| MarkedWith(t, key, a, v, s, t1, t2, t');
    AssemblyEnteredKeepsValid(t, key.assembly, a, t1);
    var version := VersionRow(v, a, key.version);
    VersionEnteredKeepsValid(t1, AssemblyRow(a, key.assembly), key.version, v, t2);
    StepEnteredKeepsValid(t2, version, key.step, s, t');
    forall b | b in t'.assemblies
      ensures AssemblyHasVersion(t', b.id)
    {
      if b in t.assemblies {
        assert AssemblyHasVersion(t, b.id);
      } else {
        assert version in t'.versions;
      }
    }
    forall w | w in t'.versions
      ensures VersionHasStep(t', w.id)
    {
      if w in t.versions {
        assert VersionHasStep(t, w.id);
      } else {
        assert StepRow(s, v, key.step) in t'.steps;
      }
    }
  }

  /** Marking a key that is already recorded changes nothing. */
  lemma {:induction false} MarkTwiceIsMarkOnce(t: Tables, key: StepKey, t': Tables)
    requires Valid(t) && Has(t, key) && Marked(t, key, t')
    ensures t' == t
  {
    UniqueRows(t);
    var a, v, s, t1, t2 :| MarkedWith(t, key, a, v, s, t1, t2, t');
    var b :| b in t.assemblies && b.name == key.assembly && VersionPresent(t.versions, t.steps, b.id, key);
    assert t1 == t && a == b.id;
    var w :| w in t.versions && w.assemblyId == b.id && w.version == key.version
                && StepPresent(t.steps, w.id, key.step);
    assert t2 == t && v == w.id;
  }

  // ------------------------------------------------------ whole-run results

  /** The tables went through one marking per key, in order. */
  ghost predicate MarkRun(states: seq<Tables>, keys: seq<StepKey>) {
    && |states| == |keys| + 1
    && forall i :: 0 <= i < |keys| ==> Marked(states[i], keys[i], states[i + 1])
  }

  lemma {:induction false} MarkAddsAnswer(t: Tables, key: StepKey, t': Tables, k: StepKey)
    requires Valid(t) && Marked(t, key, t')
    ensures IsExecuted(t', k) <==> IsExecuted(t, k) || k == key
  {
    MarkAddsKey(t, key, t');
    IsExecutedMeaning(t, k);
    IsExecutedMeaning(t', k);
  }

  lemma {:induction false} MarkRunKeeps(states: seq<Tables>, keys: seq<StepKey>)
    requires MarkRun(states, keys) && states[0] == EMPTY
    ensures Valid(states[|keys|]) && NoOrphans(states[|keys|])
  {
    var n := |keys|;
    if n > 0 {
      MarkRunKeeps(states[..n], keys[..n - 1]);
      MarkAddsKey(states[n - 1], keys[n - 1], states[n]);
      MarkLeavesNoOrphans(states[n - 1], keys[n - 1], states[n]);
    }
  }

  lemma {:induction false} AnswersAreKeys(states: seq<Tables>, keys: seq<StepKey>, k: StepKey)
    requires MarkRun(states, keys) && states[0] == EMPTY
    ensures IsExecuted(states[|keys|], k) <==> k in keys
  {
    var n := |keys|;
    if n == 0 {
      IsExecutedMeaning(EMPTY, k);
    } else {
      AnswersAreKeys(states[..n], keys[..n - 1], k);
      MarkRunKeeps(states[..n], keys[..n - 1]);
      MarkAddsAnswer(states[n - 1], keys[n - 1], states[n], k);
      assert keys == keys[..n - 1] + [keys[n - 1]];
    }
  }

  /** Starting from empty tables, the checker answers exactly whether the key was ever marked. */
  lemma {:induction false} StoreIsASetOfKeys(states: seq<Tables>, keys: seq<StepKey>)
    requires MarkRun(states, keys) && states[0] == EMPTY
    ensures var t := states[|keys|];
      Valid(t) && NoOrphans(t) && forall k :: IsExecuted(t, k) <==> k in keys
  {
    MarkRunKeeps(states, keys);
    forall k
      ensures IsExecuted(states[|keys|], k) <==> k in keys
    {
      AnswersAreKeys(states, keys, k);
    }
  }
}
