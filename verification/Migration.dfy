/**
 The deserialised update scripts, the settings an updater is configured with, and
 the part of the database that an upgrade works on.
 */
module Migration {
  import opened Wrappers
  import opened MarkStore
  import TextLines
  import ScriptSplitter

  /** The commands of one transaction. */
  type Unit = seq<string>

  // ------------------------------------------------------------ update scripts

  datatype Precondition = Precondition(name: string, parameters: seq<string>)

  datatype Alternative = Alternative(dbType: string, text: string)

  /** What a step does: SQL text per database type; or, for a typed (custom or extension) step,
      any number of transactions, of which it is only known what each of them may commit. */
  datatype Work = DbCommand(alternatives: seq<Alternative>) | Typed(typeName: string, mayCommit: Unit -> bool)

  datatype Step = Step(id: int, markAsExecuted: bool, preconditions: Option<seq<Precondition>>, work: Work)

  datatype Update = Update(version: string, steps: seq<Step>)

  /** A script without any update element deserialises to no array at all. */
  datatype Updates = Updates(
    assemblyName: string,
    defaultPreconditions: Option<seq<Precondition>>,
    updates: Option<seq<Update>>)

  /** The step's own preconditions, else the script's defaults; None if both are missing. */
  function ResolvePreconditions(step: Step, script: Updates): Option<seq<Precondition>> {
    if step.preconditions.None? || step.preconditions.value == [] then script.defaultPreconditions
    else step.preconditions
  }

  // ----------------------------------------------------- steps in running order

  /** A step with everything the run carries along for it. */
  datatype Task = Task(key: StepKey, preconditions: Option<seq<Precondition>>, mark: bool, work: Work)

  function TaskOf(script: Updates, update: Update, step: Step): Task {
    Task(StepKey(script.assemblyName, update.version, step.id),
         ResolvePreconditions(step, script), step.markAsExecuted, step.work)
  }

  function TasksOfSteps(script: Updates, update: Update, steps: seq<Step>): (tasks: seq<Task>)
    ensures |tasks| == |steps|
    ensures forall i :: 0 <= i < |steps| ==> tasks[i] == TaskOf(script, update, steps[i])
  {
    seq(|steps|, i requires 0 <= i < |steps| => TaskOf(script, update, steps[i]))
  }

  function TasksOfUpdates(script: Updates, updates: seq<Update>): seq<Task> {
    if updates == [] then []
    else var last := updates[|updates| - 1];
         TasksOfUpdates(script, updates[..|updates| - 1]) + TasksOfSteps(script, last, last.steps)
  }

  function TasksOfScript(script: Updates): seq<Task> {
    if script.updates.None? then [] else TasksOfUpdates(script, script.updates.value)
  }

  function TasksOfScripts(scripts: seq<Updates>): seq<Task> {
    if scripts == [] then []
    else TasksOfScripts(scripts[..|scripts| - 1]) + TasksOfScript(scripts[|scripts| - 1])
  }

  lemma {:induction false} UpdatesNext(script: Updates, updates: seq<Update>, u: nat)
    requires u < |updates|
    ensures TasksOfUpdates(script, updates[..u + 1]) ==
            TasksOfUpdates(script, updates[..u]) + TasksOfSteps(script, updates[u], updates[u].steps)
  {
    assert updates[..u + 1][..u] == updates[..u];
  }

  lemma {:induction false} ScriptsNext(scripts: seq<Updates>, k: nat)
    requires k < |scripts|
    ensures TasksOfScripts(scripts[..k + 1]) == TasksOfScripts(scripts[..k]) + TasksOfScript(scripts[k])
  {
    assert scripts[..k + 1][..k] == scripts[..k];
  }

  lemma {:induction false} UpdatesBefore(script: Updates, updates: seq<Update>, n: nat)
    requires n <= |updates|
    ensures TasksOfUpdates(script, updates[..n]) <= TasksOfUpdates(script, updates)
  {
    if n < |updates| {
      UpdatesBefore(script, updates[..|updates| - 1], n);
      assert updates[..|updates| - 1][..n] == updates[..n];
    } else {
      assert updates[..n] == updates;
    }
  }

  lemma {:induction false} ScriptsBefore(scripts: seq<Updates>, n: nat)
    requires n <= |scripts|
    ensures TasksOfScripts(scripts[..n]) <= TasksOfScripts(scripts)
  {
    if n < |scripts| {
      ScriptsBefore(scripts[..|scripts| - 1], n);
      assert scripts[..|scripts| - 1][..n] == scripts[..n];
    } else {
      assert scripts[..n] == scripts;
    }
  }

  /** How many steps the first n updates have. */
  function StepsInUpdates(updates: seq<Update>, n: nat): nat
    requires n <= |updates|
  {
    if n == 0 then 0 else StepsInUpdates(updates, n - 1) + |updates[n - 1].steps|
  }

  function StepsInScript(script: Updates): nat {
    match script.updates
    case None => 0
    case Some(updates) => StepsInUpdates(updates, |updates|)
  }

  /** How many steps the first n scripts have. */
  function StepsInScripts(scripts: seq<Updates>, n: nat): nat
    requires n <= |scripts|
  {
    if n == 0 then 0 else StepsInScripts(scripts, n - 1) + StepsInScript(scripts[n - 1])
  }

  lemma {:induction false} UpdatesCount(script: Updates, updates: seq<Update>, n: nat)
    requires n <= |updates|
    ensures |TasksOfUpdates(script, updates[..n])| == StepsInUpdates(updates, n)
  {
    if n > 0 {
      UpdatesCount(script, updates, n - 1);
      UpdatesNext(script, updates, n - 1);
    }
  }

  lemma {:induction false} ScriptCount(script: Updates)
    ensures |TasksOfScript(script)| == StepsInScript(script)
  {
    if script.updates.Some? {
      var updates := script.updates.value;
      UpdatesCount(script, updates, |updates|);
      assert updates[..|updates|] == updates;
    }
  }

  lemma {:induction false} ScriptsCount(scripts: seq<Updates>, n: nat)
    requires n <= |scripts|
    ensures |TasksOfScripts(scripts[..n])| == StepsInScripts(scripts, n)
  {
    if n > 0 {
      ScriptsCount(scripts, n - 1);
      ScriptsNext(scripts, n - 1);
      ScriptCount(scripts[n - 1]);
    }
  }

  lemma {:induction false} AllStepsCount(scripts: seq<Updates>)
    ensures |TasksOfScripts(scripts)| == StepsInScripts(scripts, |scripts|)
  {
    ScriptsCount(scripts, |scripts|);
    assert scripts[..|scripts|] == scripts;
  }

  // ------------------------------------------------------------------ database

  /** One command in the committed history of the database, with the step that issued it. */
  datatype Entry = Entry(key: StepKey, command: string)

  /** What transactions read and write: the mark tables, and everything else as the
      history of the commands that made it. */
  datatype Content = Content(marks: Tables, log: seq<Entry>)

  function Entries(key: StepKey, commands: seq<string>): (entries: seq<Entry>)
    ensures |entries| == |commands|
    ensures forall i :: 0 <= i < |commands| ==> entries[i] == Entry(key, commands[i])
  {
    seq(|commands|, i requires 0 <= i < |commands| => Entry(key, commands[i]))
  }

  function EntriesOfUnits(key: StepKey, units: seq<Unit>): seq<Entry> {
    if units == [] then []
    else EntriesOfUnits(key, units[..|units| - 1]) + Entries(key, units[|units| - 1])
  }

  // ------------------------------------------------------------------ settings

  datatype Verdict = Met | NotMet | Raises

  datatype PreconditionHandler =
    | StepNotExecuted
    | OtherHandler(name: string, judge: (StepKey, Precondition, Content) -> Verdict)
  {
    function Name(): string {
      match this
      case StepNotExecuted => "StepNotExecuted"
      case OtherHandler(name, _) => name
    }

    predicate CanHandle(p: Precondition) {
      p.name == Name()
    }

    function IsMet(key: StepKey, p: Precondition, content: Content): Verdict {
      match this
      case StepNotExecuted => if IsExecuted(content.marks, key) then NotMet else Met
      case OtherHandler(_, judge) => judge(key, p, content)
    }
  }

  /** The built-in handler of "ForceExecution". */
  function ForceExecution(): PreconditionHandler {
    OtherHandler("ForceExecution", (key, p, content) => Met)
  }

  /** The built-in handler of "DbTableNotFound", over a checker that looks a table up by its name. */
  function TableNotFound(tableExists: (string, Content) -> bool): PreconditionHandler {
    OtherHandler("DbTableNotFound", (key: StepKey, p: Precondition, content: Content) =>
      if p.parameters == [] || p.parameters[0] == "" then Raises
      else if tableExists(p.parameters[0], content) then NotMet else Met)
  }

  /** The names that the built-in handlers claim. */
  const BUILT_IN_NAMES := {
    "StepNotExecuted", "ForceExecution", "DbType", "DbTableNotFound", "DbViewNotFound", "DbIndexNotFound",
    "DbPrimaryKeyNotFound", "DbForeignKeyNotFound", "DbProcedureNotFound", "DbTriggerNotFound"
  }

  /** The name that a precondition gets if the script gives it none. */
  const DEFAULT_NAME := "NotExecuted"

  /** Step handlers accept steps by their type. */
  datatype StepHandler = DbCommandHandler | TypedHandler(typeName: string) {
    predicate CanHandle(work: Work) {
      match this
      case DbCommandHandler => work.DbCommand?
      case TypedHandler(typeName) => work.Typed? && work.typeName == typeName
    }
  }

  datatype Settings = Settings(
    preconditionHandlers: seq<PreconditionHandler>,
    stepHandlers: seq<StepHandler>,
    canHandle: string -> bool,
    splitters: seq<ScriptSplitter.Kind>,
    newline: TextLines.Newline)

  predicate Applies(settings: Settings, alternative: Alternative) {
    settings.canHandle(alternative.dbType) || alternative.dbType == "all"
  }

  /** The transactions of a database step: one per alternative that applies, split into commands. */
  function UnitsOfAlternatives(settings: Settings, alternatives: seq<Alternative>): seq<Unit> {
    if alternatives == [] then []
    else
      var last := alternatives[|alternatives| - 1];
      UnitsOfAlternatives(settings, alternatives[..|alternatives| - 1]) +
      if Applies(settings, last)
      then [ScriptSplitter.ChainSplit(settings.newline, settings.splitters, last.text)] else []
  }

  lemma {:induction false} AlternativesBefore(settings: Settings, alternatives: seq<Alternative>, n: nat)
    requires n <= |alternatives|
    ensures UnitsOfAlternatives(settings, alternatives[..n]) <= UnitsOfAlternatives(settings, alternatives)
  {
    if n < |alternatives| {
      AlternativesBefore(settings, alternatives[..|alternatives| - 1], n);
      assert alternatives[..|alternatives| - 1][..n] == alternatives[..n];
    } else {
      assert alternatives[..n] == alternatives;
    }
  }
}
