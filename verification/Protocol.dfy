/**
 The order in which an updater may use its resources: the lock, one script stream at
 a time, and the transaction slot. A trace is legal if it never leaves this protocol.
 */
module Protocol {
  import opened Wrappers

  datatype Event =
    | Started                // an upgrade began
    | Probed                 // asked whether the lock table exists
    | Locked | LockDenied    // a lock attempt that returned
    | Unlocked               // a lock release was called
    | Opened | Closed        // an update script stream
    | Queried                // a precondition was evaluated
    | Began                  // a provider transaction started
    | Used                   // the provider was asked for its active transaction
    | Ended                  // commit or rollback was called on the active transaction
    | Refused                // commit or rollback was called without an active transaction
    | Faulted                // a call threw

  /** The events so far, the latest one last. */
  datatype Trace = Nothing | Then(earlier: Trace, latest: Event)

  /** Which upgrade this is, what it holds, and whether something has already thrown in it. */
  datatype Held = Held(run: nat, lock: bool, stream: bool, transaction: bool, failing: bool) {
    predicate IsFree() {
      !lock && !stream && !transaction
    }

    /** The same after a call with this outcome. */
    function After(o: Outcome): Held {
      if o.Threw? then this.(failing := true) else this
    }
  }

  const IDLE := Held(0, false, false, false, false)

  /** Once something has thrown, all that may still happen is giving back what is held. */
  function Advance(held: Held, event: Event): Option<Held> {
    match event
    case Started => if held.IsFree() then Some(IDLE.(run := held.run + 1)) else None
    case Probed => if held.IsFree() && !held.failing then Some(held) else None
    case Locked => if held.IsFree() && !held.failing then Some(held.(lock := true)) else None
    case LockDenied => if held.IsFree() && !held.failing then Some(held) else None
    case Unlocked => if held.lock && !held.stream && !held.transaction then Some(held.(lock := false)) else None
    case Opened =>
      if !held.stream && !held.transaction && !held.failing then Some(held.(stream := true)) else None
    case Closed => if held.stream && !held.transaction then Some(held.(stream := false)) else None
    case Queried => if !held.transaction && !held.failing then Some(held) else None
    case Began => if !held.transaction && !held.failing then Some(held.(transaction := true)) else None
    case Used => if held.transaction && !held.failing then Some(held) else None
    case Ended => if held.transaction then Some(held.(transaction := false)) else None
    case Refused => if !held.transaction && held.failing then Some(held) else None
    case Faulted => Some(held.(failing := true))
  }

  /** What is held after a trace; None if the trace broke the protocol. */
  function State(trace: Trace): Option<Held> {
    match trace
    case Nothing => Some(IDLE)
    case Then(earlier, latest) =>
      match State(earlier)
      case Some(held) => Advance(held, latest)
      case None => None
  }

  function Count(trace: Trace, event: Event): nat {
    match trace
    case Nothing => 0
    case Then(earlier, latest) => Count(earlier, event) + if latest == event then 1 else 0
  }

  /** In a legal trace what is held is exactly what was taken and not given back. */
  lemma {:induction false} LegalTraceIsBalanced(trace: Trace)
    requires State(trace).Some?
    ensures var held := State(trace).value;
      && Count(trace, Locked) == Count(trace, Unlocked) + (if held.lock then 1 else 0)
      && Count(trace, Opened) == Count(trace, Closed) + (if held.stream then 1 else 0)
      && Count(trace, Began) == Count(trace, Ended) + (if held.transaction then 1 else 0)
      && Count(trace, Started) == held.run
  {
    if trace.Then? {
      LegalTraceIsBalanced(trace.earlier);
    }
  }

  /** This event happened in the trace, right after those. */
  predicate Happened(trace: Trace, before: Trace, event: Event) {
    trace.Then? && (trace == Then(before, event) || Happened(trace.earlier, before, event))
  }

  /** In a legal trace preconditions are evaluated, streams opened and closed, and the lock
      tried and released, only without an active transaction; a transaction is asked for and
      ended only while one is active; and no stream is opened while another one is open. */
  lemma {:induction false} LegalTraceRespectsTransactions(trace: Trace, before: Trace, event: Event)
    requires State(trace).Some? && Happened(trace, before, event)
    ensures State(before).Some?
    ensures var held := State(before).value;
      && (event in {Used, Ended} ==> held.transaction)
      && (event !in {Used, Ended, Faulted} ==> !held.transaction)
      && (event == Opened ==> !held.stream)
      && (event == Locked ==> !held.lock)
  {
    if trace != Then(before, event) {
      LegalTraceRespectsTransactions(trace.earlier, before, event);
    }
  }

  /** Something has thrown since the last upgrade began. */
  predicate HasFaulted(trace: Trace) {
    trace.Then? && (trace.latest == Faulted || (trace.latest != Started && HasFaulted(trace.earlier)))
  }

  lemma {:induction false} FailingMeansFaulted(trace: Trace)
    requires State(trace).Some?
    ensures State(trace).value.failing <==> HasFaulted(trace)
  {
    if trace.Then? {
      FailingMeansFaulted(trace.earlier);
    }
  }

  /** Fail-stop: after the first thing that threw, an upgrade takes no lock, opens no stream,
      evaluates no precondition and starts or uses no transaction any more. It only ends its
      transaction, closes its stream and releases its lock, or fails in doing so. */
  lemma {:induction false} NothingStartsAfterFault(trace: Trace, before: Trace, event: Event)
    requires State(trace).Some? && Happened(trace, before, event) && HasFaulted(before)
    ensures event in {Ended, Refused, Closed, Unlocked, Faulted, Started}
  {
    LegalTraceRespectsTransactions(trace, before, event);
    FailingMeansFaulted(before);
    StepWasLegal(trace, before, event);
  }

  lemma {:induction false} StepWasLegal(trace: Trace, before: Trace, event: Event)
    requires State(trace).Some? && Happened(trace, before, event)
    ensures State(before).Some? && Advance(State(before).value, event).Some?
  {
    if trace != Then(before, event) {
      StepWasLegal(trace.earlier, before, event);
    }
  }
}
