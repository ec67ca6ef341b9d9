/** Evaluating a step's preconditions against the registered handlers. */
module Preconditions {
  import opened Wrappers
  import opened MarkStore
  import opened Migration

  /** The first handler that claims a precondition of this name. */
  function Claimer(handlers: seq<PreconditionHandler>, name: string): (claimer: Option<PreconditionHandler>)
    ensures claimer.Some? ==> claimer.value in handlers && claimer.value.Name() == name
    ensures claimer.None? ==> forall h :: h in handlers ==> h.Name() != name
  {
    if handlers == [] then None
    else if handlers[0].Name() == name then Some(handlers[0])
    else Claimer(handlers[1..], name)
  }

  /** Who claims a name is the first of that name, whoever comes after it. */
  lemma {:induction false} ClaimerIsFirst(handlers: seq<PreconditionHandler>, k: nat)
    requires k < |handlers| && forall j :: 0 <= j < k ==> handlers[j].Name() != handlers[k].Name()
    ensures Claimer(handlers, handlers[k].Name()) == Some(handlers[k])
  {
    if k > 0 {
      ClaimerIsFirst(handlers[1..], k - 1);
    }
  }

  /** The verdict on one precondition: its claimer's, and met if nobody claims it. */
  function Judge(handlers: seq<PreconditionHandler>, key: StepKey, p: Precondition, content: Content): Verdict {
    match Claimer(handlers, p.name)
    case Some(handler) => handler.IsMet(key, p, content)
    case None => Met
  }

  /** All preconditions, stopping at the first that is not met or raises. */
  function IsMet(handlers: seq<PreconditionHandler>, key: StepKey, ps: seq<Precondition>, content: Content): Verdict {
    if ps == [] then Met
    else match Judge(handlers, key, ps[0], content)
      case Met => IsMet(handlers, key, ps[1..], content)
      case NotMet => NotMet
      case Raises => Raises
  }

  ghost predicate NoneRaises(handlers: seq<PreconditionHandler>, key: StepKey, ps: seq<Precondition>, content: Content)
  {
    forall p :: p in ps ==> Judge(handlers, key, p, content) != Raises
  }

  /** Without raising handlers the evaluation is the conjunction of the single verdicts. */
  lemma {:induction false} IsMetIsConjunction(handlers: seq<PreconditionHandler>, key: StepKey,
                                              ps: seq<Precondition>, content: Content)
    requires NoneRaises(handlers, key, ps, content)
    ensures IsMet(handlers, key, ps, content) ==
            if forall p :: p in ps ==> Judge(handlers, key, p, content) == Met then Met else NotMet
  {
    if ps != [] {
      IsMetIsConjunction(handlers, key, ps[1..], content);
      assert ps == [ps[0]] + ps[1..];
    }
  }

  ghost predicate DistinctNames(handlers: seq<PreconditionHandler>) {
    forall i, j :: 0 <= i < j < |handlers| ==> handlers[i].Name() != handlers[j].Name()
  }

  lemma {:induction false} ClaimerIgnoresOrder(handlers: seq<PreconditionHandler>, others: seq<PreconditionHandler>,
                                               name: string)
    requires DistinctNames(handlers) && multiset(handlers) == multiset(others)
    ensures Claimer(handlers, name) == Claimer(others, name)
  {
    var a, b := Claimer(handlers, name), Claimer(others, name);
    if a.Some? {
      assert a.value in multiset(others);
    }
    if b.Some? {
      assert b.value in multiset(handlers);
    }
  }

  /** Handlers with distinct names may be registered in any order. */
  lemma {:induction false} HandlersIgnoreOrder(handlers: seq<PreconditionHandler>, others: seq<PreconditionHandler>,
                                               key: StepKey, ps: seq<Precondition>, content: Content)
    requires DistinctNames(handlers) && multiset(handlers) == multiset(others)
    ensures IsMet(handlers, key, ps, content) == IsMet(others, key, ps, content)
  {
    if ps != [] {
      ClaimerIgnoresOrder(handlers, others, ps[0].name);
      HandlersIgnoreOrder(handlers, others, key, ps[1..], content);
    }
  }

  // --------------------------------------------------------- raising handlers

  ghost predicate SomeJudged(handlers: seq<PreconditionHandler>, key: StepKey, ps: seq<Precondition>, content: Content,
                             verdict: Verdict)
  {
    exists p :: p in ps && Judge(handlers, key, p, content) == verdict
  }

  /** The evaluation gives a verdict that some precondition got; that one unless all others are met. */
  lemma {:induction false} IsMetIsSomeVerdict(handlers: seq<PreconditionHandler>, key: StepKey, ps: seq<Precondition>,
                                              content: Content)
    ensures var r := IsMet(handlers, key, ps, content);
      && (r == Met <==> forall p :: p in ps ==> Judge(handlers, key, p, content) == Met)
      && (r != Met ==> SomeJudged(handlers, key, ps, content, r))
  {
    if ps != [] {
      IsMetIsSomeVerdict(handlers, key, ps[1..], content);
      assert ps == [ps[0]] + ps[1..];
    }
  }

  lemma {:induction false} JudgedIgnoresOrder(handlers: seq<PreconditionHandler>, key: StepKey, ps: seq<Precondition>,
                                              qs: seq<Precondition>, content: Content, verdict: Verdict)
    requires multiset(ps) == multiset(qs)
    ensures SomeJudged(handlers, key, ps, content, verdict) <==> SomeJudged(handlers, key, qs, content, verdict)
  {
    assert forall p :: (p in ps <==> p in multiset(ps)) && (p in qs <==> p in multiset(qs));
  }

  /** Passing over preconditions that are met does not change the evaluation. */
  lemma {:induction false} IsMetAfter(handlers: seq<PreconditionHandler>, key: StepKey, ps: seq<Precondition>,
                                      content: Content, passed: nat)
    requires passed < |ps| && IsMet(handlers, key, ps, content) == IsMet(handlers, key, ps[passed..], content)
    ensures match Judge(handlers, key, ps[passed], content)
      case Met => IsMet(handlers, key, ps, content) == IsMet(handlers, key, ps[passed + 1..], content)
      case NotMet => IsMet(handlers, key, ps, content) == NotMet
      case Raises => IsMet(handlers, key, ps, content) == Raises
  {
    assert ps[passed..][1..] == ps[passed + 1..];
  }

  /** If the preconditions may be raised and not met, either can be made the result by listing it first. */
  lemma {:induction false} FirstDecides(handlers: seq<PreconditionHandler>, key: StepKey, ps: seq<Precondition>,
                                        content: Content, verdict: Verdict)
    returns (qs: seq<Precondition>)
    requires verdict != Met && SomeJudged(handlers, key, ps, content, verdict)
    ensures multiset(qs) == multiset(ps) && IsMet(handlers, key, qs, content) == verdict
  {
    var p :| p in ps && Judge(handlers, key, p, content) == verdict;
    var i :| 0 <= i < |ps| && ps[i] == p;
    qs := [p] + ps[..i] + ps[i + 1..];
    assert ps == ps[..i] + [p] + ps[i + 1..];
  }

  ghost predicate OrderIsIrrelevant(handlers: seq<PreconditionHandler>, key: StepKey, ps: seq<Precondition>,
                                    content: Content)
  {
    forall qs :: multiset(qs) == multiset(ps) ==> IsMet(handlers, key, qs, content) == IsMet(handlers, key, ps, content)
  }

  /** The order of the preconditions matters exactly if one of them raises and another one is
      not met: whichever comes first decides between failing and skipping the step. */
  lemma {:induction false} OrderMattersIff(handlers: seq<PreconditionHandler>, key: StepKey, ps: seq<Precondition>,
                                           content: Content)
    ensures OrderIsIrrelevant(handlers, key, ps, content) <==>
            !(SomeJudged(handlers, key, ps, content, Raises) && SomeJudged(handlers, key, ps, content, NotMet))
  {
    if SomeJudged(handlers, key, ps, content, Raises) && SomeJudged(handlers, key, ps, content, NotMet) {
      var raising := FirstDecides(handlers, key, ps, content, Raises);
      var unmet := FirstDecides(handlers, key, ps, content, NotMet);
      assert IsMet(handlers, key, raising, content) != IsMet(handlers, key, unmet, content);
    } else {
      forall qs | multiset(qs) == multiset(ps)
        ensures IsMet(handlers, key, qs, content) == IsMet(handlers, key, ps, content)
      {
        SameVerdict(handlers, key, ps, qs, content);
      }
    }
  }

  lemma {:induction false} SameVerdict(handlers: seq<PreconditionHandler>, key: StepKey, ps: seq<Precondition>,
                                       qs: seq<Precondition>, content: Content)
    requires multiset(ps) == multiset(qs)
    requires !(SomeJudged(handlers, key, ps, content, Raises) && SomeJudged(handlers, key, ps, content, NotMet))
    ensures IsMet(handlers, key, qs, content) == IsMet(handlers, key, ps, content)
  {
    IsMetIsSomeVerdict(handlers, key, ps, content);
    IsMetIsSomeVerdict(handlers, key, qs, content);
    forall verdict
      ensures SomeJudged(handlers, key, ps, content, verdict) <==> SomeJudged(handlers, key, qs, content, verdict)
    {
      JudgedIgnoresOrder(handlers, key, ps, qs, content, verdict);
    }
  }

  /** Handlers with distinct names, and preconditions, may be listed in any order, unless one
      precondition raises and another one is not met. */
  lemma {:induction false} IsMetIgnoresOrder(handlers: seq<PreconditionHandler>, others: seq<PreconditionHandler>,
                                             key: StepKey, ps: seq<Precondition>, qs: seq<Precondition>,
                                             content: Content)
    requires DistinctNames(handlers) && multiset(handlers) == multiset(others) && multiset(ps) == multiset(qs)
    requires !(SomeJudged(handlers, key, ps, content, Raises) && SomeJudged(handlers, key, ps, content, NotMet))
    ensures IsMet(handlers, key, ps, content) == IsMet(others, key, qs, content)
  {
    SameVerdict(handlers, key, ps, qs, content);
    HandlersIgnoreOrder(handlers, others, key, qs, content);
  }

  /** An input on which it matters: "DbTableNotFound" without its parameter, or with an empty one,
      beside one that asks for a table that exists. */
  lemma {:induction false} MissingParameterBesideUnmet(tableExists: (string, Content) -> bool, key: StepKey,
                                                       bare: Precondition, table: string, content: Content)
    requires bare.name == "DbTableNotFound" && (bare.parameters == [] || bare.parameters[0] == "")
    requires table != "" && tableExists(table, content)
    ensures var handlers, asking := [TableNotFound(tableExists)], Precondition("DbTableNotFound", [table]);
      && IsMet(handlers, key, [bare, asking], content) == Raises
      && IsMet(handlers, key, [asking, bare], content) == NotMet
      && !OrderIsIrrelevant(handlers, key, [bare, asking], content)
  {
    var handlers := [TableNotFound(tableExists)];
    var asking: Precondition := Precondition("DbTableNotFound", [table]);
    assert Judge(handlers, key, bare, content) == Raises;
    assert Judge(handlers, key, asking, content) == NotMet;
    assert multiset([bare, asking]) == multiset([asking, bare]);
  }
}
