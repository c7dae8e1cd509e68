/** What a teardown does to a self-healing service: it lets through no restart but one already past its check. */
module LifecycleAborts {
  import opened Lifecycle
  import opened LifecycleFlow
  import opened LifecycleSafety

  /** How many instances the entry has, and the one that can no longer be held back. */
  function Coming(e: Entry): nat {
    |e.instances| + B(Through(e.instances))
  }

  lemma AdvanceHoldsBack(e: Entry, k: nat, ctxDone: bool, c: Choice)
    requires Shaped(e) && CanAdvance(e, k) && e.policy.factory && !e.removed && Cut(e)
    ensures Cut(Advance(e, k, ctxDone, c)) && Coming(Advance(e, k, ctxDone, c)) <= Coming(e)
  {
    hide NextInstance, OneActs, PointsFit, Fits, Latest, InstancesByInstance, Through, Armed, Follows;
    var x, y := e.instances[k], NextInstance(e, e.instances[k], ctxDone, c);
    PointOf(e, k);
    AdvanceCut(e, k, ctxDone, c);
    InstanceFollows(e, x, ctxDone, c);
    NextChecks(e, x, ctxDone, c);
    LastChecks(e, k, y, ctxDone);
  }

  /** Once the teardown context is cancelled, the instances there are and the restart that is through
      already bound the instances to come, until somebody starts the entry. */
  lemma StepHoldsBack(e: Entry, ctxDone: bool, a: Action)
    requires Shaped(e) && Can(e, a) && e.policy.factory && !Do(e, ctxDone, a).removed && Cut(e)
    requires !(a.Working? && IsStart(e.jobs[a.t].stage))
    ensures Cut(Do(e, ctxDone, a)) && Coming(Do(e, ctxDone, a)) <= Coming(e)
  {
    hide Shaped, Work, Advance, CanReserve, Through;
    match a
    case Reserving(t, op) =>
    case Working(t, c) => RemoveRemoves(e, t, c); WorkTethered(e, t, c);
    case Releasing(t) =>
    case Advancing(k, c) => AdvanceRemoved(e, k, ctxDone, c); AdvanceHoldsBack(e, k, ctxDone, c);
  }

  lemma RemoveRemoves(e: Entry, t: nat, c: Choice)
    requires t in e.jobs
    ensures e.jobs[t].stage.Remove? ==> Work(e, t, c).removed
  {
    hide NextJob;
  }

  lemma AdvanceRemoved(e: Entry, k: nat, ctxDone: bool, c: Choice)
    requires k < |e.instances|
    ensures Advance(e, k, ctxDone, c).removed == e.removed
  {
    hide NextInstance;
  }
}
