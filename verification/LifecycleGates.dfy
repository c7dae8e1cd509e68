/** A runOnce gate that succeeded stays so through every stop, as long as nothing can still bless it under a stop. */
module LifecycleGates {
  import opened Services
  import opened Lifecycle
  import opened LifecycleFlow
  import opened LifecycleSafety

  /** The operation will not bring the gate to Succeeded any more. */
  predicate Fruitless(j: Job) {
    || !HoldsStarting(j.op) || j.stage.Return? || j.stage.Free?
    || (j.failed && (j.stage.Await? || j.stage.Read? || j.stage.Commit? || j.stage.Account? || j.stage.Drain? ||
                     j.stage.Ungate? || j.stage.Settle?))
  }

  predicate AllFruitless(e: Entry) {
    forall t :: t in e.jobs ==> Fruitless(e.jobs[t])
  }

  /** No other operation is on the entry at the moment one lets the gate succeed. */
  ghost predicate BlessAlone(e: Entry) {
    forall s, t :: s in e.jobs && t in e.jobs && e.jobs[s].stage.Bless? ==> s == t
  }

  /** A start between its first status and its last. */
  predicate Rising(stage: Stage) {
    stage.Own? || stage.Arm? || stage.Run? || stage.Count? || stage.Gate? || stage.Ungate? || stage.Settle? ||
        stage.Bless?
  }

  /** A stop has not missed that the gate succeeded, and a start has not brought it there before its time. */
  ghost predicate GateSeen(e: Entry) {
    && (e.status.Succeeded? ==> e.policy.kind.RunOnce?)
    && forall t :: t in e.jobs ==>
         && (e.jobs[t].stage.Mark? && e.status.Succeeded? ==> e.jobs[t].sampled.Succeeded?)
         && (e.jobs[t].stage.Commit? || Rising(e.jobs[t].stage) ==> !e.status.Succeeded?)
  }

  lemma StartSees(e: Entry, j: Job, c: Choice)
    requires IsStart(j.stage) && (Rising(j.stage) ==> !e.status.Succeeded?)
    ensures !NextStart(e, j, c).stage.Mark? && !NextStart(e, j, c).stage.Commit?
    ensures Rising(NextStart(e, j, c).stage) ==> !StatusByJob(e.status, j, c).Succeeded?
    ensures StatusByJob(e.status, j, c).Succeeded? && !e.status.Succeeded? ==> j.stage.Bless?
  {
  }

  lemma StopSeesGate(e: Entry, j: Job, c: Choice)
    requires !IsStart(j.stage) && !j.stage.Return? && !j.stage.Hold?
    requires j.stage.Mark? && e.status.Succeeded? ==> j.sampled.Succeeded?
    requires j.stage.Commit? ==> !e.status.Succeeded?
    ensures var y, status := NextStop(e, j, c), StatusByJob(e.status, j, c);
      && (y.stage.Mark? && status.Succeeded? ==> y.sampled.Succeeded?) && (y.stage.Commit? ==> !status.Succeeded?)
      && (status.Succeeded? <==> e.status.Succeeded? && !j.stage.Remove?) && !Rising(y.stage)
  {
  }

  lemma WorkSees(e: Entry, t: nat, c: Choice)
    requires Shaped(e) && GateSeen(e) && CanWork(e, t, c)
    requires e.jobs[t].stage.Bless? ==> forall s :: s in e.jobs ==> s == t
    ensures GateSeen(Work(e, t, c))
    ensures e.status.Succeeded? ==>
              Work(e, t, c).status.Succeeded? || IsStart(e.jobs[t].stage) || e.jobs[t].stage.Remove?
  {
    hide NextStart, NextStop, OneActs, PointsFit, StopFlags, StopSees, Latest, InstancesByJob, StatusByJob, Tethered,
         Rising;
    var j := e.jobs[t];
    assert Fits(e, j);
    if IsStart(j.stage) { StartSees(e, j, c); } else { StopSeesGate(e, j, c); }
  }

  /** Only a gate, which has no instances, is ever Succeeded. */
  lemma AdvanceSeesGate(e: Entry, k: nat, ctxDone: bool, c: Choice)
    requires Shaped(e) && GateSeen(e) && CanAdvance(e, k)
    ensures GateSeen(Advance(e, k, ctxDone, c)) && !e.status.Succeeded?
  {
    hide NextInstance, OneActs, Fits, Latest, InstancesByInstance, Tethered;
  }

  /** Whoever stops the entry leaves a satisfied gate alone: only a new start, or the removal, ends it. */
  lemma StepSees(e: Entry, ctxDone: bool, a: Action)
    requires Shaped(e) && BlessAlone(e) && GateSeen(e) && Can(e, a)
    ensures GateSeen(Do(e, ctxDone, a))
    ensures e.status.Succeeded? ==>
              || Do(e, ctxDone, a).status.Succeeded?
              || (a.Working? && (IsStart(e.jobs[a.t].stage) || e.jobs[a.t].stage.Remove?))
  {
    hide Work, Advance, Shaped, CanReserve, CanAdvance;
    match a
    case Working(t, c) => WorkSees(e, t, c);
    case Advancing(k, c) => AdvanceSeesGate(e, k, ctxDone, c);
    case _ =>
  }

  lemma NextFruitless(e: Entry, j: Job, c: Choice)
    requires Fruitless(j) && !j.stage.Return? && !j.stage.Hold?
    ensures Fruitless(NextJob(e, j, c))
  {
    SameOp(e, j, c);
    hide FirstStart, AfterSequence;
  }

  /** What cannot succeed now cannot succeed later, as long as nobody else starts the gate. */
  lemma StepFruitless(e: Entry, ctxDone: bool, a: Action)
    requires AllFruitless(e) && Can(e, a) && (a.Reserving? ==> !HoldsStarting(a.op))
    ensures AllFruitless(Do(e, ctxDone, a))
  {
    hide NextJob, NextInstance, CanReserve, Fruitless;
    match a
    case Working(t, c) => NextFruitless(e, e.jobs[t], c);
    case Reserving(t, op) => assert Fruitless(Reserve(e, t, op).jobs[t]) by { StopsAreFruitless(e, op); }
    case _ =>
  }

  lemma StopsAreFruitless(e: Entry, op: Op)
    requires !HoldsStarting(op)
    ensures forall j: Job :: j.op == op ==> Fruitless(j)
  {
  }

  lemma FruitlessIsAlone(e: Entry)
    requires AllFruitless(e) && Shaped(e)
    ensures BlessAlone(e)
  {
    hide StartFits, StopFlags, StopSees, PointsFit, OneActs, Tethered, Latest;
    forall t | t in e.jobs ensures !e.jobs[t].stage.Bless? { assert Fits(e, e.jobs[t]) && Fruitless(e.jobs[t]); }
  }
}
