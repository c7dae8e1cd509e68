/** A self-healing service is left dead by itself only when its retries are used up. */
module LifecycleLimits {
  import opened Services
  import opened Registry
  import opened Lifecycle
  import opened LifecycleFlow
  import opened LifecycleSafety
  import opened LifecycleSound
  import opened LifecycleVerdicts

  /** The goroutine has found the retries used up. */
  predicate Quits(x: Instance) {
    x.at.QuitRemoving? || x.at.QuitTeardown? || x.at.QuitStopped? || x.at.QuitCrashed? || x.gaveUp
  }

  predicate Exhausted(e: Entry) {
    e.policy.maxRetries > 0 && e.retryCount >= e.policy.maxRetries
  }

  predicate LastQuits(instances: seq<Instance>) {
    |instances| > 0 && Quits(instances[|instances| - 1])
  }

  /** A newest instance that quits does so at the limit, until an operation writes the status. */
  predicate AtLimit(e: Entry) {
    LastQuits(e.instances) && !e.overruled && !e.removed ==> Exhausted(e)
  }

  /** A replacement that has stopped what it found. */
  predicate Superseding(j: Job) {
    j.op.ReplaceOp? && (j.stage.Account? || (j.stage.Drain? && !j.failed) || j.stage.Wipe? || j.stage.Rewind?)
  }

  /** It has written the status, so it may forget the retries. */
  ghost predicate Superseded(e: Entry) {
    !e.policy.kind.RunOnce? ==> forall t :: t in e.jobs && Superseding(e.jobs[t]) ==> e.overruled
  }

  ghost predicate Limits(e: Entry) {
    AtLimit(e) && Superseded(e)
  }

  lemma DecisionQuits(e: Entry, x: Instance, ctxDone: bool)
    requires IsDecision(x.at) && (x.gaveUp ==> x.at.QuitCrashed?)
    ensures Quits(NextDecision(e, x, ctxDone)) ==> (Quits(x) || Exhausted(e)) && !x.at.SeeStable? && !x.at.Retry?
  {
  }

  lemma ExitQuitsNone(e: Entry, x: Instance, ctxDone: bool, c: Choice)
    requires IsExit(x.at) && !x.gaveUp
    ensures !Quits(NextExit(e, x, ctxDone, c))
  {
  }

  lemma RestartQuitsNone(e: Entry, x: Instance, ctxDone: bool, c: Choice)
    requires IsRestart(x.at) && !x.gaveUp
    ensures !Quits(NextRestart(e, x, ctxDone, c))
  {
  }

  lemma TailQuits(e: Entry, x: Instance)
    requires !IsExit(x.at) && !IsDecision(x.at) && !IsRestart(x.at)
    ensures Quits(NextTail(e, x)) ==> Quits(x)
  {
  }

  lemma NextQuits(e: Entry, x: Instance, ctxDone: bool, c: Choice)
    requires !x.at.Pending? && Judged(e.policy.factory, x)
    ensures Quits(NextInstance(e, x, ctxDone, c)) ==> (Quits(x) || Exhausted(e)) && !x.at.SeeStable? && !x.at.Retry?
  {
    hide Quits, Exhausted, NextExit, NextDecision, NextRestart, NextTail;
    if IsExit(x.at) {
      ExitQuitsNone(e, x, ctxDone, c);
    } else if IsDecision(x.at) {
      DecisionQuits(e, x, ctxDone);
    } else if IsRestart(x.at) {
      RestartQuitsNone(e, x, ctxDone, c);
    } else {
      TailQuits(e, x);
    }
  }

  /** Whose retries may change is still looking. */
  lemma CountsBeforeQuitting(e: Entry, k: nat)
    requires OneActs(e.policy.factory, e.instances) && k < |e.instances| && LastQuits(e.instances)
    requires Judged(e.policy.factory, e.instances[k])
    ensures !e.instances[k].at.SeeStable? && !e.instances[k].at.Retry?
  {
  }

  lemma LastMoves(e: Entry, k: nat, y: Instance)
    requires OneActs(e.policy.factory, e.instances) && PointsFit(e.policy, e.instances) && CanAdvance(e, k)
    requires Follows(e, e.instances[k], y) && Trials(e)
    ensures LastQuits(InstancesByInstance(e.instances, k, y, e.instances[k].at)) ==>
              !e.instances[k].at.Install? && !e.instances[k].at.Respawn? &&
              (if k == |e.instances| - 1 then Quits(y) else LastQuits(e.instances))
  {
    hide PointFits;
    if e.instances[k].at.Respawn? {
      assert Judged(e.policy.factory, e.instances[|e.instances| - 1]);
    }
  }

  lemma AdvanceLimits(e: Entry, k: nat, ctxDone: bool, c: Choice)
    requires Shaped(e) && Trials(e) && Limits(e) && CanAdvance(e, k)
    ensures Limits(Advance(e, k, ctxDone, c))
  {
    hide NextInstance, InstancesByInstance, StatusByInstance, OneActs, PointsFit, Fits, Tethered, Latest, Follows,
         Quits, Superseding, HeirsLater, PendingUnreported, PointFits, Judged, LastQuits;
    var x, y := e.instances[k], NextInstance(e, e.instances[k], ctxDone, c);
    PointOf(e, k);
    InstanceFollows(e, x, ctxDone, c);
    NextQuits(e, x, ctxDone, c);
    LastMoves(e, k, y);
    if LastQuits(e.instances) { CountsBeforeQuitting(e, k); }
    AdvanceSuperseded(e, k, ctxDone, c);
    AdvanceAtLimit(e, k, ctxDone, c);
  }

  lemma AdvanceAtLimit(e: Entry, k: nat, ctxDone: bool, c: Choice)
    requires AtLimit(e) && CanAdvance(e, k)
    requires var y := NextInstance(e, e.instances[k], ctxDone, c);
      && (Quits(y) ==> Quits(e.instances[k]) || Exhausted(e))
      && (LastQuits(InstancesByInstance(e.instances, k, y, e.instances[k].at)) ==>
            !e.instances[k].at.Install? && !e.instances[k].at.Respawn? &&
            (if k == |e.instances| - 1 then Quits(y) else LastQuits(e.instances)))
    requires LastQuits(e.instances) || Quits(NextInstance(e, e.instances[k], ctxDone, c)) ==>
               !e.instances[k].at.SeeStable? && !e.instances[k].at.Retry?
    ensures AtLimit(Advance(e, k, ctxDone, c))
  {
    hide NextInstance, InstancesByInstance, StatusByInstance, Quits;
  }

  lemma SupersedingIsClosed(e: Entry, t: nat)
    requires Shaped(e) && t in e.jobs && Superseding(e.jobs[t])
    ensures NoneOrClosed(e.instances)
  {
    hide OneActs, PointsFit, StartFits, Tethered, Latest;
    assert Fits(e, e.jobs[t]);
  }

  lemma ClosedRespawnsNone(e: Entry, k: nat)
    requires OneActs(e.policy.factory, e.instances) && NoneOrClosed(e.instances) && k < |e.instances|
    ensures !e.instances[k].at.Respawn?
  {
  }

  lemma AdvanceSuperseded(e: Entry, k: nat, ctxDone: bool, c: Choice)
    requires Shaped(e) && Superseded(e) && CanAdvance(e, k)
    ensures Superseded(Advance(e, k, ctxDone, c))
  {
    hide NextInstance, InstancesByInstance, StatusByInstance, OneActs, PointsFit, Fits, Tethered, Latest, Superseding,
         NoneOrClosed;
    forall t | t in e.jobs && Superseding(e.jobs[t]) ensures !e.instances[k].at.Respawn? {
      SupersedingIsClosed(e, t);
      ClosedRespawnsNone(e, k);
    }
  }

  lemma NextSupersedes(e: Entry, j: Job, c: Choice)
    requires StageFits(j.op, j.stage) && !IsStart(j.stage) && !j.stage.Return? && !j.stage.Hold?
    requires Stops(j) ==> StopFlags(e.removed, j)
    requires e.status != Succeeded
    ensures Superseding(NextStop(e, j, c)) ==> Superseding(j) || j.stage.Commit?
  {
  }

  lemma StartSupersedesNone(e: Entry, j: Job, c: Choice)
    requires IsStart(j.stage)
    ensures !Superseding(NextStart(e, j, c))
  {
    hide NextStart;
    StartGoesOn(e, j, c);
  }

  lemma SupersedingHolds(j: Job)
    requires Superseding(j)
    ensures Holds(j.op)
  {
  }

  lemma WorkSuperseded(e: Entry, t: nat, c: Choice)
    requires Reserved(e) && Shaped(e) && Sound(e) && Superseded(e) && CanWork(e, t, c)
    ensures Superseded(Work(e, t, c))
  {
    hide NextStart, NextStop, StatusByJob, InstancesByJob, OneActs, PointsFit, StopFlags, StopSees, StartFits,
         Tethered, Latest, StageFits, Superseding, LatchReset, Counts, Pointed, Linked, Tallied, Covered, Staged,
         Reserved;
    var f, j := Work(e, t, c), e.jobs[t];
    assert Fits(e, j);
    if !e.policy.kind.RunOnce? {
      forall s | s in f.jobs && Superseding(f.jobs[s]) ensures f.overruled {
        if s == t {
          if IsStart(j.stage) { StartSupersedesNone(e, j, c); } else { NextSupersedes(e, j, c); LaunchIsStart(j); }
        } else {
          SupersedingHolds(e.jobs[s]);
          OtherJobs(e, t, s);
          LaunchHolds(j);
        }
      }
    }
  }

  lemma LaunchIsStart(j: Job)
    ensures j.stage.Launch? ==> IsStart(j.stage)
  {
  }

  lemma LaunchHolds(j: Job)
    requires StageFits(j.op, j.stage)
    ensures j.stage.Launch? ==> Holds(j.op)
  {
  }

  lemma WorkAtLimit(e: Entry, t: nat, c: Choice)
    requires Shaped(e) && Sound(e) && Trials(e) && Limits(e) && CanWork(e, t, c)
    ensures AtLimit(Work(e, t, c))
  {
    hide NextJob, StatusByJob, InstancesByJob, OneActs, PointsFit, Tethered, Latest, LatchReset, Counts, WritesStatus,
         Pointed, Tallied, Covered, Moored, Staged, Shaped, LastQuits, StageFits;
    StageAndKind(e, t);
    if e.jobs[t].stage.Launch? { LaunchesLast(e, t); }
    JobQuits(e, e.jobs[t]);
    if e.jobs[t].stage.Wipe? { WipeSupersedes(e, t); }
  }

  lemma StageAndKind(e: Entry, t: nat)
    requires Sound(e) && t in e.jobs
    ensures StageFits(e.jobs[t].op, e.jobs[t].stage)
    ensures LastQuits(e.instances) ==> !e.policy.kind.RunOnce?
  {
    hide Tallied, Covered, Moored, StageFits, PointFits, Quits, Linked;
  }

  lemma LaunchesLast(e: Entry, t: nat)
    requires Shaped(e) && t in e.jobs && e.jobs[t].stage.Launch?
    ensures e.jobs[t].channel == Some(|e.instances| - 1) && LastPending(e.instances)
  {
    hide OneActs, PointsFit, Tethered, Latest, StopFlags, StopSees;
    assert Fits(e, e.jobs[t]);
  }

  lemma WipeSupersedes(e: Entry, t: nat)
    requires t in e.jobs && e.jobs[t].stage.Wipe? && StageFits(e.jobs[t].op, e.jobs[t].stage) && Superseded(e)
    ensures !e.policy.kind.RunOnce? ==> e.overruled
  {
    assert Superseding(e.jobs[t]);
  }

  lemma JobQuits(e: Entry, j: Job)
    requires Trials(e) && (j.stage.Launch? ==> j.channel == Some(|e.instances| - 1) && LastPending(e.instances))
    ensures LastQuits(InstancesByJob(e.instances, j)) ==> LastQuits(e.instances) && !j.stage.Launch?
  {
    if j.stage.Launch? { assert Judged(e.policy.factory, e.instances[|e.instances| - 1]); }
  }

  /** Every step of an entry that no replacement was late on keeps to the limit. */
  lemma StepLimits(e: Entry, ctxDone: bool, a: Action)
    requires Reserved(e) && Shaped(e) && Sound(e) && Trials(e) && Limits(e) && Can(e, a)
    ensures Limits(Do(e, ctxDone, a))
  {
    hide Reserved, Shaped, Sound, Trials, Work, Advance, AtRest, CanReserve, CanRelease, CanWork, CanAdvance,
         LastQuits, Superseding;
    match a
    case Reserving(t, op) => ReserveLimits(e, t, op);
    case Working(t, c) => hide Limits; WorkOnLimits(e, t, c);
    case Releasing(t) =>
    case Advancing(k, c) => hide Limits; AdvanceLimits(e, k, ctxDone, c);
  }

  lemma WorkOnLimits(e: Entry, t: nat, c: Choice)
    requires Reserved(e) && Shaped(e) && Sound(e) && Trials(e) && Limits(e) && CanWork(e, t, c)
    ensures Limits(Work(e, t, c))
  {
    hide Reserved, Shaped, Sound, Trials, Work, CanWork, AtLimit, Superseded;
    WorkAtLimit(e, t, c);
    WorkSuperseded(e, t, c);
  }

  lemma ReserveLimits(e: Entry, t: nat, op: Op)
    requires Limits(e) && t !in e.jobs
    ensures Limits(Reserve(e, t, op))
  {
    hide AtRest, LastQuits;
  }
}
