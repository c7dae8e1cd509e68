/** A stop that went well has been counted, by the operation or by the exit that came before it. */
module LifecycleAccounts {
  import opened Services
  import opened Lifecycle
  import opened LifecycleFlow
  import opened LifecycleSafety
  import opened LifecycleSound

  /** A stop that found the entry active and completed, past its account. The exit of a self-healing service is
      not awaited by a group stop, so it may have been restarted since. */
  predicate Booked(factory: bool, j: Job) {
    && j.completed && Active(j.sampled) && !j.late && (factory ==> !j.failed)
    && (|| (j.op.TearDownOp? && (j.stage.Remove? || (!j.op.remove && (j.stage.Drain? || j.stage.Return?))))
        || (j.op.GroupStopOp? && j.stage.Return? && !factory))
  }

  /** Whatever has been booked holds the latch. */
  ghost predicate Accounted(e: Entry) {
    !e.policy.kind.RunOnce? ==> forall t :: t in e.jobs && Booked(e.policy.factory, e.jobs[t]) ==> e.stopsCounted
  }

  lemma NextBooked(e: Entry, j: Job, c: Choice)
    requires StageFits(j.op, j.stage) && !IsStart(j.stage) && !j.stage.Return? && !j.stage.Hold?
    requires e.status != Succeeded
    requires Stops(j) ==> StopFlags(e.removed, j)
    ensures Booked(e.policy.factory, NextStop(e, j, c)) ==>
              !LatchReset(e, j) && (Booked(e.policy.factory, j) || (j.stage.Account? && Active(j.sampled)))
  {
  }

  lemma StartBooksNothing(e: Entry, j: Job, c: Choice)
    requires IsStart(j.stage) && StageFits(j.op, j.stage)
    ensures !Booked(e.policy.factory, NextStart(e, j, c))
  {
    hide NextStart;
    StartGoesOn(e, j, c);
  }

  lemma OnlyHoldersReset(e: Entry, j: Job)
    requires StageFits(j.op, j.stage) && LatchReset(e, j)
    ensures Holds(j.op)
  {
  }

  lemma BookedHolds(factory: bool, j: Job)
    requires Booked(factory, j)
    ensures Holds(j.op)
  {
  }

  lemma WorkAccounted(e: Entry, t: nat, c: Choice)
    requires Reserved(e) && Shaped(e) && Sound(e) && Accounted(e) && CanWork(e, t, c)
    ensures Accounted(Work(e, t, c))
  {
    hide NextStart, NextStop, StatusByJob, InstancesByJob, OneActs, PointsFit, StopFlags, StopSees, StartFits,
         Tethered, Latest, StageFits, Booked, LatchReset, Pointed, Linked, Tallied, Covered, Staged, Reserved;
    var f, j := Work(e, t, c), e.jobs[t];
    assert Fits(e, j);
    if !e.policy.kind.RunOnce? {
      forall s | s in f.jobs && Booked(f.policy.factory, f.jobs[s]) ensures f.stopsCounted {
        if s == t {
          NextOfBooked(e, j, c);
        } else {
          BookedHolds(e.policy.factory, e.jobs[s]);
          OtherJobs(e, t, s);
          if LatchReset(e, j) { OnlyHoldersReset(e, j); }
        }
      }
    }
  }

  lemma NextOfBooked(e: Entry, j: Job, c: Choice)
    requires StageFits(j.op, j.stage) && !j.stage.Return? && !j.stage.Hold? && e.status != Succeeded
    requires Stops(j) ==> StopFlags(e.removed, j)
    requires Booked(e.policy.factory, NextJob(e, j, c))
    ensures !LatchReset(e, j) && (Booked(e.policy.factory, j) || (j.stage.Account? && Active(j.sampled)))
  {
    hide NextStart, NextStop, StageFits, Booked, LatchReset, StopFlags, Stops;
    if IsStart(j.stage) { StartBooksNothing(e, j, c); } else { NextBooked(e, j, c); }
  }

  /** A booked stop of a self-healing service has seen its last instance go. */
  lemma BookedIsClosed(e: Entry, t: nat)
    requires Shaped(e) && t in e.jobs && Booked(e.policy.factory, e.jobs[t]) && e.policy.factory
    ensures NoneOrClosed(e.instances)
  {
    hide OneActs, PointsFit, StartFits, Tethered, Latest, StopFlags;
    assert Fits(e, e.jobs[t]);
  }

  lemma ClosedRearmsNone(e: Entry, k: nat)
    requires OneActs(e.policy.factory, e.instances) && NoneOrClosed(e.instances) && k < |e.instances|
    ensures !e.instances[k].at.Rearm?
  {
  }

  lemma AdvanceAccounted(e: Entry, k: nat, ctxDone: bool, c: Choice)
    requires Shaped(e) && Accounted(e) && CanAdvance(e, k)
    ensures Accounted(Advance(e, k, ctxDone, c))
  {
    hide NextInstance, InstancesByInstance, StatusByInstance, OneActs, PointsFit, Fits, Tethered, Latest, Booked,
         NoneOrClosed;
    PointOf(e, k);
    forall t | t in e.jobs && Booked(e.policy.factory, e.jobs[t]) && e.policy.factory
      ensures !e.instances[k].at.Rearm?
    {
      BookedIsClosed(e, t);
      ClosedRearmsNone(e, k);
    }
  }

  lemma ReserveAccounted(e: Entry, t: nat, op: Op)
    requires Accounted(e) && t !in e.jobs
    ensures Accounted(Reserve(e, t, op))
  {
    hide AtRest;
  }

  /** Every step leaves a booked stop counted. */
  lemma StepAccounted(e: Entry, ctxDone: bool, a: Action)
    requires Reserved(e) && Shaped(e) && Sound(e) && Accounted(e) && Can(e, a)
    ensures Accounted(Do(e, ctxDone, a))
  {
    hide Reserved, Shaped, Sound, Reserve, Work, Advance, CanReserve, CanRelease, CanWork, CanAdvance, Booked;
    match a
    case Reserving(t, op) => hide Accounted; ReserveAccounted(e, t, op);
    case Working(t, c) => hide Accounted; WorkAccounted(e, t, c);
    case Releasing(t) =>
    case Advancing(k, c) => hide Accounted; AdvanceAccounted(e, k, ctxDone, c);
  }
}
