/** How operations end: what a stop that reports success guarantees. */
module LifecycleEnds {
  import opened Services
  import opened Registry
  import opened Lifecycle
  import opened LifecycleFlow
  import opened LifecycleSafety

  /** While nobody shuts the orchestrator down, every job belongs to an operation that holds the entry. */
  ghost predicate AllHold(e: Entry) {
    forall t :: t in e.jobs ==> Holds(e.jobs[t].op)
  }

  predicate Ended(status: Status) {
    status == Stopped || status == Succeeded
  }

  /** The stop went through: it was not late, its sequence completed without error and its wait succeeded. */
  predicate WentWell(j: Job) {
    && Awaits(j.op) && j.completed && !j.failed && !j.late && !(j.op.TearDownOp? && j.op.remove)
    && (j.stage.Drain? || j.stage.Wipe? || j.stage.Rewind? || (j.stage.Return? && j.op.TearDownOp?))
  }

  /** A StopService or Unregister that is through. Without a factory it need not have gone well. */
  predicate TornDown(factory: bool, j: Job) {
    j.op.TearDownOp? && j.stage.Return? && (!factory || (j.completed && !j.failed && !j.late))
  }

  predicate HasDrained(factory: bool, j: Job) {
    (WentWell(j) && !j.stage.Drain?) || TornDown(factory, j)
  }

  /** After the drain of a stop that went well no owner is left, whatever else stops the entry meanwhile. */
  ghost predicate Drained(e: Entry) {
    && (forall t :: t in e.jobs && HasDrained(e.policy.factory, e.jobs[t]) ==> e.owners == {})
    && (forall t :: t in e.jobs && (e.jobs[t].stage.Wipe? || e.jobs[t].stage.Rewind?) ==> WentWell(e.jobs[t]))
  }

  predicate EndsWell(status: Status, j: Job) {
    (j.stage.Account? && !j.late) || WentWell(j) ==> Ended(status)
  }

  /** And, as long as no whole Stop writes it as well, the status says that the entry has ended. */
  ghost predicate Ends(e: Entry) {
    AllHold(e) && forall t :: t in e.jobs && Stops(e.jobs[t]) ==> EndsWell(e.status, e.jobs[t])
  }

  /** With its last instance closed, the goroutines of an entry write no status and take no owner. */
  lemma ClosedIsStill(e: Entry, k: nat, ctxDone: bool, c: Choice)
    requires CanAdvance(e, k) && PointsFit(e.policy, e.instances) && OneActs(e.policy.factory, e.instances)
    requires NoneOrClosed(e.instances)
    ensures var f := Advance(e, k, ctxDone, c);
      f.status == e.status && f.owners <= e.owners && Settled(e.instances[k].at)
  {
    hide NextInstance, InstancesByInstance;
  }

  /** A stop that is past its wait knows that the last instance is closed. */
  lemma PastWait(e: Entry, j: Job)
    requires Fits(e, j) && Stops(j) && !j.late
    ensures j.stage.Account? || WentWell(j) ==> NoneOrClosed(e.instances)
    ensures TornDown(e.policy.factory, j) && e.policy.factory ==> NoneOrClosed(e.instances)
  {
  }

  lemma WellStops(j: Job)
    requires WentWell(j)
    ensures Stops(j) && !j.late
  {
  }

  lemma TornDownStops(factory: bool, j: Job)
    requires TornDown(factory, j)
    ensures Stops(j) && (factory ==> !j.late)
  {
  }

  /** Only a restart takes an owner. */
  lemma PlainTakesNoOwner(e: Entry, k: nat, ctxDone: bool, c: Choice)
    requires CanAdvance(e, k) && PointsFit(e.policy, e.instances) && !e.policy.factory
    ensures Advance(e, k, ctxDone, c).owners <= e.owners
  {
    hide NextInstance, InstancesByInstance;
  }

  lemma AdvanceDrained(e: Entry, k: nat, ctxDone: bool, c: Choice)
    requires Shaped(e) && Drained(e) && CanAdvance(e, k)
    ensures Drained(Advance(e, k, ctxDone, c))
  {
    hide Advance, PointsFit, OneActs, Fits, WentWell, TornDown, Stops;
    AdvanceCut(e, k, ctxDone, c);
    forall t | t in e.jobs && HasDrained(e.policy.factory, e.jobs[t])
      ensures Advance(e, k, ctxDone, c).owners == {}
    {
      if WentWell(e.jobs[t]) { WellStops(e.jobs[t]); } else { TornDownStops(e.policy.factory, e.jobs[t]); }
      if e.policy.factory {
        PastWait(e, e.jobs[t]);
        ClosedIsStill(e, k, ctxDone, c);
      } else {
        PlainTakesNoOwner(e, k, ctxDone, c);
      }
    }
  }

  lemma AdvanceEnds(e: Entry, k: nat, ctxDone: bool, c: Choice)
    requires Shaped(e) && Ends(e) && CanAdvance(e, k)
    ensures Ends(Advance(e, k, ctxDone, c))
  {
    hide Advance, PointsFit, OneActs, Fits, WentWell;
    var f := Advance(e, k, ctxDone, c);
    AdvanceCut(e, k, ctxDone, c);
    forall t | t in e.jobs && Stops(e.jobs[t]) ensures EndsWell(f.status, e.jobs[t]) {
      if !e.jobs[t].late { PastWait(e, e.jobs[t]); }
      if WentWell(e.jobs[t]) { WellStops(e.jobs[t]); }
      if NoneOrClosed(e.instances) { ClosedIsStill(e, k, ctxDone, c); }
    }
  }

  lemma OnlyJob(e: Entry, t: nat, s: nat)
    requires Reserved(e) && AllHold(e) && t in e.jobs && s in e.jobs
    ensures s == t
  {
  }

  lemma NextEndsWell(e: Entry, j: Job, c: Choice)
    requires Stops(j) && !j.stage.Return? && StageFits(j.op, j.stage)
    requires StopFlags(e.removed, j) && EndsWell(e.status, j)
    ensures !IsStart(NextStop(e, j, c).stage) ==> EndsWell(StatusByJob(e.status, j, c), NextStop(e, j, c))
  {
  }

  lemma NextDrained(e: Entry, j: Job, c: Choice)
    requires !j.stage.Return? && !j.stage.Hold? && Fits(e, j)
    requires j.stage.Wipe? || j.stage.Rewind? ==> WentWell(j)
    requires HasDrained(e.policy.factory, j) ==> e.owners == {}
    ensures var y := NextJob(e, j, c);
      && (y.stage.Wipe? || y.stage.Rewind? ==> WentWell(y))
      && (HasDrained(e.policy.factory, y) ==> OwnersByJob(e, j) == {})
  {
    hide StartFits, StopSees;
    if IsStart(j.stage) { StartStageKeepsFit(e, j, c); }
  }

  /** Whoever else is at work takes no owner while a stop that went well stands. */
  lemma OtherTakesNoOwner(e: Entry, s: nat, t: nat)
    requires Reserved(e) && Shaped(e) && s in e.jobs && t in e.jobs && s != t && Holds(e.jobs[s].op)
    ensures OwnersByJob(e, e.jobs[t]) == e.owners
  {
    hide StartFits, StopFlags, StopSees, PointsFit, OneActs, Tethered;
    OtherJobs(e, t, s);
    assert Fits(e, e.jobs[t]);
  }

  lemma WorkDrained(e: Entry, t: nat, c: Choice)
    requires Reserved(e) && Shaped(e) && Drained(e) && CanWork(e, t, c)
    ensures Drained(Work(e, t, c))
  {
    hide NextJob, PointsFit, OneActs, Fits, WentWell, TornDown, InstancesByJob, StatusByJob, OwnersByJob, Reserved,
         Tethered, Latest, Stops;
    var f, j := Work(e, t, c), e.jobs[t];
    assert Fits(e, j);
    NextDrained(e, j, c);
    forall s | s in f.jobs && s != t && HasDrained(f.policy.factory, f.jobs[s]) ensures f.owners == {} {
      HasDrainedHolds(e.policy.factory, e.jobs[s]);
      OtherTakesNoOwner(e, s, t);
    }
  }

  lemma HasDrainedHolds(factory: bool, j: Job)
    requires HasDrained(factory, j)
    ensures Holds(j.op)
  {
  }

  lemma WorkEnds(e: Entry, t: nat, c: Choice)
    requires Reserved(e) && Shaped(e) && Ends(e) && CanWork(e, t, c)
    ensures Ends(Work(e, t, c))
  {
    hide NextStart, NextStop, PointsFit, OneActs, WentWell, EndsWell, StopFlags, StopSees, StartFits, StageFits,
         InstancesByJob, StatusByJob, Reserved, AllHold, Tethered, Cut;
    var f, j := Work(e, t, c), e.jobs[t];
    assert Fits(e, j);
    SameOp(e, j, c);
    forall s | s in f.jobs ensures s == t { OnlyJob(e, t, s); }
    assert AllHold(f) by { StillAllHold(e, t, c); }
    if Awaits(j.op) {
      if IsStart(j.stage) {
        StartStageKeepsFit(e, j, c);
      } else {
        NextEndsWell(e, j, c);
      }
    }
  }

  lemma StillAllHold(e: Entry, t: nat, c: Choice)
    requires AllHold(e) && t in e.jobs
    ensures AllHold(Work(e, t, c))
  {
    hide NextJob;
    SameOp(e, e.jobs[t], c);
  }

  /** Every step keeps what a stop that went well has drained. */
  lemma StepDrained(e: Entry, ctxDone: bool, a: Action)
    requires Reserved(e) && Shaped(e) && Drained(e) && Can(e, a)
    ensures Drained(Do(e, ctxDone, a))
  {
    hide Reserved, Shaped, Work, Advance, CanReserve, CanWork, CanAdvance, WentWell, TornDown;
    match a
    case Reserving(t, op) => NewJobIsNotDone(e, op);
    case Working(t, c) => WorkDrained(e, t, c);
    case Releasing(t) =>
    case Advancing(k, c) => AdvanceDrained(e, k, ctxDone, c);
  }

  lemma NewJobIsNotDone(e: Entry, op: Op)
    ensures !WentWell(Job(op, FirstStage(e.policy, op), 0, None, Registered, false, false, false))
    ensures !TornDown(e.policy.factory, Job(op, FirstStage(e.policy, op), 0, None, Registered, false, false, false))
    ensures !FirstStage(e.policy, op).Wipe? && !FirstStage(e.policy, op).Rewind? && !FirstStage(e.policy, op).Account?
  {
  }

  /** Short of a shutdown, every step keeps the status that a stop that went well has left. */
  lemma StepEnds(e: Entry, ctxDone: bool, a: Action)
    requires Reserved(e) && Shaped(e) && Ends(e) && Can(e, a) && (a.Reserving? ==> Holds(a.op))
    ensures Ends(Do(e, ctxDone, a))
  {
    hide Reserved, Shaped, Work, Advance, CanReserve, CanWork, CanAdvance, WentWell;
    match a
    case Reserving(t, op) => NewJobIsNotDone(e, op);
    case Working(t, c) => WorkEnds(e, t, c);
    case Releasing(t) =>
    case Advancing(k, c) => AdvanceEnds(e, k, ctxDone, c);
  }

  /** A StopService or Unregister reported success and was not late: no owner is left, the last instance is closed
      and no goroutine of an earlier one will act again; without a factory all are closed. */
  lemma StoppedMeansGone(e: Entry, t: nat)
    requires Shaped(e) && Drained(e) && CanRelease(e, t)
    requires e.jobs[t].op.TearDownOp? && e.jobs[t].op.target && !e.jobs[t].failed && !e.jobs[t].late
    ensures e.owners == {} && NoneOrClosed(e.instances) && (!e.jobs[t].op.remove ==> WentWell(e.jobs[t]))
    ensures forall k :: 0 <= k < |e.instances| ==>
              Settled(e.instances[k].at) && (!e.policy.factory ==> e.instances[k].at == Closed)
  {
    assert Fits(e, e.jobs[t]);
    assert HasDrained(e.policy.factory, e.jobs[t]);
  }

  lemma EndsHold(e: Entry)
    requires Ends(e)
    ensures AllHold(e)
  {
  }
}
