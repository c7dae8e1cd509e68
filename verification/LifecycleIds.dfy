/** Owner ids and teardown contexts are never used twice, and a dead instance owns nothing. */
module LifecycleIds {
  import opened Services
  import opened Registry
  import opened Lifecycle
  import opened LifecycleFlow
  import opened LifecycleSafety
  import opened LifecycleRemovals

  /** The start has drawn the owner of the instance it will install. */
  predicate HasOwner(policy: Policy, stage: Stage) {
    || stage.Arm? || stage.Run? || (stage.Count? && !policy.kind.Scheduled?) || stage.Unlatch? || stage.Enroll?
    || stage.Fit?
  }

  predicate JobDrawn(policy: Policy, ownerSeq: nat, j: Job) {
    HasOwner(policy, j.stage) ==> j.owner < ownerSeq
  }

  predicate InstanceDrawn(ownerSeq: nat, contextSeq: nat, x: Instance) {
    x.owner < ownerSeq && x.heirOwner < ownerSeq && (x.held.Some? ==> x.held.value < contextSeq)
  }

  /** Whatever names an owner or a context names one that was drawn before. */
  ghost predicate IdsDrawn(e: Entry) {
    && (forall o :: o in e.owners ==> o < e.ownerSeq)
    && (forall t :: t in e.jobs ==> JobDrawn(e.policy, e.ownerSeq, e.jobs[t]))
    && (forall k :: 0 <= k < |e.instances| ==> InstanceDrawn(e.ownerSeq, e.contextSeq, e.instances[k]))
    && (forall c :: c in e.cancelled ==> c < e.contextSeq) && (e.teardown.Some? ==> e.teardown.value < e.contextSeq)
  }

  /** The goroutine has released its owner. */
  predicate Released(at: Point) {
    at.SampleBackoff? || at.Backoff? || at.AbortRemoving? || at.AbortStopped? || at.Rearm? || at.NewOwner? ||
    at.Install? || at.Revive? || at.Respawn? || at.Tally? || at.Closing? || at.Closed?
  }

  /** An instance that waits for its restart, or has exited, owns nothing, and what was removed has no context. */
  ghost predicate Shed(e: Entry) {
    && (forall k :: 0 <= k < |e.instances| && Released(e.instances[k].at) ==> e.instances[k].owner !in e.owners)
    && (e.removed ==> e.teardown.None?)
  }

  lemma NextDrawn(e: Entry, j: Job, c: Choice)
    requires JobDrawn(e.policy, e.ownerSeq, j) && StageFits(j.op, j.stage) && KindFits(e.policy, j.stage)
    ensures JobDrawn(e.policy, e.ownerSeq + B(j.stage.Own?), NextJob(e, j, c))
  {
    hide NextStop;
    if !IsStart(j.stage) { StopDraws(e, j, c); }
  }

  lemma StopDraws(e: Entry, j: Job, c: Choice)
    requires !IsStart(j.stage)
    ensures !HasOwner(e.policy, NextStop(e, j, c).stage)
  {
    hide AfterStop, AfterSequence;
    AfterwardsDraws(e.policy, j.op, c.ok);
  }

  lemma AfterwardsDraws(policy: Policy, op: Op, completed: bool)
    ensures !HasOwner(policy, AfterStop(op)) && !HasOwner(policy, AfterSequence(op, completed))
  {
  }

  lemma JobInstancesDrawn(e: Entry, j: Job)
    requires forall k :: 0 <= k < |e.instances| ==> InstanceDrawn(e.ownerSeq, e.contextSeq, e.instances[k])
    requires JobDrawn(e.policy, e.ownerSeq, j)
    ensures var after := InstancesByJob(e.instances, j);
      forall k :: 0 <= k < |after| ==> InstanceDrawn(e.ownerSeq, e.contextSeq, after[k])
  {
  }

  lemma WorkDrawn(e: Entry, t: nat, c: Choice)
    requires IdsDrawn(e) && Staged(e) && CanWork(e, t, c)
    ensures IdsDrawn(Work(e, t, c))
  {
    hide NextJob, InstancesByJob, StatusByJob, WritesStatus, LatchReset, Counts, Through, JobDrawn, InstanceDrawn,
         StageFits, KindFits;
    var f, j := Work(e, t, c), e.jobs[t];
    NextDrawn(e, j, c);
    JobInstancesDrawn(e, j);
    forall s | s in e.jobs && s != t ensures JobDrawn(e.policy, f.ownerSeq, e.jobs[s]) {
      DrawnStays(e.policy, e.ownerSeq, f.ownerSeq, e.jobs[s]);
    }
    forall k | 0 <= k < |f.instances| ensures InstanceDrawn(f.ownerSeq, f.contextSeq, f.instances[k]) {
      InstanceStaysDrawn(e.ownerSeq, f.ownerSeq, e.contextSeq, f.contextSeq, f.instances[k]);
    }
  }

  lemma DrawnStays(policy: Policy, ownerSeq: nat, later: nat, j: Job)
    requires JobDrawn(policy, ownerSeq, j) && ownerSeq <= later
    ensures JobDrawn(policy, later, j)
  {
  }

  lemma InstanceStaysDrawn(ownerSeq: nat, later: nat, contextSeq: nat, laterContext: nat, x: Instance)
    requires InstanceDrawn(ownerSeq, contextSeq, x) && ownerSeq <= later && contextSeq <= laterContext
    ensures InstanceDrawn(later, laterContext, x)
  {
  }

  /** A goroutine keeps its owner, and remembers no context but that of the entry. */
  lemma NextKeepsOwner(e: Entry, x: Instance, ctxDone: bool, c: Choice)
    requires !x.at.Pending?
    ensures var y := NextInstance(e, x, ctxDone, c);
      && y.owner == x.owner && (y.held == x.held || y.held == e.teardown)
      && y.heirOwner == (if x.at.NewOwner? then e.ownerSeq else x.heirOwner)
      && (Released(y.at) ==> Released(x.at) || x.at.DropOwner? || x.at.Disown?)
  {
    hide NextExit, NextDecision, NextRestart, NextTail;
    if IsExit(x.at) {
      ExitKeepsOwner(e, x, ctxDone, c);
    } else if IsDecision(x.at) {
      DecisionKeepsOwner(e, x, ctxDone);
    } else if IsRestart(x.at) {
      RestartKeepsOwner(e, x, ctxDone, c);
    } else {
      TailKeepsOwner(e, x);
    }
  }

  lemma ExitKeepsOwner(e: Entry, x: Instance, ctxDone: bool, c: Choice)
    requires IsExit(x.at)
    ensures var y := NextExit(e, x, ctxDone, c);
      y.owner == x.owner && (y.held == x.held || y.held == e.teardown) && y.heirOwner == x.heirOwner && !Released(y.at)
  {
  }

  lemma DecisionKeepsOwner(e: Entry, x: Instance, ctxDone: bool)
    requires IsDecision(x.at)
    ensures var y := NextDecision(e, x, ctxDone);
      && y.owner == x.owner && y.held == x.held && y.heirOwner == x.heirOwner
      && (Released(y.at) ==> x.at.DropOwner?)
  {
  }

  lemma RestartKeepsOwner(e: Entry, x: Instance, ctxDone: bool, c: Choice)
    requires IsRestart(x.at)
    ensures var y := NextRestart(e, x, ctxDone, c);
      && y.owner == x.owner && (y.held == x.held || y.held == e.teardown)
      && y.heirOwner == (if x.at.NewOwner? then e.ownerSeq else x.heirOwner)
  {
  }

  lemma TailKeepsOwner(e: Entry, x: Instance)
    requires !IsExit(x.at) && !IsDecision(x.at) && !IsRestart(x.at) && !x.at.Pending?
    ensures var y := NextTail(e, x);
      && y.owner == x.owner && y.held == x.held && y.heirOwner == x.heirOwner
      && (Released(y.at) ==> Released(x.at) || x.at.Disown?)
  {
  }

  lemma MoveDrawn(e: Entry, k: nat, y: Instance, ownerSeq: nat)
    requires k < |e.instances| && ownerSeq >= e.ownerSeq && InstanceDrawn(ownerSeq, e.contextSeq, y)
    requires forall l :: 0 <= l < |e.instances| ==> InstanceDrawn(e.ownerSeq, e.contextSeq, e.instances[l])
    ensures var after := InstancesByInstance(e.instances, k, y, e.instances[k].at);
      forall l :: 0 <= l < |after| ==> InstanceDrawn(ownerSeq, e.contextSeq, after[l])
  {
  }

  lemma AdvanceDrawn(e: Entry, k: nat, ctxDone: bool, c: Choice)
    requires IdsDrawn(e) && CanAdvance(e, k)
    ensures IdsDrawn(Advance(e, k, ctxDone, c))
  {
    hide NextInstance, InstancesByInstance, StatusByInstance, Steadied, JobDrawn;
    var f, x, y := Advance(e, k, ctxDone, c), e.instances[k], NextInstance(e, e.instances[k], ctxDone, c);
    assert InstanceDrawn(e.ownerSeq, e.contextSeq, x);
    NextKeepsOwner(e, x, ctxDone, c);
    MoveDrawn(e, k, y, f.ownerSeq);
    forall s | s in e.jobs ensures JobDrawn(e.policy, f.ownerSeq, e.jobs[s]) {
      DrawnStays(e.policy, e.ownerSeq, f.ownerSeq, e.jobs[s]);
    }
  }

  lemma OwnersGrow(e: Entry, j: Job)
    ensures forall o :: o in OwnersByJob(e, j) ==> o in e.owners || o == e.ownerSeq
  {
  }

  lemma JobSheds(e: Entry, j: Job)
    requires IdsDrawn(e) && Shed(e)
    ensures var after := InstancesByJob(e.instances, j);
      forall k :: 0 <= k < |after| && Released(after[k].at) ==> after[k].owner !in OwnersByJob(e, j)
  {
    hide OwnersByJob, JobDrawn;
    OwnersGrow(e, j);
    assert forall k :: 0 <= k < |e.instances| ==> InstanceDrawn(e.ownerSeq, e.contextSeq, e.instances[k]);
  }

  lemma ArmsRegistered(e: Entry, t: nat)
    requires Staged(e) && Departs(e) && t in e.jobs && e.jobs[t].stage.Arm?
    ensures !e.removed
  {
  }

  lemma WorkShed(e: Entry, t: nat, c: Choice)
    requires IdsDrawn(e) && Shed(e) && Staged(e) && Departs(e) && CanWork(e, t, c)
    ensures Shed(Work(e, t, c))
  {
    hide NextJob, InstancesByJob, OwnersByJob, StatusByJob, WritesStatus, LatchReset, Counts, Through, Released,
         IdsDrawn, Staged, Departs;
    if e.jobs[t].stage.Arm? { ArmsRegistered(e, t); }
    JobSheds(e, e.jobs[t]);
  }

  lemma MoveSheds(e: Entry, k: nat, y: Instance, owners: set<nat>)
    requires k < |e.instances| && (Released(y.at) ==> y.owner !in owners)
    requires forall l :: 0 <= l < |e.instances| && l != k && Released(e.instances[l].at) ==>
               e.instances[l].owner !in owners
    ensures var after := InstancesByInstance(e.instances, k, y, e.instances[k].at);
      forall l :: 0 <= l < |after| && Released(after[l].at) ==> after[l].owner !in owners
  {
  }

  lemma AdvanceShed(e: Entry, k: nat, ctxDone: bool, c: Choice)
    requires IdsDrawn(e) && Shed(e) && CanAdvance(e, k)
    ensures Shed(Advance(e, k, ctxDone, c))
  {
    hide NextInstance, InstancesByInstance, StatusByInstance, Steadied, JobDrawn, Released;
    var x, y := e.instances[k], NextInstance(e, e.instances[k], ctxDone, c);
    NextKeepsOwner(e, x, ctxDone, c);
    assert forall l :: 0 <= l < |e.instances| ==> InstanceDrawn(e.ownerSeq, e.contextSeq, e.instances[l]);
    MoveSheds(e, k, y, OwnersByInstance(e, x));
  }

  lemma ReserveDrawn(e: Entry, t: nat, op: Op)
    requires IdsDrawn(e) && Shed(e) && t !in e.jobs
    ensures IdsDrawn(Reserve(e, t, op)) && Shed(Reserve(e, t, op))
  {
    hide AtRest, InstanceDrawn, Released;
  }

  /** Every step, whatever was done to the entry, draws a fresh owner and a fresh context where it draws one, and
      leaves a dead instance without its owner. */
  lemma StepDraws(e: Entry, ctxDone: bool, a: Action)
    requires IdsDrawn(e) && Shed(e) && Staged(e) && Departs(e) && Can(e, a)
    ensures IdsDrawn(Do(e, ctxDone, a)) && Shed(Do(e, ctxDone, a))
  {
    hide Reserve, Work, Advance, CanReserve, CanRelease, CanWork, CanAdvance, Staged, Departs, InstanceDrawn,
         JobDrawn, Released;
    match a
    case Reserving(t, op) => hide IdsDrawn, Shed; ReserveDrawn(e, t, op);
    case Working(t, c) => hide IdsDrawn, Shed; WorkDrawn(e, t, c); WorkShed(e, t, c);
    case Releasing(t) =>
    case Advancing(k, c) => hide IdsDrawn, Shed; AdvanceDrawn(e, k, ctxDone, c); AdvanceShed(e, k, ctxDone, c);
  }

  /** Ids are never used twice, and the dead own nothing. */
  ghost predicate IdsOk(e: Entry) {
    IdsDrawn(e) && Shed(e)
  }

  lemma StepIds(e: Entry, ctxDone: bool, a: Action)
    requires IdsOk(e) && Staged(e) && Departs(e) && Can(e, a)
    ensures IdsOk(Do(e, ctxDone, a))
  {
    hide IdsDrawn, Shed, Staged, Departs, Do, Can;
    StepDraws(e, ctxDone, a);
  }
}
