/** What an entry shows at rest: no dead instance reported as running, no owner left behind. */
module LifecycleStatus {
  import opened Services
  import opened Lifecycle
  import opened LifecycleFlow
  import opened LifecycleSafety
  import opened LifecycleSound
  import opened LifecycleEnds

  /** The goroutine still decides what its exit does to the status. */
  predicate Undecided(at: Point) {
    at.Pending? || at.Live? || at.Sample? || at.SeeShutdown? || at.SeeRemoving? || at.SeeTeardown? || at.SetStopped? ||
        at.SetCrashed?
  }

  predicate LastUndecided(instances: seq<Instance>) {
    |instances| > 0 && Undecided(instances[|instances| - 1].at)
  }

  /** A start between its first status and its instance. */
  predicate StartsUp(stage: Stage) {
    stage.Own? || stage.Arm? || stage.Run? || stage.Count? || stage.Unlatch? || stage.Enroll? || stage.Fit?
  }

  /** A stop that will still write the status. */
  predicate BeforeMark(j: Job) {
    HoldsRemoving(j.op) && (j.stage.Skip? || j.stage.Cancel? || j.stage.Watch? || j.stage.Begin? || j.stage.Mark?)
  }

  predicate PastMark(j: Job) {
    || j.stage.Sequence? || j.stage.Await? || j.stage.Read? || j.stage.Commit? || j.stage.Account? || j.stage.Remove?
    || j.stage.Drain? || j.stage.Wipe? || j.stage.Rewind? || (j.stage.Return? && HoldsRemoving(j.op))
  }

  /** Somebody stands behind a status that says the service is up. */
  ghost predicate Backed(e: Entry) {
    LastUndecided(e.instances) || exists t :: t in e.jobs && (StartsUp(e.jobs[t].stage) || BeforeMark(e.jobs[t]))
  }

  ghost predicate Honest(e: Entry) {
    && (Active(e.status) && e.policy.kind.Persistent? ==> Backed(e))
    && (forall t :: t in e.jobs && PastMark(e.jobs[t]) ==> !Active(e.status))
    && (forall t :: t in e.jobs && e.jobs[t].stage.Mark? && e.jobs[t].sampled.Succeeded? ==> !Active(e.status))
  }

  /** The job that the removing flag stands for is before its mark or past it. */
  lemma RemovingJob(e: Entry) returns (t: nat)
    requires Reserved(e) && Shaped(e) && e.removing
    ensures t in e.jobs && (BeforeMark(e.jobs[t]) || PastMark(e.jobs[t]))
  {
    hide OneActs, PointsFit, StopFlags, StopSees, StartFits;
    t :| t in e.jobs && HoldsRemoving(e.jobs[t].op);
    assert Fits(e, e.jobs[t]);
  }

  /** Without a factory, an instance leaves its decision only by writing the status or because a stop owns it. */
  lemma NextUndecided(e: Entry, x: Instance, c: Choice)
    requires !e.policy.factory && Undecided(x.at) && !x.at.Pending?
    ensures var y := NextInstance(e, x, false, c);
      Undecided(y.at) || (x.at.SeeRemoving? && e.removing) || StatusByInstance(e.status, x.at) in {Stopped, Crashed}
  {
    hide NextDecision, NextRestart, NextTail;
  }

  /** What a goroutine without a factory touches. */
  lemma PlainFrame(e: Entry, k: nat, c: Choice)
    requires CanAdvance(e, k) && !e.policy.factory && PointFits(false, e.instances[k].at)
    ensures var f, x := Advance(e, k, false, c), e.instances[k];
      && f.jobs == e.jobs && f.policy == e.policy && f.instances == e.instances[k := NextInstance(e, x, false, c)]
      && f.status == StatusByInstance(e.status, x.at) && (f.status == e.status || !Active(f.status))
  {
    hide NextInstance;
  }

  /** Somebody goes on standing behind the status. */
  lemma AdvanceBacked(e: Entry, k: nat, c: Choice)
    requires Reserved(e) && Shaped(e) && Honest(e) && CanAdvance(e, k) && !e.policy.factory && Backed(e)
    requires Active(e.status) && Advance(e, k, false, c).status == e.status
    ensures Backed(Advance(e, k, false, c))
  {
    hide NextInstance, Advance, Reserved, Shaped, Undecided, StartsUp, BeforeMark, PastMark;
    var x := e.instances[k];
    ShapedPoint(e, k);
    PlainFrame(e, k, c);
    if k == |e.instances| - 1 && Undecided(x.at) {
      NotPending(e, k);
      NextUndecided(e, x, c);
      if e.removing { var t := RemovingJob(e); }
    }
  }

  lemma ShapedPoint(e: Entry, k: nat)
    requires Shaped(e) && k < |e.instances|
    ensures PointFits(e.policy.factory, e.instances[k].at)
  {
    hide OneActs, PointFits, Fits, Tethered;
  }

  lemma NotPending(e: Entry, k: nat)
    requires CanAdvance(e, k)
    ensures !e.instances[k].at.Pending?
  {
  }

  lemma AdvanceHonest(e: Entry, k: nat, c: Choice)
    requires Reserved(e) && Shaped(e) && Honest(e) && CanAdvance(e, k) && !e.policy.factory
    ensures Honest(Advance(e, k, false, c))
  {
    hide Advance, Reserved, Shaped, Backed, PastMark, NextInstance, StatusByInstance;
    ShapedPoint(e, k);
    PlainFrame(e, k, c);
    if Active(Advance(e, k, false, c).status) && e.policy.kind.Persistent? { AdvanceBacked(e, k, c); }
  }

  /** Honest for an entry whose one job is j. */
  predicate HonestWith(policy: Policy, status: Status, instances: seq<Instance>, j: Job) {
    && (Active(status) && policy.kind.Persistent? ==> LastUndecided(instances) || StartsUp(j.stage) || BeforeMark(j))
    && (PastMark(j) ==> !Active(status)) && (j.stage.Mark? && j.sampled.Succeeded? ==> !Active(status))
  }

  lemma HonestByOne(e: Entry, t: nat)
    requires t in e.jobs && forall s :: s in e.jobs ==> s == t
    ensures Honest(e) <==> HonestWith(e.policy, e.status, e.instances, e.jobs[t])
  {
  }

  lemma StartHonest(e: Entry, j: Job, c: Choice)
    requires HonestWith(e.policy, e.status, e.instances, j) && IsStart(j.stage) && StageFits(j.op, j.stage)
    requires StartFits(e.policy, e.removed, e.instances, j) && !j.stage.Fit? && !j.stage.Launch?
    ensures HonestWith(e.policy, StatusByJob(e.status, j, c), e.instances, NextStart(e, j, c))
  {
    hide LastUndecided;
  }

  lemma InstallHonest(e: Entry, j: Job, c: Choice)
    requires HonestWith(e.policy, e.status, e.instances, j) && StageFits(j.op, j.stage)
    requires StartFits(e.policy, e.removed, e.instances, j) && (j.stage.Fit? || j.stage.Launch?)
    ensures HonestWith(e.policy, e.status, InstancesByJob(e.instances, j), NextStart(e, j, c))
    ensures StatusByJob(e.status, j, c) == e.status
  {
  }

  lemma StopHonest(e: Entry, j: Job, c: Choice)
    requires HonestWith(e.policy, e.status, e.instances, j) && StageFits(j.op, j.stage) && Holds(j.op)
    requires !IsStart(j.stage) && !j.stage.Return? && !j.stage.Hold?
    ensures HonestWith(e.policy, StatusByJob(e.status, j, c), e.instances, NextStop(e, j, c))
  {
    hide LastUndecided;
  }

  lemma WorkHonest(e: Entry, t: nat, c: Choice)
    requires Reserved(e) && Shaped(e) && AllHold(e) && Honest(e) && CanWork(e, t, c)
    ensures Honest(Work(e, t, c))
  {
    hide NextStart, NextStop, StatusByJob, InstancesByJob, HonestWith, Honest, Reserved, PointsFit, OneActs,
         StageFits, StartFits, StopFlags, StopSees, AllHold, Latest;
    var f, j := Work(e, t, c), e.jobs[t];
    forall s | s in e.jobs ensures s == t { OnlyJob(e, t, s); }
    HonestByOne(e, t);
    HonestByOne(f, t);
    assert Fits(e, j);
    if j.stage.Fit? || j.stage.Launch? {
      InstallHonest(e, j, c);
    } else if IsStart(j.stage) {
      SameInstances(e.instances, j);
      StartHonest(e, j, c);
    } else {
      SameInstances(e.instances, j);
      assert Holds(j.op) by { HoldsAt(e, t); }
      StopHonest(e, j, c);
    }
  }

  lemma HoldsAt(e: Entry, t: nat)
    requires AllHold(e) && t in e.jobs
    ensures Holds(e.jobs[t].op)
  {
  }

  lemma ReserveHonest(e: Entry, t: nat, op: Op)
    requires Honest(e) && t !in e.jobs && Holds(op)
    ensures Honest(Reserve(e, t, op))
  {
    var f := Reserve(e, t, op);
    if Active(e.status) && e.policy.kind.Persistent? && !LastUndecided(e.instances) {
      var s :| s in e.jobs && (StartsUp(e.jobs[s].stage) || BeforeMark(e.jobs[s]));
      assert s in f.jobs && f.jobs[s] == e.jobs[s];
    }
  }

  lemma ReleaseHonest(e: Entry, t: nat)
    requires Honest(e) && CanRelease(e, t)
    ensures Honest(ReleaseJob(e, t))
  {
    var f := ReleaseJob(e, t);
    if Active(e.status) && e.policy.kind.Persistent? && !LastUndecided(e.instances) {
      var s :| s in e.jobs && (StartsUp(e.jobs[s].stage) || BeforeMark(e.jobs[s]));
      assert s in f.jobs && f.jobs[s] == e.jobs[s];
    }
  }

  /** Short of a shutdown, every step keeps the status of a service without a factory honest. */
  lemma StepHonest(e: Entry, a: Action)
    requires Reserved(e) && Shaped(e) && AllHold(e) && Honest(e) && Can(e, a) && !e.policy.factory
    requires a.Reserving? ==> Holds(a.op)
    ensures Honest(Do(e, false, a))
  {
    hide Reserved, Shaped, AllHold, Honest, Reserve, ReleaseJob, Work, Advance, CanReserve, CanRelease, CanWork,
         CanAdvance;
    match a
    case Reserving(t, op) => ReserveHonest(e, t, op);
    case Working(t, c) => WorkHonest(e, t, c);
    case Releasing(t) => ReleaseHonest(e, t);
    case Advancing(k, c) => AdvanceHonest(e, k, c);
  }

  /** A start that holds an owner id nobody else releases. */
  predicate JobOwns(policy: Policy, j: Job, id: nat) {
    j.owner == id && !policy.kind.Scheduled? &&
    (j.stage.Arm? || j.stage.Run? || j.stage.Count? || j.stage.Unlatch? || j.stage.Enroll? || j.stage.Fit? ||
        GateStage(j.stage))
  }

  /** An instance releases its own owner before it closes; one that restarts holds its heir's as well. */
  predicate InstanceOwns(x: Instance, id: nat) {
    (x.owner == id && !x.at.Closing? && !x.at.Closed?) || (x.at.Install? && x.heirOwner == id)
  }

  ghost predicate OwnedBy(e: Entry, id: nat) {
    || (exists t :: t in e.jobs && JobOwns(e.policy, e.jobs[t], id))
    || (exists k :: 0 <= k < |e.instances| && InstanceOwns(e.instances[k], id))
  }

  /** Every owner the entry lists belongs to a goroutine that will release it. */
  ghost predicate OwnersHeld(e: Entry) {
    forall id :: id in e.owners ==> OwnedBy(e, id)
  }

  /** How an instance's step treats owners. */
  predicate OwnsOn(e: Entry, x: Instance, y: Instance) {
    && y.owner == x.owner && (x.at.Install? ==> y.heirOwner == x.heirOwner)
    && (x.at.NewOwner? ==> y.at.Install? && y.heirOwner == e.ownerSeq)
    && (y.at.Closing? || y.at.Closed? ==> x.at.Disown? || x.at.Closing?)
  }

  lemma NextOwns(e: Entry, x: Instance, ctxDone: bool, c: Choice)
    requires !x.at.Pending? && !x.at.Closed?
    ensures OwnsOn(e, x, NextInstance(e, x, ctxDone, c))
  {
    hide NextExit, NextDecision, NextRestart, NextTail, OwnsOn;
    if IsExit(x.at) {
      ExitOwns(e, x, ctxDone, c);
    } else if IsDecision(x.at) {
      DecisionOwns(e, x, ctxDone);
    } else if IsRestart(x.at) {
      RestartOwns(e, x, ctxDone, c);
    } else {
      TailOwns(e, x);
    }
  }

  lemma ExitOwns(e: Entry, x: Instance, ctxDone: bool, c: Choice)
    requires IsExit(x.at)
    ensures OwnsOn(e, x, NextExit(e, x, ctxDone, c))
  {
  }

  lemma DecisionOwns(e: Entry, x: Instance, ctxDone: bool)
    requires IsDecision(x.at)
    ensures OwnsOn(e, x, NextDecision(e, x, ctxDone))
  {
  }

  lemma RestartOwns(e: Entry, x: Instance, ctxDone: bool, c: Choice)
    requires IsRestart(x.at)
    ensures OwnsOn(e, x, NextRestart(e, x, ctxDone, c))
  {
  }

  lemma TailOwns(e: Entry, x: Instance)
    requires !x.at.Pending? && !x.at.Closed? && !IsExit(x.at) && !IsDecision(x.at) && !IsRestart(x.at)
    ensures OwnsOn(e, x, NextTail(e, x))
  {
  }

  /** A goroutine keeps its owners through the steps of the others. */
  lemma OthersOwn(instances: seq<Instance>, k: nat, y: Instance, at: Point, i: nat, id: nat)
    requires k < |instances| && i < |instances| && i != k && InstanceOwns(instances[i], id)
    requires at.Respawn? && y.heir < |instances| ==> y.heir != k && instances[y.heir].at.Pending?
    ensures var after := InstancesByInstance(instances, k, y, at); i < |after| && InstanceOwns(after[i], id)
  {
  }

  lemma AdvanceOwns(e: Entry, k: nat, ctxDone: bool, c: Choice, id: nat)
    requires Sound(e) && OwnersHeld(e) && CanAdvance(e, k) && id in Advance(e, k, ctxDone, c).owners
    ensures OwnedBy(Advance(e, k, ctxDone, c), id)
  {
    hide NextInstance, Staged, Tallied, Covered, Moored, PointFits, InstanceOwns, InstancesByInstance, JobOwns;
    var x, y, f := e.instances[k], NextInstance(e, e.instances[k], ctxDone, c), Advance(e, k, ctxDone, c);
    InstanceFollows(e, x, ctxDone, c);
    NextOwns(e, x, ctxDone, c);
    MoveLinks(e.jobs, e, k, y);
    if id !in e.owners {
      MoverOwns(e, k, y, id);
    } else if t :| t in e.jobs && JobOwns(e.policy, e.jobs[t], id) {
      assert t in f.jobs && JobOwns(f.policy, f.jobs[t], id);
    } else {
      var i: nat :| i < |e.instances| && InstanceOwns(e.instances[i], id);
      if i != k { OthersOwn(e.instances, k, y, x.at, i, id); } else { MoverOwns(e, k, y, id); }
    }
  }

  /** The goroutine that moves keeps its owner, releases it, or hands it to its heir. */
  lemma MoverOwns(e: Entry, k: nat, y: Instance, id: nat)
    requires CanAdvance(e, k) && OwnsOn(e, e.instances[k], y) && id in OwnersByInstance(e, e.instances[k])
    requires id in e.owners ==> InstanceOwns(e.instances[k], id)
    requires e.instances[k].at.Respawn? && y.heir < |e.instances| ==> y.heir != k
    ensures var after := InstancesByInstance(e.instances, k, y, e.instances[k].at);
      exists i :: 0 <= i < |after| && InstanceOwns(after[i], id)
  {
    var x, after := e.instances[k], InstancesByInstance(e.instances, k, y, e.instances[k].at);
    if x.at.Install? && x.heirOwner == id {
      assert InstanceOwns(after[|e.instances|], id);
    } else {
      assert InstanceOwns(after[k], id);
    }
  }

  lemma WorkOwns(e: Entry, t: nat, c: Choice, id: nat)
    requires Sound(e) && OwnersHeld(e) && CanWork(e, t, c) && id in Work(e, t, c).owners
    ensures OwnedBy(Work(e, t, c), id)
  {
    hide Staged, Pointed, Tallied, Covered, Moored, NextStop, NextStart, InstanceOwns, JobOwns, InstancesByJob,
         KindFits;
    var j, f := e.jobs[t], Work(e, t, c);
    StageOf(e, t);
    if id in e.owners && !JobOwns(e.policy, j, id) {
      if s :| s in e.jobs && s != t && JobOwns(e.policy, e.jobs[s], id) {
        assert s in f.jobs && JobOwns(f.policy, f.jobs[s], id);
      } else {
        var k: nat :| k < |e.instances| && InstanceOwns(e.instances[k], id);
        WorkKeepsInstance(e, j, k, id);
      }
    } else {
      WorkerOwns(e, j, c, id);
      if JobOwns(e.policy, NextJob(e, j, c), id) { assert t in f.jobs && JobOwns(f.policy, f.jobs[t], id); }
    }
  }

  lemma WorkKeepsInstance(e: Entry, j: Job, k: nat, id: nat)
    requires k < |e.instances| && InstanceOwns(e.instances[k], id)
    requires j.stage.Launch? ==> PendingAt(e.instances, j.channel)
    ensures var after := InstancesByJob(e.instances, j); k < |after| && InstanceOwns(after[k], id)
  {
  }

  /** A start keeps its owner until the instance has it, or until it releases it itself. */
  lemma WorkerOwns(e: Entry, j: Job, c: Choice, id: nat)
    requires !j.stage.Return? && !j.stage.Hold? && id in OwnersByJob(e, j)
    requires id in e.owners ==> JobOwns(e.policy, j, id)
    requires KindFits(e.policy, j.stage)
    ensures || JobOwns(e.policy, NextJob(e, j, c), id)
            || (var after := InstancesByJob(e.instances, j); exists k :: 0 <= k < |after| && InstanceOwns(after[k], id))
  {
    if j.stage.Fit? {
      assert InstanceOwns(InstancesByJob(e.instances, j)[|e.instances|], id);
    }
  }

  /** Every step leaves each listed owner with a goroutine that will release it. */
  lemma StepOwns(e: Entry, ctxDone: bool, a: Action)
    requires Sound(e) && OwnersHeld(e) && Can(e, a)
    ensures OwnersHeld(Do(e, ctxDone, a))
  {
    hide Sound, OwnersHeld, Work, Advance, CanReserve, CanWork, CanAdvance;
    match a
    case Reserving(t, op) => ReserveOwns(e, t, op);
    case Working(t, c) => WorkHeld(e, t, c);
    case Releasing(t) => ReleaseOwns(e, t);
    case Advancing(k, c) => AdvanceHeld(e, k, ctxDone, c);
  }

  lemma WorkHeld(e: Entry, t: nat, c: Choice)
    requires Sound(e) && OwnersHeld(e) && CanWork(e, t, c)
    ensures OwnersHeld(Work(e, t, c))
  {
    hide Sound, Work, OwnedBy;
    forall id | id in Work(e, t, c).owners ensures OwnedBy(Work(e, t, c), id) { WorkOwns(e, t, c, id); }
  }

  lemma AdvanceHeld(e: Entry, k: nat, ctxDone: bool, c: Choice)
    requires Sound(e) && OwnersHeld(e) && CanAdvance(e, k)
    ensures OwnersHeld(Advance(e, k, ctxDone, c))
  {
    hide Sound, Advance, OwnedBy;
    forall id | id in Advance(e, k, ctxDone, c).owners ensures OwnedBy(Advance(e, k, ctxDone, c), id) {
      AdvanceOwns(e, k, ctxDone, c, id);
    }
  }

  lemma ReserveOwns(e: Entry, t: nat, op: Op)
    requires OwnersHeld(e) && t !in e.jobs
    ensures OwnersHeld(Reserve(e, t, op))
  {
    hide JobOwns, InstanceOwns;
    var f := Reserve(e, t, op);
    forall id | id in f.owners ensures OwnedBy(f, id) {
      assert OwnedBy(e, id);
      if s :| s in e.jobs && JobOwns(e.policy, e.jobs[s], id) {
        assert s in f.jobs && JobOwns(f.policy, f.jobs[s], id);
      }
    }
  }

  lemma ReleaseOwns(e: Entry, t: nat)
    requires OwnersHeld(e) && CanRelease(e, t)
    ensures OwnersHeld(ReleaseJob(e, t))
  {
    var f := ReleaseJob(e, t);
    forall id | id in f.owners ensures OwnedBy(f, id) {
      assert OwnedBy(e, id);
      if s :| s in e.jobs && JobOwns(e.policy, e.jobs[s], id) {
        assert s in f.jobs && JobOwns(f.policy, f.jobs[s], id);
      }
    }
  }

  /** At rest, with every instance closed and no operation under way, no owner is left. */
  lemma RestOwnsNothing(e: Entry)
    requires OwnersHeld(e) && e.jobs == map[] && forall k :: 0 <= k < |e.instances| ==> e.instances[k].at == Closed
    ensures e.owners == {}
  {
    assert forall id :: !OwnedBy(e, id);
  }
}
