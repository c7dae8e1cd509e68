/** What a whole Stop finds on an entry, and what that decides about the entry from then on. */
module Winddown {
  import opened Services
  import opened Lifecycle
  import opened LifecycleFlow
  import opened LifecycleSafety
  import opened LifecycleShares
  import opened LifecycleRemovals
  import opened LifecycleIds
  import opened LifecycleSound
  import opened LifecycleEnds
  import opened LifecycleStops
  import opened LifecycleCredits
  import opened LifecycleRetries
  import opened LifecycleVerdicts
  import opened LifecycleLimits
  import opened LifecycleExits
  import opened LifecycleAccounts
  import opened LifecycleStatus
  import opened LifecycleGates
  import opened Shutdown
  import opened StopCredits

  /** Stop's own job relies on nothing about the instances. */
  lemma StopFitsAnywhere(e: Entry, j: Job, stage: Stage)
    requires Fits(e, j) && j.stage.Hold? && (stage.Read? || stage.Return?)
    ensures Fits(e, j.(stage := stage))
  {
    hide StopFlags, StopSees, StartFits;
  }

  predicate Held(e: Entry) {
    STOP in e.jobs ==> e.jobs[STOP].stage.Hold? && e.jobs[STOP].op.ShutdownOp?
  }

  lemma ResumeShaped(e: Entry, verified: bool)
    requires Shaped(e) && Held(e)
    ensures Shaped(Resume(e, verified))
  {
    hide PointsFit, OneActs, JobFits, Latest;
    if STOP in e.jobs { StopFitsAnywhere(e, e.jobs[STOP], Resume(e, verified).jobs[STOP].stage); }
    forall t | t in e.jobs ensures Fits(Resume(e, verified), Resume(e, verified).jobs[t]) { assert Fits(e, e.jobs[t]); }
  }

  lemma ResumeShares(e: Entry, verified: bool)
    requires Shares(e) && Held(e)
    ensures Shares(Resume(e, verified))
  {
    hide LatchOpen, LastHolds;
    var f := Resume(e, verified);
    if Enrolled(e.jobs) {
      var s :| s in e.jobs && e.jobs[s].stage.Fit?;
      assert s in f.jobs;
    }
  }

  lemma ResumeDrained(e: Entry, verified: bool)
    requires Drained(e) && Held(e)
    ensures Drained(Resume(e, verified))
  {
  }

  lemma ResumeStaged(e: Entry, verified: bool)
    requires Staged(e) && Held(e)
    ensures Staged(Resume(e, verified))
  {
    hide KindFits;
    if STOP in e.jobs { AnyKind(e.policy, Resume(e, verified).jobs[STOP].stage); }
  }

  lemma ResumeLinks(e: Entry, verified: bool)
    requires Linked(e.jobs, e.instances) && Held(e)
    ensures var f := Resume(e, verified);
      Linked(f.jobs, f.instances) && (Enrolled(f.jobs) ==> Enrolled(e.jobs))
  {
    var f := Resume(e, verified);
    assert forall s :: s in e.jobs && s != STOP ==> f.jobs[s] == e.jobs[s];
  }

  lemma ResumeMoored(e: Entry, verified: bool)
    requires Moored(e) && Held(e)
    ensures Moored(Resume(e, verified))
  {
    hide Latest, Armed, Arming;
    var f := Resume(e, verified);
    assert forall s :: s in e.jobs && s != STOP ==> s in f.jobs && f.jobs[s] == e.jobs[s];
    if STOP in e.jobs {
      NeitherArms(e.jobs[STOP].stage);
      NeitherArms(f.jobs[STOP].stage);
    }
  }

  lemma NeitherArms(stage: Stage)
    requires stage.Hold? || stage.Read? || stage.Return?
    ensures !Armed(stage) && !Arming(stage)
  {
  }

  lemma ResumeSound(e: Entry, verified: bool)
    requires Sound(e) && Held(e)
    ensures Sound(Resume(e, verified))
  {
    hide CountAt, Pointed, Staged, Linked, Moored, Enrolled;
    ResumeStaged(e, verified);
    ResumeLinks(e, verified);
    ResumeMoored(e, verified);
  }

  lemma AnyKind(policy: Policy, stage: Stage)
    requires stage.Read? || stage.Return?
    ensures KindFits(policy, stage)
  {
  }

  lemma ResumeOk(e: Entry, verified: bool)
    requires EntryOk(true, e) && Held(e)
    ensures EntryOk(true, Resume(e, verified))
  {
    hide Reserved, Sound, Shaped, Shares, Accounted, Leaves, Limits, ReportsOnce, RestartOpen, LastVerdict, AllJudged,
         HeirsLater, PendingUnreported, Booked, Ends, OwnersHeld, Honest, Drained;
    if STOP in e.jobs { ReservationStands(e, Resume(e, verified)); }
    ResumeSound(e, verified);
    ResumeOwns(e, verified);
    ResumeIds(e, verified);
    if !e.raced {
      ResumeShaped(e, verified);
      ResumeShares(e, verified);
      ResumeDrained(e, verified);
      ResumeAccounted(e, verified);
      ResumeLimits(e, verified);
      ResumeLeaves(e, verified);
    }
  }

  lemma ResumeIds(e: Entry, verified: bool)
    requires IdsOk(e) && Held(e)
    ensures IdsOk(Resume(e, verified))
  {
    hide InstanceDrawn, Released, HasOwner;
    var f := Resume(e, verified);
    forall t | t in f.jobs ensures t in e.jobs && JobDrawn(f.policy, f.ownerSeq, f.jobs[t]) {
      if t == STOP { ResumedDrew(e.policy, f.jobs[t].stage); }
    }
  }

  lemma ResumedDrew(policy: Policy, stage: Stage)
    ensures stage.Read? || stage.Return? ==> !HasOwner(policy, stage)
  {
  }

  lemma ResumeLeaves(e: Entry, verified: bool)
    requires Leaves(e) && Held(e)
    ensures Leaves(Resume(e, verified))
  {
    hide LeftStopped, Holding;
    var f := Resume(e, verified);
    assert forall t :: t in e.jobs && t != STOP ==> t in f.jobs && f.jobs[t] == e.jobs[t];
    assert STOP in f.jobs ==> STOP in e.jobs;
  }

  lemma ResumeLimits(e: Entry, verified: bool)
    requires Limits(e) && Held(e)
    ensures Limits(Resume(e, verified))
  {
    hide LastQuits;
  }

  lemma ResumeAccounted(e: Entry, verified: bool)
    requires Accounted(e) && Held(e)
    ensures Accounted(Resume(e, verified))
  {
    hide Active;
  }

  lemma ResumeOwns(e: Entry, verified: bool)
    requires OwnersHeld(e) && Held(e)
    ensures OwnersHeld(Resume(e, verified))
  {
    hide InstanceOwns;
    var f := Resume(e, verified);
    forall id | id in f.owners ensures OwnedBy(f, id) {
      assert OwnedBy(e, id);
      if s :| s in e.jobs && JobOwns(e.policy, e.jobs[s], id) {
        assert s in f.jobs && JobOwns(f.policy, f.jobs[s], id);
      }
    }
  }

  /** Where Stop's own job may stand: it is there from the cancellation to the end. */
  predicate StopAt(phase: Phase, j: Job) {
    match phase
    case Winding => j.stage.Begin? || j.stage.Mark? || j.stage.Sequence? || (j.stage.Hold? && (j.completed || j.failed))
    case Waited => ((j.stage.Read? || j.stage.Commit? || j.stage.Account?) && j.completed) || j.stage.Return?
    case _ => false
  }

  /** Every job but Stop's belongs to an operation that holds the entry. */
  ghost predicate JobsOwned(phase: Phase, e: Entry) {
    forall t :: t in e.jobs ==>
      if t == STOP then e.jobs[t].op.ShutdownOp? && StopAt(phase, e.jobs[t]) else Holds(e.jobs[t].op)
  }

  /** What an entry keeps while the orchestrator is up: its stops are those of launches, and a gate is seen. */
  ghost predicate UpOk(e: Entry) {
    && (!e.raced ==> GateSeen(e))
    && (if e.policy.factory then Paid(e) && Latched(e) else !e.removed ==> Counted(e))
  }

  /** What it keeps since Stop found it, as far as nothing in flight then stood against it. */
  ghost predicate SinceOk(found: Entry, e: Entry) {
    && found.policy == e.policy && (found.status.Succeeded? ==> e.policy.kind.RunOnce?)
    && (NoStarts(found) ==> NoStarts(e))
    && (!e.policy.factory && NoneUndone(found) ==> Cooled(e) && (!e.removed ==> Counted(e)))
    && (e.policy.factory && NoStarts(found) && !e.removed ==> Latched(e))
    && (e.policy.factory && !NoStarts(found) && NoneUndone(found) ==> Shared(e))
    && (!e.raced && AllFruitless(found) ==>
          AllFruitless(e) && GateSeen(e) && (found.status.Succeeded? && !e.removed ==> e.status.Succeeded?))
  }

  lemma HoldersAlone(e: Entry)
    requires Reserved(e) && AllHold(e)
    ensures BlessAlone(e)
  {
    forall s, t | s in e.jobs && t in e.jobs ensures s == t { OnlyJob(e, s, t); }
  }

  lemma DoUp(e: Entry, a: Action)
    requires EntryOk(false, e) && AllHold(e) && UpOk(e) && Can(e, a) && (a.Reserving? ==> Holds(a.op))
    ensures UpOk(Do(e, false, a))
  {
    hide Reserved, Sound, Shaped, Shares, Budgeted, AllReportOnce, Trials, Departs, IdsOk, ShowsExit, Accounted,
         Leaves, Limits, OwnersHeld, Honest, Ends, Drained, Counted, Paid, Latched, Do, Can, AllHold, GateSeen,
         BlessAlone;
    DoStays(e, false, a);
    if !Do(e, false, a).raced {
      if e.raced {
        RecoversBy(e, false, a);
        SoundGate(e);
        ClaimSees(e, a);
      } else {
        HoldersAlone(e);
        StepSees(e, false, a);
      }
    }
    if e.policy.factory {
      StepPaid(e, a);
      StepLatched(e, false, a);
    } else if !Do(e, false, a).removed {
      StepCounted(e, false, a);
    }
  }

  /** A self-healing service is no gate. */
  lemma ClaimSees(e: Entry, a: Action)
    requires (e.status.Succeeded? ==> e.policy.kind.RunOnce?) && e.policy.kind.Persistent? && a.Reserving? && Can(e, a)
    requires AtRest(e)
    ensures GateSeen(Do(e, false, a))
  {
  }

  lemma DoSince(found: Entry, e: Entry, a: Action)
    requires EntryOk(true, e) && SinceOk(found, e) && Can(e, a) && !a.Reserving?
    ensures SinceOk(found, Do(e, true, a))
  {
    hide Reserved, Sound, Shaped, Shares, Budgeted, AllReportOnce, Trials, Departs, IdsOk, ShowsExit, Accounted,
         Leaves, Limits, OwnersHeld, Honest, Ends, Drained, Counted, Latched, Shared, Do, Can, AllHold, GateSeen,
         BlessAlone, NoStarts, NoneUndone, AllFruitless, Cooled;
    DoStays(e, true, a);
    if NoStarts(found) { StepStartsNone(e, a); }
    if !Do(e, true, a).raced && AllFruitless(found) {
      FruitlessIsAlone(e);
      StepSees(e, true, a);
      StepFruitless(e, true, a);
      if e.status.Succeeded? { SoundStaged(e); FruitlessKeeps(e, a); }
    }
    if e.policy.factory {
      if NoStarts(found) {
        if !Do(e, true, a).removed { StepLatched(e, true, a); }
      } else if NoneUndone(found) {
        StepShared(e, true, a);
      }
    } else if NoneUndone(found) {
      StepCooled(e, true, a);
      if !Do(e, true, a).removed { StepCounted(e, true, a); }
    }
  }

  /** A start that can no longer bring the gate up does not take it down either. */
  lemma FruitlessKeeps(e: Entry, a: Action)
    requires Staged(e) && AllFruitless(e) && GateSeen(e) && e.status.Succeeded? && Can(e, a) && !a.Reserving?
    ensures a.Working? && IsStart(e.jobs[a.t].stage) ==> Do(e, true, a).status.Succeeded?
    ensures a.Working? && e.jobs[a.t].stage.Remove? ==> Do(e, true, a).removed
  {
    hide NextJob, NextInstance, KindFits;
    if a.Working? && IsStart(e.jobs[a.t].stage) {
      assert StageFits(e.jobs[a.t].op, e.jobs[a.t].stage) && Fruitless(e.jobs[a.t]);
    }
  }

  lemma StepStartsNone(e: Entry, a: Action)
    requires NoStarts(e) && Can(e, a) && !a.Reserving?
    ensures NoStarts(Do(e, true, a))
  {
    hide NextJob, NextInstance;
    if a.Working? { SameOp(e, e.jobs[a.t], a.c); }
  }

  /** The moment Stop cancels: what held while the orchestrator was up is what goes on from here. */
  lemma WindSince(e: Entry)
    requires EntryOk(false, e) && AllHold(e) && UpOk(e) && STOP !in e.jobs
    ensures SinceOk(e, Overtake(e))
  {
    hide Reserved, Sound, Shaped, Shares, Budgeted, AllReportOnce, Trials, Departs, IdsOk, ShowsExit, Accounted,
         Leaves, Limits, OwnersHeld, Honest, Ends, Drained, Counted, Paid, Latched, Shared, AllHold, Reserve, Undone,
         MayCount, Renewing, Fruitless, GateSeen, NoStarts, Cold;
    SoundGate(e);
    SoundStaged(e);
    WindStarts(e);
    if !e.raced && AllFruitless(e) { WindSees(e); }
    if e.policy.factory {
      ReserveLatched(e, STOP, ShutdownOp);
      if NoneUndone(e) && !NoStarts(e) { WindShared(e); }
    } else if NoneUndone(e) {
      forall t | t in e.jobs && Renewing(e.jobs[t]) ensures Cold(e, t) { EndsCold(e, t); }
      assert Cooled(e);
      WindCooled(e);
      if !e.removed { WindCounted(e, STOP); }
    }
  }

  lemma SoundGate(e: Entry)
    requires Sound(e)
    ensures e.status.Succeeded? ==> e.policy.kind.RunOnce?
  {
    hide Staged, Pointed, Linked, Tallied, Covered;
  }

  lemma WindStarts(e: Entry)
    requires STOP !in e.jobs
    ensures var f := Reserve(e, STOP, ShutdownOp);
      && f.raced == e.raced && f.removed == e.removed && f.policy == e.policy && f.status == e.status
      && (NoStarts(e) ==> NoStarts(f))
  {
  }

  lemma WindCooled(e: Entry)
    requires STOP !in e.jobs && Cooled(e)
    ensures Cooled(Reserve(e, STOP, ShutdownOp))
  {
    var f := Reserve(e, STOP, ShutdownOp);
    forall t | t in f.jobs ensures !Undone(f.jobs[t]) && (Renewing(f.jobs[t]) ==> Cold(f, t)) {
      if t != STOP && Renewing(f.jobs[t]) { assert Cold(e, t); }
    }
  }

  lemma WindSees(e: Entry)
    requires STOP !in e.jobs && AllFruitless(e) && GateSeen(e)
    ensures AllFruitless(Reserve(e, STOP, ShutdownOp)) && GateSeen(Reserve(e, STOP, ShutdownOp))
  {
  }

  lemma ResumeSince(found: Entry, e: Entry, verified: bool)
    requires SinceOk(found, e) && Held(e)
    ensures SinceOk(found, Resume(e, verified))
  {
    hide Counted, Cooled, Latched, Shared, AllFruitless, GateSeen, NoneUndone, NoStarts;
    ResumeStarts(e, verified);
    if Cooled(e) { ResumeCooled(e, verified); }
    if Counted(e) { ResumeCounted(e, verified); }
    if Latched(e) { ResumeLatched(e, verified); }
    if Shared(e) { ResumeShared(e, verified); }
    if AllFruitless(e) && GateSeen(e) { ResumeSees(e, verified); }
  }

  lemma ResumeLatched(e: Entry, verified: bool)
    requires Latched(e) && Held(e)
    ensures Latched(Resume(e, verified))
  {
    hide CountAt;
    if STOP in e.jobs {
      var f := Resume(e, verified);
      OtherMayCount(e.jobs, STOP, f.jobs[STOP]);
      SameStarts(e, STOP, f.jobs[STOP]);
    }
  }

  lemma ResumeStarts(e: Entry, verified: bool)
    ensures NoStarts(e) ==> NoStarts(Resume(e, verified))
    ensures var f := Resume(e, verified);
      f.status == e.status && f.policy == e.policy && f.raced == e.raced && f.removed == e.removed
  {
  }

  lemma ResumeCooled(e: Entry, verified: bool)
    requires Cooled(e) && Held(e)
    ensures Cooled(Resume(e, verified))
  {
    var f := Resume(e, verified);
    forall t | t in f.jobs ensures !Undone(f.jobs[t]) && (Renewing(f.jobs[t]) ==> Cold(f, t)) {
      if t != STOP && Renewing(f.jobs[t]) { assert Cold(e, t); }
    }
  }

  lemma ResumeCounted(e: Entry, verified: bool)
    requires Counted(e) && Held(e)
    ensures Counted(Resume(e, verified))
  {
    hide Counted, OthersOf, RestartWindow, NoneOrClosed;
    if STOP in e.jobs {
      var f := Resume(e, verified);
      CountedSplit(e, STOP);
      CountedSplit(f, STOP);
      OthersStay(e.jobs, STOP, f.jobs[STOP]);
    }
  }

  lemma ResumeSees(e: Entry, verified: bool)
    requires AllFruitless(e) && GateSeen(e) && Held(e)
    ensures AllFruitless(Resume(e, verified)) && GateSeen(Resume(e, verified))
  {
  }

  lemma ReleaseSince(found: Entry, e: Entry, t: nat)
    requires EntryOk(true, e) && SinceOk(found, e) && CanRelease(e, t)
    ensures SinceOk(found, ReleaseJob(e, t))
  {
    hide EntryOk, SinceOk, ReleaseJob;
    assert Do(e, true, Releasing(t)) == ReleaseJob(e, t);
    DoSince(found, e, Releasing(t));
  }

  predicate AllSettled(instances: seq<Instance>) {
    forall k :: 0 <= k < |instances| ==> Settled(instances[k].at)
  }

  /** With the context cancelled, a goroutine at these points writes the status no more. */
  predicate Mute(at: Point) {
    at.Pending? || at.Live? || at.Sample? || at.SeeShutdown? || at.Latch? || at.Release? || Settled(at)
  }

  predicate AllMute(instances: seq<Instance>) {
    forall k :: 0 <= k < |instances| ==> Mute(instances[k].at)
  }

  /** An entry that Stop found free has Stop's job and no other. */
  ghost predicate QuietJobs(e: Entry) {
    (forall t :: t in e.jobs ==> t == STOP) && (STOP in e.jobs <==> !e.removed)
  }

  /** How far Stop has got with one entry that it found free: it stops it exactly once. */
  ghost predicate Quiet(phase: Phase, base: nat, e: Entry) {
    match phase
    case Winding => QuietJobs(e) && (!e.removed ==> e.sequences == base + B(e.jobs[STOP].stage.Hold?))
    case Waited => QuietJobs(e) && (!e.removed ==> e.sequences == base + 1)
    case Down(failed) => e.jobs == map[] && (!failed && !e.removed ==> e.sequences == base + 1)
    case _ => true
  }

  /** The operation will write no status any more but Stopped or Succeeded, unless it removes the entry. */
  predicate Spent(policy: Policy, j: Job) {
    || j.stage.Return? || j.stage.Free? || j.stage.Bless?
    || (HoldsRemoving(j.op) && (PastMark(j) || (j.stage.Mark? && j.sampled.Succeeded?)))
    || (HoldsStarting(j.op) && SpentStart(policy, j))
  }

  /** The same of a start past its last status, or of a replacement that has failed. */
  predicate SpentStart(policy: Policy, j: Job) {
    || j.stage.Unlatch? || j.stage.Enroll? || j.stage.Fit? || j.stage.Launch? ||
         (j.stage.Count? && !policy.kind.RunOnce?)
    || (!j.failed && (j.stage.Ungate? || j.stage.Settle?))
    || (j.failed && (j.stage.Await? || j.stage.Read? || j.stage.Commit? || j.stage.Account? || j.stage.Drain?))
  }

  ghost predicate AllSpent(e: Entry) {
    forall t :: t in e.jobs && t != STOP ==> Spent(e.policy, e.jobs[t])
  }

  /** The operation will add nothing to the wait group any more. */
  predicate Barren(policy: Policy, j: Job) {
    || !HoldsStarting(j.op) || !policy.kind.Persistent? || j.stage.Fit? || j.stage.Launch? || j.stage.Return?
    || (j.failed && (j.stage.Await? || j.stage.Read? || j.stage.Commit? || j.stage.Account? || j.stage.Drain?))
  }

  ghost predicate AllBarren(e: Entry) {
    forall t :: t in e.jobs ==> Barren(e.policy, e.jobs[t])
  }

  /** Stop has the entry in hand until it has ended it. */
  ghost predicate InHand(e: Entry) {
    !e.removed ==> STOP in e.jobs && match e.jobs[STOP].stage
      case Account => Ended(e.status)
      case Return => e.jobs[STOP].failed || Ended(e.status)
      case _ => true
  }

  /** How far Stop has got with one entry on which nothing can undo what Stop does. */
  ghost predicate Spending(phase: Phase, e: Entry) {
    && AllSpent(e) && (phase.Winding? ==> e.removed || STOP in e.jobs) && (phase.Waited? ==> InHand(e))
    && (phase == Down(false) && !e.removed ==> Ended(e.status))
  }

  /** Stop has reported that nothing is left running, or is about to. */
  predicate Emptied(phase: Phase) {
    phase.Waited? || phase == Down(false)
  }

  /** By the time the wait group is empty nobody but an operation writes the status; where nobody adds to
      the wait group, the entry has settled for good; and it ends as far as what Stop found lets it. */
  ghost predicate CalmOk(phase: Phase, found: Entry, e: Entry) {
    && (Emptied(phase) ==> AllMute(e.instances))
    && (AllBarren(found) ==> AllBarren(e) && (Emptied(phase) ==> AllSettled(e.instances) && e.share == 0))
    && (AllSpent(found) ==> Spending(phase, e))
    && (found.jobs == map[] ==> Quiet(phase, found.sequences, e))
  }

  lemma NextMute(e: Entry, x: Instance, c: Choice)
    requires Mute(x.at) && !x.at.Pending? && !x.at.Closed?
    ensures Mute(NextInstance(e, x, true, c).at) && StatusByInstance(e.status, x.at) == e.status
    ensures !x.at.Install? && !x.at.Respawn?
  {
    hide NextDecision, NextRestart;
  }

  lemma MuteMoves(instances: seq<Instance>, k: nat, y: Instance, at: Point)
    requires k < |instances| && AllMute(instances) && Mute(y.at) && !at.Install? && !at.Respawn?
    ensures AllMute(InstancesByInstance(instances, k, y, at))
    ensures AllSettled(instances) && Settled(y.at) ==> AllSettled(InstancesByInstance(instances, k, y, at))
  {
  }

  lemma SettledIsMute(instances: seq<Instance>)
    requires AllSettled(instances)
    ensures AllMute(instances)
  {
  }

  lemma AdvanceMutes(e: Entry, k: nat, c: Choice)
    requires Pointed(e.policy, e.instances) && AllMute(e.instances) && CanAdvance(e, k)
    ensures var f := Advance(e, k, true, c);
      && AllMute(f.instances) && f.status == e.status
      && (AllSettled(e.instances) ==> AllSettled(f.instances) && f.share == e.share)
  {
    hide NextInstance, InstancesByInstance, Follows, PointFits, StatusByInstance, AllMute, AllSettled;
    var x, y := e.instances[k], NextInstance(e, e.instances[k], true, c);
    MuteAt(e.instances, k);
    NextMute(e, x, c);
    MuteMoves(e.instances, k, y, x.at);
    InstanceFollows(e, x, true, c);
    if AllSettled(e.instances) { SettledStays(e, x, y); }
  }

  lemma AdvanceJobs(e: Entry, k: nat, c: Choice)
    requires CanAdvance(e, k)
    ensures var f := Advance(e, k, true, c);
      f.jobs == e.jobs && f.policy == e.policy && f.removed == e.removed && f.sequences == e.sequences
  {
    hide NextInstance, InstancesByInstance, StatusByInstance;
  }

  lemma AdvanceCalm(phase: Phase, found: Entry, e: Entry, k: nat, c: Choice)
    requires Pointed(e.policy, e.instances) && CalmOk(phase, found, e) && CanAdvance(e, k) && ContextDone(phase)
    ensures CalmOk(phase, found, Advance(e, k, true, c))
  {
    hide Advance, Spent, Barren, AllMute, AllSettled, CanAdvance, Pointed;
    AdvanceJobs(e, k, c);
    if Emptied(phase) { AdvanceMutes(e, k, c); }
  }

  lemma MuteAt(instances: seq<Instance>, k: nat)
    requires AllMute(instances) && k < |instances|
    ensures Mute(instances[k].at) && (AllSettled(instances) ==> Settled(instances[k].at))
  {
  }

  lemma SettledStays(e: Entry, x: Instance, y: Instance)
    requires Follows(e, x, y) && Settled(x.at)
    ensures Settled(y.at) && !x.at.Release?
  {
  }

  lemma NextSpent(e: Entry, j: Job, c: Choice)
    requires StageFits(j.op, j.stage) && Spent(e.policy, j) && !j.stage.Return? && !j.stage.Hold?
    ensures Spent(e.policy, NextJob(e, j, c))
    ensures j.stage.Remove? || StatusByJob(e.status, j, c) == e.status || Ended(StatusByJob(e.status, j, c))
  {
    hide NextStart, NextStop, StatusByJob, Spent, StageFits;
    if IsStart(j.stage) { StartSpent(e, j, c); } else { StopSpent(e, j, c); }
  }

  lemma StartSpent(e: Entry, j: Job, c: Choice)
    requires StageFits(j.op, j.stage) && Spent(e.policy, j) && IsStart(j.stage)
    ensures Spent(e.policy, NextStart(e, j, c))
    ensures StatusByJob(e.status, j, c) == e.status || Ended(StatusByJob(e.status, j, c))
  {
  }

  lemma StopSpent(e: Entry, j: Job, c: Choice)
    requires StageFits(j.op, j.stage) && Spent(e.policy, j) && !IsStart(j.stage) && !j.stage.Return? && !j.stage.Hold?
    ensures Spent(e.policy, NextStop(e, j, c))
    ensures j.stage.Remove? || StatusByJob(e.status, j, c) == e.status || Ended(StatusByJob(e.status, j, c))
  {
  }

  lemma WorkMute(instances: seq<Instance>, j: Job)
    requires AllMute(instances)
    ensures AllMute(InstancesByJob(instances, j))
  {
  }

  /** What Stop's own step leaves of the status once the wait is over. */
  lemma StopEnds(e: Entry, j: Job, c: Choice)
    requires j.op.ShutdownOp? && (j.stage.Read? || j.stage.Commit? || j.stage.Account?)
    requires j.stage.Account? ==> Ended(e.status)
    ensures var y, status := NextStop(e, j, c), StatusByJob(e.status, j, c);
      (y.stage.Account? || y.stage.Return? ==> Ended(status)) &&
          (y.stage.Commit? || y.stage.Account? || y.stage.Return?)
  {
  }

  lemma WorkSpending(phase: Phase, e: Entry, t: nat, c: Choice)
    requires Staged(e) && JobsOwned(phase, e) && Spending(phase, e) && CanWork(e, t, c) && ContextDone(phase)
    ensures Spending(phase, Work(e, t, c))
  {
    hide NextJob, InstancesByJob, StatusByJob, Spent, StageFits, KindFits;
    var f, j := Work(e, t, c), e.jobs[t];
    if t == STOP {
      if phase.Waited? && !e.removed { StopEnds(e, j, c); StopIsNoStart(e, j, c); }
    } else {
      NextSpent(e, j, c);
    }
  }

  lemma StopIsNoStart(e: Entry, j: Job, c: Choice)
    requires j.stage.Read? || j.stage.Commit? || j.stage.Account?
    ensures NextJob(e, j, c) == NextStop(e, j, c)
  {
    hide NextStop, NextStart;
  }

  lemma WorkQuiet(phase: Phase, base: nat, e: Entry, t: nat, c: Choice)
    requires JobsOwned(phase, e) && Quiet(phase, base, e) && CanWork(e, t, c) && ContextDone(phase)
    ensures Quiet(phase, base, Work(e, t, c))
  {
    hide InstancesByJob, StatusByJob, NextStart;
  }

  lemma NextBarren(e: Entry, j: Job, c: Choice)
    requires StageFits(j.op, j.stage) && Barren(e.policy, j) && !j.stage.Return? && !j.stage.Hold?
    ensures Barren(e.policy, NextJob(e, j, c))
  {
    hide NextStart, NextStop, StageFits;
    SameOp(e, j, c);
    if IsStart(j.stage) { StartBarren(e, j, c); } else { StopBarren(e, j, c); }
  }

  lemma StartBarren(e: Entry, j: Job, c: Choice)
    requires Barren(e.policy, j) && IsStart(j.stage)
    ensures Barren(e.policy, NextStart(e, j, c))
  {
  }

  lemma StopBarren(e: Entry, j: Job, c: Choice)
    requires StageFits(j.op, j.stage) && Barren(e.policy, j) && !IsStart(j.stage) && !j.stage.Return? && !j.stage.Hold?
    ensures Barren(e.policy, NextStop(e, j, c))
  {
  }

  /** On an entry with nothing in the wait group nobody is about to install or launch an instance. */
  lemma BarrenStays(e: Entry, t: nat)
    requires Sound(e) && AllBarren(e) && AllSettled(e.instances) && e.share == 0 && t in e.jobs
    ensures !e.jobs[t].stage.Fit? && !e.jobs[t].stage.Launch? && !e.jobs[t].stage.Enroll?
  {
    hide CountAt, Tallied, Pointed, Moored;
    StageOf(e, t);
    SettledLaunchesNone(e, t);
  }

  lemma SettledLaunchesNone(e: Entry, t: nat)
    requires Linked(e.jobs, e.instances) && AllSettled(e.instances) && t in e.jobs
    ensures !e.jobs[t].stage.Launch?
  {
  }

  lemma WorkBarren(phase: Phase, e: Entry, t: nat, c: Choice)
    requires Sound(e) && AllBarren(e) && CanWork(e, t, c)
    requires Emptied(phase) ==> AllSettled(e.instances) && e.share == 0
    ensures var f := Work(e, t, c);
      AllBarren(f) && (Emptied(phase) ==> AllSettled(f.instances) && f.share == 0)
  {
    hide NextJob, InstancesByJob, StatusByJob, AllSettled, Barren, Staged, Pointed, Linked, Tallied, Covered, Moored,
         KindFits, StageFits;
    StageOf(e, t);
    NextBarren(e, e.jobs[t], c);
    if Emptied(phase) {
      BarrenStays(e, t);
      SameInstances(e.instances, e.jobs[t]);
    }
  }

  lemma WorkCalm(phase: Phase, found: Entry, e: Entry, t: nat, c: Choice)
    requires Sound(e) && JobsOwned(phase, e) && CalmOk(phase, found, e) && CanWork(e, t, c) && ContextDone(phase)
    ensures CalmOk(phase, found, Work(e, t, c))
  {
    hide Quiet, NextJob, InstancesByJob, StatusByJob, AllSettled, AllMute, AllSpent, AllBarren, Spending, Sound,
         JobsOwned;
    if Emptied(phase) { WorkMute(e.instances, e.jobs[t]); }
    if AllBarren(found) { WorkBarren(phase, e, t, c); }
    if AllSpent(found) { SoundStaged(e); WorkSpending(phase, e, t, c); }
    if found.jobs == map[] { WorkQuiet(phase, found.sequences, e, t, c); }
  }

  lemma ReleaseCalm(phase: Phase, found: Entry, e: Entry, t: nat)
    requires CalmOk(phase, found, e) && t in e.jobs && t != STOP && ContextDone(phase)
    ensures CalmOk(phase, found, ReleaseJob(e, t))
  {
    hide AllSettled, AllMute, Spent, Barren;
  }

  /** Stop lets go of an entry it finds gone. */
  lemma MissCalm(found: Entry, e: Entry)
    requires CalmOk(Winding, found, e) && STOP in e.jobs && e.removed
    ensures CalmOk(Winding, found, ReleaseJob(e, STOP))
  {
    hide Spent, Barren;
  }

  lemma WindCalm(e: Entry)
    requires STOP !in e.jobs
    ensures CalmOk(Winding, e, Overtake(e))
  {
    hide Spent;
  }

  lemma WindOwned(phase: Phase, e: Entry)
    requires JobsOwned(phase, e) && !ContextDone(phase)
    ensures JobsOwned(Winding, Overtake(e))
  {
  }

  lemma ResumeBarren(e: Entry)
    requires AllBarren(e) && Held(e)
    ensures AllBarren(Resume(e, true))
  {
    hide Barren;
    if STOP in e.jobs { StopIsBarren(e.policy, Resume(e, true).jobs[STOP]); }
  }

  lemma StopIsBarren(policy: Policy, j: Job)
    requires j.op.ShutdownOp?
    ensures Barren(policy, j)
  {
  }

  lemma ResumeStill(e: Entry)
    ensures Resume(e, true).instances == e.instances && Resume(e, true).share == e.share
  {
  }

  lemma WaitSpending(e: Entry)
    requires Spending(Winding, e) && Held(e) && JobsOwned(Winding, e)
    ensures Spending(Waited, Resume(e, true))
  {
    hide Spent;
  }

  lemma WaitQuiet(base: nat, e: Entry)
    requires Quiet(Winding, base, e) && Held(e)
    ensures Quiet(Waited, base, Resume(e, true))
  {
  }

  /** The wait is over: with the wait group empty, the entry goes on to its commit. */
  lemma WaitCalm(found: Entry, e: Entry)
    requires CalmOk(Winding, found, e) && Held(e) && JobsOwned(Winding, e) && AllSettled(e.instances) && e.share == 0
    ensures CalmOk(Waited, found, Resume(e, true))
  {
    hide AllSettled, AllMute, AllBarren, AllSpent, Spending, Quiet, Held, JobsOwned, Resume;
    ResumeStill(e);
    SettledIsMute(e.instances);
    if AllBarren(e) { ResumeBarren(e); }
    if AllSpent(found) { WaitSpending(e); }
    if found.jobs == map[] { WaitQuiet(found.sequences, e); }
  }

  lemma WaitOwned(e: Entry)
    requires JobsOwned(Winding, e) && Held(e)
    ensures JobsOwned(Waited, Resume(e, true))
  {
  }

  /** The end of Stop's job on the entry. */
  function Leave(e: Entry): Entry {
    if STOP in e.jobs then ReleaseJob(e, STOP) else e
  }

  lemma LeaveOwned(phase: Phase, failed: bool, e: Entry)
    requires JobsOwned(phase, e)
    ensures JobsOwned(Down(failed), Leave(e))
  {
  }

  lemma LeaveOk(found: Entry, e: Entry)
    requires EntryOk(true, e) && SinceOk(found, e) && (STOP in e.jobs ==> CanRelease(e, STOP))
    ensures EntryOk(true, Leave(e)) && SinceOk(found, Leave(e))
  {
    hide EntryOk, SinceOk;
    if STOP in e.jobs {
      assert Do(e, true, Releasing(STOP)) == ReleaseJob(e, STOP);
      DoOk(true, e, Releasing(STOP));
      ReleaseSince(found, e, STOP);
    }
  }

  lemma FinishCalm(failed: bool, found: Entry, e: Entry)
    requires CalmOk(Waited, found, e)
    requires STOP in e.jobs ==> e.jobs[STOP].stage == Stage.Return && (!failed ==> !e.jobs[STOP].failed)
    ensures CalmOk(Down(failed), found, Leave(e))
  {
    hide AllSettled, AllMute, Spent, Barren;
  }

  /** Whether Stop notes the timeout first makes no difference to what it leaves. */
  lemma LeaveAnyway(e: Entry)
    ensures Leave(Resume(e, false)) == Leave(e)
  {
    if STOP in e.jobs { assert Resume(e, false).jobs - {STOP} == e.jobs - {STOP}; }
  }

  lemma TimeOutCalm(found: Entry, e: Entry)
    requires CalmOk(Winding, found, e)
    ensures CalmOk(Down(true), found, Leave(e))
  {
    hide AllSettled, AllMute, AllSpent, AllBarren, Quiet, Spending, Leave;
    LeaveStill(e);
    if AllSpent(found) { TimeOutSpending(e); }
    if found.jobs == map[] { TimeOutQuiet(found.sequences, e); }
  }

  lemma LeaveStill(e: Entry)
    ensures var f := Leave(e); f.instances == e.instances && f.share == e.share && (AllBarren(e) ==> AllBarren(f))
  {
    hide Barren;
  }

  lemma TimeOutSpending(e: Entry)
    requires Spending(Winding, e)
    ensures Spending(Down(true), Leave(e))
  {
    hide Spent;
  }

  lemma TimeOutQuiet(base: nat, e: Entry)
    requires Quiet(Winding, base, e)
    ensures Quiet(Down(true), base, Leave(e))
  {
  }
}
