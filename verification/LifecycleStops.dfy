/** The public Stops metric: an instance that was put up is counted as stopped at most once. */
module LifecycleStops {
  import opened Services
  import opened Lifecycle
  import opened LifecycleFlow
  import opened LifecycleSafety
  import opened LifecycleSound
  import opened LifecycleEnds

  /** A start that has renewed the stop latch and not counted its instance yet. */
  predicate StartWindow(stage: Stage) {
    stage.Hook? || stage.Own? || stage.Arm? || stage.Run? || stage.Count?
  }

  /** A start that may still come to nothing. */
  predicate EarlyStart(stage: Stage) {
    stage.Guard? || stage.Hook? || stage.Schedule?
  }

  /** A restart that has renewed the stop latch and not launched its heir yet. */
  predicate RestartWindow(instances: seq<Instance>) {
    || (|instances| > 0 && (instances[|instances| - 1].at.NewOwner? || instances[|instances| - 1].at.Install?))
    || (|instances| > 1 && HandsOver(instances[|instances| - 2].at))
  }

  ghost predicate Window(e: Entry) {
    RestartWindow(e.instances) || exists t :: t in e.jobs && StartWindow(e.jobs[t].stage)
  }

  /** A stop that saw the entry active and has not counted it yet. */
  predicate MayCount(j: Job) {
    Active(j.sampled) &&
    (j.stage.Mark? || j.stage.Sequence? || j.stage.Await? || j.stage.Hold? || j.stage.Read? || j.stage.Commit? ||
        j.stage.Account?)
  }

  /** A start that is bound to put an instance up, or has done so. */
  predicate DeepStart(stage: Stage) {
    IsStart(stage) && !EarlyStart(stage)
  }

  /** Nothing runs that could count a stop. */
  ghost predicate Calm(e: Entry) {
    && !Active(e.status) && NoneOrClosed(e.instances)
    && forall t :: t in e.jobs ==> !DeepStart(e.jobs[t].stage) && !MayCount(e.jobs[t])
  }

  /** An open latch is one more stop to come: stops and what the latch still allows stay within what was
      launched or is about to be, unless nobody is there to count. */
  ghost predicate Counted(e: Entry) {
    && (forall t :: t in e.jobs && EarlyStart(e.jobs[t].stage) ==>
          e.stops <= e.launched && !Active(e.status) && forall s :: s in e.jobs ==> !MayCount(e.jobs[s]))
    && (e.stops + B(!e.stopsCounted) <= e.launched + B(Window(e)) || (e.stops <= e.launched && Calm(e)))
    && (e.status.Starting? ==> exists t :: t in e.jobs && Arming(e.jobs[t].stage))
  }

  lemma NextOfRestart(e: Entry, x: Instance, ctxDone: bool, c: Choice)
    ensures var y := NextInstance(e, x, ctxDone, c); !x.at.Pending? && !x.at.Closed? ==>
              (y.at.NewOwner? <==> x.at.Rearm?) && (y.at.Install? <==> x.at.NewOwner?)
  {
    hide NextExit, NextDecision, NextTail;
    if !x.at.Pending? && !x.at.Closed? { NextChecks(e, x, ctxDone, c); }
  }

  lemma AdvanceWindow(e: Entry, k: nat, y: Instance)
    requires CanAdvance(e, k) && PointsFit(e.policy, e.instances) && OneActs(e.policy.factory, e.instances)
    requires Follows(e, e.instances[k], y)
    requires (y.at.NewOwner? <==> e.instances[k].at.Rearm?) && (y.at.Install? <==> e.instances[k].at.NewOwner?)
    ensures var x, after := e.instances[k], InstancesByInstance(e.instances, k, y, e.instances[k].at);
      && B(RestartWindow(after)) == B(RestartWindow(e.instances)) + B(x.at.Rearm?) - B(x.at.Respawn?)
      && (NoneOrClosed(e.instances) ==> Settled(x.at))
  {
  }

  /** No start is early or within its window while an instance can act. */
  lemma NoStartWindow(e: Entry, t: nat)
    requires Shaped(e) && t in e.jobs && !NoneOrClosed(e.instances)
    ensures !StartWindow(e.jobs[t].stage) && !EarlyStart(e.jobs[t].stage)
  {
    assert Fits(e, e.jobs[t]);
  }

  lemma AdvanceCounted(e: Entry, k: nat, ctxDone: bool, c: Choice)
    requires Shaped(e) && Counted(e) && CanAdvance(e, k)
    ensures Counted(Advance(e, k, ctxDone, c))
  {
    hide NextInstance, OneActs, PointsFit, InstancesByInstance, RestartWindow, NoneOrClosed, Fits, StartWindow,
         EarlyStart, DeepStart, MayCount, Arming, Tethered;
    var x, y, f := e.instances[k], NextInstance(e, e.instances[k], ctxDone, c), Advance(e, k, ctxDone, c);
    assert PointFits(e.policy.factory, x.at) by { PointOf(e, k); }
    InstanceFollows(e, x, ctxDone, c);
    NextOfRestart(e, x, ctxDone, c);
    AdvanceWindow(e, k, y);
    AdvanceKeeps(e, k, y);
    if !NoneOrClosed(e.instances) {
      forall t | t in e.jobs ensures !StartWindow(e.jobs[t].stage) &&
          !EarlyStart(e.jobs[t].stage) { NoStartWindow(e, t); }
    }
  }

  /** What one job has to know of the others. */
  datatype Others = Others(window: bool, early: bool, deep: bool, may: bool, arming: bool)

  ghost function OthersOf(jobs: map<nat, Job>, t: nat): Others {
    Others(exists s :: s in jobs && s != t && StartWindow(jobs[s].stage),
        exists s :: s in jobs && s != t && EarlyStart(jobs[s].stage),
           exists s :: s in jobs && s != t && DeepStart(jobs[s].stage),
               exists s :: s in jobs && s != t && MayCount(jobs[s]),
           exists s :: s in jobs && s != t && Arming(jobs[s].stage))
  }

  /** Counted, seen from one job. */
  predicate CountedWith(status: Status, instances: seq<Instance>, latch: bool, stops: nat, launched: nat, j: Job,
      o: Others) {
    && (EarlyStart(j.stage) || o.early ==> stops <= launched && !Active(status) && !MayCount(j) && !o.may)
    && (|| stops + B(!latch) <= launched + B(RestartWindow(instances) || StartWindow(j.stage) || o.window)
        || (stops <= launched && !Active(status) && NoneOrClosed(instances) && !DeepStart(j.stage) && !o.deep &&
             !MayCount(j) && !o.may))
    && (status.Starting? ==> Arming(j.stage) || o.arming)
  }

  lemma CountedSplit(e: Entry, t: nat)
    requires t in e.jobs
    ensures Counted(e) <==> CountedWith(e.status, e.instances, e.stopsCounted, e.stops, e.launched, e.jobs[t],
        OthersOf(e.jobs, t))
  {
    hide RestartWindow, StartWindow, EarlyStart, DeepStart, MayCount, Arming, NoneOrClosed;
    var o := OthersOf(e.jobs, t);
    assert Window(e) <==> RestartWindow(e.instances) || StartWindow(e.jobs[t].stage) || o.window;
    assert (exists s :: s in e.jobs && MayCount(e.jobs[s])) <==> MayCount(e.jobs[t]) || o.may;
    assert (exists s :: s in e.jobs && EarlyStart(e.jobs[s].stage)) <==> EarlyStart(e.jobs[t].stage) || o.early;
    assert (exists s :: s in e.jobs && DeepStart(e.jobs[s].stage)) <==> DeepStart(e.jobs[t].stage) || o.deep;
    assert (exists s :: s in e.jobs && Arming(e.jobs[s].stage)) <==> Arming(e.jobs[t].stage) || o.arming;
  }

  lemma OthersStay(jobs: map<nat, Job>, t: nat, j: Job)
    ensures OthersOf(jobs[t := j], t) == OthersOf(jobs, t)
  {
    hide StartWindow, EarlyStart, DeepStart, MayCount, Arming;
    assert forall s :: s != t ==> (s in jobs[t := j] <==> s in jobs);
  }

  lemma EarlyCounted(e: Entry, j: Job, c: Choice, o: Others)
    requires CountedWith(e.status, e.instances, e.stopsCounted, e.stops, e.launched, j, o)
    requires IsStart(j.stage) && StartFits(e.policy, e.removed, e.instances, j) && !j.stage.Fit? && !j.stage.Launch?
    requires !RestartWindow(e.instances) && !o.window && !o.early && !o.deep && !o.arming && EarlyStart(j.stage)
    ensures CountedWith(StatusByJob(e.status, j, c), e.instances, e.stopsCounted && !LatchReset(e, j), e.stops,
                        e.launched + B(j.stage.Count?), NextStart(e, j, c), o)
  {
    hide RestartWindow;
  }

  lemma DeepCounted(e: Entry, j: Job, c: Choice, o: Others)
    requires CountedWith(e.status, e.instances, e.stopsCounted, e.stops, e.launched, j, o)
    requires IsStart(j.stage) && StartFits(e.policy, e.removed, e.instances, j) && !j.stage.Fit? && !j.stage.Launch?
    requires !RestartWindow(e.instances) && !o.window && !o.early && !o.deep && !o.arming && !EarlyStart(j.stage)
    ensures CountedWith(StatusByJob(e.status, j, c), e.instances, e.stopsCounted && !LatchReset(e, j), e.stops,
                        e.launched + B(j.stage.Count?), NextStart(e, j, c), o)
  {
    hide RestartWindow;
  }

  lemma StartCounted(e: Entry, j: Job, c: Choice, o: Others)
    requires CountedWith(e.status, e.instances, e.stopsCounted, e.stops, e.launched, j, o)
    requires IsStart(j.stage) && StartFits(e.policy, e.removed, e.instances, j) && !j.stage.Fit? && !j.stage.Launch?
    requires OneActs(e.policy.factory, e.instances) && !o.window && !o.early && !o.deep && !o.arming
    ensures CountedWith(StatusByJob(e.status, j, c), e.instances, e.stopsCounted && !LatchReset(e, j), e.stops,
                        e.launched + B(j.stage.Count?), NextStart(e, j, c), o)
  {
    hide OneActs, RestartWindow, CountedWith, StatusByJob, NextStart, LatchReset, EarlyStart;
    ClosedNoRestart(e);
    if EarlyStart(j.stage) { EarlyCounted(e, j, c, o); } else { DeepCounted(e, j, c, o); }
  }

  lemma ClosedNoRestart(e: Entry)
    requires OneActs(e.policy.factory, e.instances) && NoneOrClosed(e.instances)
    ensures !RestartWindow(e.instances)
  {
  }

  lemma InstallCounted(e: Entry, j: Job, c: Choice, o: Others)
    requires CountedWith(e.status, e.instances, e.stopsCounted, e.stops, e.launched, j, o)
    requires StartFits(e.policy, e.removed, e.instances, j) && (j.stage.Fit? || j.stage.Launch?)
    requires OneActs(e.policy.factory, e.instances) && PointsFit(e.policy, e.instances) && !o.early && !o.arming
    ensures CountedWith(e.status, InstancesByJob(e.instances, j), e.stopsCounted, e.stops, e.launched,
        NextStart(e, j, c), o)
  {
    hide NextStop;
  }

  /** A stop begins to count only when it samples an active status. */
  lemma NextMayCount(e: Entry, j: Job, c: Choice)
    requires !IsStart(j.stage) && !j.stage.Return? && !j.stage.Hold?
    ensures MayCount(NextStop(e, j, c)) ==> MayCount(j) || (j.stage.Begin? && Active(e.status))
  {
  }

  lemma StopCalms(status: Status, j: Job, c: Choice)
    requires !IsStart(j.stage)
    ensures Active(StatusByJob(status, j, c)) ==> StatusByJob(status, j, c) == status
  {
  }

  lemma NoStart(stage: Stage)
    requires !IsStart(stage)
    ensures !StartWindow(stage) && !EarlyStart(stage) && !DeepStart(stage) && !Arming(stage)
  {
  }

  lemma StopCounted(e: Entry, j: Job, c: Choice, o: Others)
    requires CountedWith(e.status, e.instances, e.stopsCounted, e.stops, e.launched, j, o)
    requires !IsStart(j.stage) && !j.stage.Return? && !j.stage.Hold? && !j.stage.Remove? && !j.stage.Rewind?
    ensures CountedWith(StatusByJob(e.status, j, c), e.instances, e.stopsCounted || Counts(e, j),
                        e.stops + B(Counts(e, j)), e.launched, NextStop(e, j, c), o)
  {
    hide RestartWindow, NoneOrClosed, NextStop, StatusByJob, StartWindow, EarlyStart, DeepStart, Arming;
    StopStartsByRewind(e, j, c);
    NoStart(j.stage);
    NoStart(NextStop(e, j, c).stage);
    NextMayCount(e, j, c);
    StopCalms(e.status, j, c);
  }

  lemma RewindCounted(e: Entry, j: Job, c: Choice, o: Others)
    requires CountedWith(e.status, e.instances, e.stopsCounted, e.stops, e.launched, j, o)
    requires j.stage.Rewind? && !Active(e.status) && NoneOrClosed(e.instances) && !RestartWindow(e.instances)
    requires !o.may && !o.deep && !o.window
    ensures CountedWith(e.status, e.instances, false, e.stops, e.launched, NextStop(e, j, c), o)
  {
    hide RestartWindow, NoneOrClosed;
  }

  /** A replacement that has not stopped what it found, and one that has and will renew the latch. */
  predicate Undone(j: Job) {
    j.op.ReplaceOp? && (j.stage.Validate? || j.stage.Cancel? || j.stage.Watch? || j.stage.Begin? || j.stage.Mark? ||
                        j.stage.Sequence? || j.stage.Await? || j.stage.Read? || j.stage.Commit?)
  }

  predicate Renewing(j: Job) {
    j.op.ReplaceOp? && (j.stage.Account? || (j.stage.Drain? && !j.failed) || j.stage.Wipe? || j.stage.Rewind?)
  }

  ghost predicate NoneUndone(e: Entry) {
    forall t :: t in e.jobs ==> !Undone(e.jobs[t])
  }

  /** Nobody else will count the stop that this job is about to write off. */
  ghost predicate Cold(e: Entry, t: nat) {
    !Active(e.status) && forall s :: s in e.jobs && s != t ==> !MayCount(e.jobs[s])
  }

  /** No replacement renews the latch under a stop that saw the entry active. */
  ghost predicate Cooled(e: Entry) {
    forall t :: t in e.jobs ==> !Undone(e.jobs[t]) && (Renewing(e.jobs[t]) ==> Cold(e, t))
  }

  /** Besides a start there is at most the whole Stop, which starts nothing. */
  lemma StartsOnly(e: Entry, t: nat)
    requires Reserved(e) && Shaped(e) && t in e.jobs && IsStart(e.jobs[t].stage)
    ensures var o := OthersOf(e.jobs, t); !o.window && !o.early && !o.deep && !o.arming
  {
    hide StartFits, StopFlags, StopSees, PointsFit, OneActs, Tethered;
    forall s | s in e.jobs && s != t ensures !IsStart(e.jobs[s].stage) {
      assert Fits(e, e.jobs[t]) && Fits(e, e.jobs[s]);
      OtherJobs(e, s, t);
    }
  }

  lemma AloneIsOnly(jobs: map<nat, Job>, t: nat)
    requires forall s :: s in jobs ==> s == t
    ensures OthersOf(jobs, t) == Others(false, false, false, false, false)
  {
  }

  /** Besides a replacement that renews the latch there is at most the whole Stop. */
  lemma RewindsOnly(e: Entry, t: nat)
    requires Reserved(e) && Shaped(e) && t in e.jobs && e.jobs[t].op.ReplaceOp? && Cold(e, t)
    ensures var o := OthersOf(e.jobs, t); !o.may && !o.deep && !o.window
  {
    hide StartFits, StopFlags, StopSees, PointsFit, OneActs, Tethered;
    forall s | s in e.jobs && s != t ensures !IsStart(e.jobs[s].stage) {
      assert Fits(e, e.jobs[s]);
      OtherJobs(e, s, t);
    }
  }

  lemma WorkCounted(e: Entry, t: nat, c: Choice)
    requires Reserved(e) && Shaped(e) && Counted(e) && CanWork(e, t, c) && !Work(e, t, c).removed
    requires e.jobs[t].stage.Rewind? ==> Cold(e, t)
    ensures Counted(Work(e, t, c))
  {
    hide NextStart, NextStop, StatusByJob, InstancesByJob, CountedWith, Counted, Reserved, PointsFit, OneActs,
         StageFits, StartFits, StopFlags, StopSees, RestartWindow, LatchReset, Counts, NoneOrClosed, Latest, OthersOf,
         Tethered, Cut;
    var f, j, o := Work(e, t, c), e.jobs[t], OthersOf(e.jobs, t);
    CountedSplit(e, t);
    CountedSplit(f, t);
    OthersStay(e.jobs, t, NextJob(e, j, c));
    assert Fits(e, j);
    ResetsAndCounts(e, j);
    if j.stage.Fit? || j.stage.Launch? {
      StartsOnly(e, t);
      StatusUntouched(e, j, c);
      InstallCounted(e, j, c, o);
    } else if IsStart(j.stage) {
      StartsOnly(e, t);
      SameInstances(e.instances, j);
      StartCounted(e, j, c, o);
    } else {
      SameInstances(e.instances, j);
      if j.stage.Rewind? {
        RewindIsReplace(j);
        RewindsOnly(e, t);
        RewindIsCalm(e, t);
        StatusUntouched(e, j, c);
        RewindCounted(e, j, c, o);
      } else {
        StopCounted(e, j, c, o);
      }
    }
  }

  /** Which steps renew the latch, and which count. */
  lemma ResetsAndCounts(e: Entry, j: Job)
    ensures IsStart(j.stage) ==> !Counts(e, j)
    ensures j.stage.Fit? || j.stage.Launch? ==> !LatchReset(e, j)
    ensures !IsStart(j.stage) && !j.stage.Remove? ==> (LatchReset(e, j) <==> j.stage.Rewind?)
    ensures j.stage.Rewind? ==> !Counts(e, j)
  {
  }

  lemma StatusUntouched(e: Entry, j: Job, c: Choice)
    requires j.stage.Fit? || j.stage.Launch? || j.stage.Rewind?
    ensures StatusByJob(e.status, j, c) == e.status
  {
  }

  lemma RewindIsCalm(e: Entry, t: nat)
    requires Shaped(e) && t in e.jobs && e.jobs[t].stage.Rewind?
    ensures NoneOrClosed(e.instances) && !RestartWindow(e.instances)
  {
    hide OneActs, RestartWindow, Tethered;
    assert Fits(e, e.jobs[t]);
    ClosedNoRestart(e);
  }

  lemma FreeHasNoJob(e: Entry)
    requires Reserved(e) && AllHold(e) && !e.starting && !e.removing
    ensures e.jobs == map[]
  {
    assert forall s :: s in e.jobs ==> HoldsStarting(e.jobs[s].op) || HoldsRemoving(e.jobs[s].op);
  }

  lemma ReserveCounted(e: Entry, t: nat, op: Op)
    requires Reserved(e) && Shaped(e) && AllHold(e) && Counted(e) && t !in e.jobs && CanReserve(e, op) && Holds(op)
    ensures Counted(Reserve(e, t, op))
  {
    hide OneActs, PointsFit, Tethered, OthersOf;
    var f := Reserve(e, t, op);
    FreeHasNoJob(e);
    assert forall s :: s in f.jobs ==> s == t;
    CountedSplit(f, t);
    AloneIsOnly(f.jobs, t);
    if op.StartOp? { ClosedNoRestart(e); }
  }

  /** The job of a whole Stop changes nothing before it has sampled the status. */
  lemma WindCounted(e: Entry, t: nat)
    requires Counted(e) && t !in e.jobs
    ensures Counted(Reserve(e, t, ShutdownOp))
  {
    hide RestartWindow, NoneOrClosed;
    var f := Reserve(e, t, ShutdownOp);
    assert forall s :: s in e.jobs ==> s in f.jobs && f.jobs[s] == e.jobs[s];
    assert Window(f) == Window(e);
    assert Calm(e) ==> Calm(f);
  }

  lemma ReleaseCounted(e: Entry, t: nat)
    requires Counted(e) && CanRelease(e, t)
    ensures Counted(ReleaseJob(e, t))
  {
    hide RestartWindow, NoneOrClosed;
    var f := ReleaseJob(e, t);
    assert forall s :: s in e.jobs && s != t ==> s in f.jobs && f.jobs[s] == e.jobs[s];
    assert Window(f) == Window(e);
    assert Calm(e) ==> Calm(f);
  }

  /** Short of a shutdown a replacement that renews the latch is the only operation, and has ended the entry. */
  lemma EndsCold(e: Entry, t: nat)
    requires Reserved(e) && Shaped(e) && Ends(e) && Drained(e) && t in e.jobs && Renewing(e.jobs[t])
    ensures Cold(e, t)
  {
    hide OneActs, PointsFit, Tethered, Reserved, AllHold, StopSees, StartFits, MayCount;
    forall s | s in e.jobs ensures s == t { OnlyJob(e, t, s); }
    assert Fits(e, e.jobs[t]) && Stops(e.jobs[t]) && EndsWell(e.status, e.jobs[t]);
  }

  lemma RenewsClosed(e: Entry, t: nat)
    requires Shaped(e) && t in e.jobs && Renewing(e.jobs[t])
    ensures NoneOrClosed(e.instances)
  {
    hide OneActs, PointsFit, Tethered, StartFits;
    assert Fits(e, e.jobs[t]);
  }

  lemma NextRenews(e: Entry, j: Job, c: Choice)
    requires StageFits(j.op, j.stage) && !j.stage.Return? && !j.stage.Hold? && !Undone(j)
    ensures !Undone(NextJob(e, j, c)) && (Renewing(NextJob(e, j, c)) ==> Renewing(j))
    ensures Renewing(j) ==> StatusByJob(e.status, j, c) == e.status
  {
    hide NextStart, NextStop, StatusByJob, Undone, Renewing, StageFits;
    if Renewing(j) { RenewsSilently(e.status, j, c); }
    if IsStart(j.stage) {
      StartGoesOn(e, j, c);
      StartRenewsNone(NextStart(e, j, c));
    } else {
      StopRenews(e, j, c);
    }
  }

  lemma RenewsSilently(status: Status, j: Job, c: Choice)
    requires Renewing(j)
    ensures StatusByJob(status, j, c) == status
  {
  }

  lemma StartRenewsNone(j: Job)
    requires IsStart(j.stage) || j.stage.Return?
    ensures !Undone(j) && !Renewing(j)
  {
  }

  lemma StopRenews(e: Entry, j: Job, c: Choice)
    requires StageFits(j.op, j.stage) && !IsStart(j.stage) && !j.stage.Return? && !j.stage.Hold? && !Undone(j)
    ensures !Undone(NextStop(e, j, c)) && (Renewing(NextStop(e, j, c)) ==> Renewing(j))
  {
  }

  /** What Cold asks of the job of a whole Stop. */
  lemma StopStaysCold(e: Entry, j: Job, c: Choice)
    requires !Active(e.status) && !MayCount(j) && !IsStart(j.stage) && !j.stage.Return? && !j.stage.Hold?
    ensures !Active(StatusByJob(e.status, j, c)) && !MayCount(NextStop(e, j, c))
  {
    NextMayCount(e, j, c);
    StopCalms(e.status, j, c);
  }

  lemma WorkCooled(e: Entry, t: nat, c: Choice)
    requires Reserved(e) && Shaped(e) && Cooled(e) && CanWork(e, t, c)
    ensures Cooled(Work(e, t, c))
  {
    hide NextStart, NextStop, StatusByJob, Undone, Renewing, MayCount, OneActs, PointsFit, StartFits, StopFlags,
         StopSees, Tethered, Latest, StageFits;
    var f, j := Work(e, t, c), e.jobs[t];
    assert Fits(e, j);
    SameOp(e, j, c);
    NextRenews(e, j, c);
    forall s | s in f.jobs ensures !Undone(f.jobs[s]) && (Renewing(f.jobs[s]) ==> Cold(f, s)) {
      if s != t && Renewing(e.jobs[s]) {
        OtherIsStop(e, s, t);
        StopStaysCold(e, j, c);
      }
    }
  }

  lemma OtherIsStop(e: Entry, s: nat, t: nat)
    requires Reserved(e) && Shaped(e) && s in e.jobs && t in e.jobs && s != t && Renewing(e.jobs[s])
    ensures !IsStart(e.jobs[t].stage)
  {
    hide StartFits, StopFlags, StopSees, PointsFit, OneActs, Tethered;
    assert Fits(e, e.jobs[t]);
    OtherJobs(e, t, s);
  }

  lemma AdvanceCooled(e: Entry, k: nat, ctxDone: bool, c: Choice)
    requires Shaped(e) && Cooled(e) && CanAdvance(e, k)
    ensures Cooled(Advance(e, k, ctxDone, c))
  {
    hide Advance, PointsFit, OneActs, Fits, Undone, Renewing, MayCount, NoneOrClosed, Tethered, Latest;
    AdvanceCut(e, k, ctxDone, c);
    forall t | t in e.jobs && Renewing(e.jobs[t]) ensures Cold(Advance(e, k, ctxDone, c), t) {
      RenewsClosed(e, t);
      ClosedIsStill(e, k, ctxDone, c);
    }
  }

  /** Once cool, an entry stays so as long as nobody claims it. */
  lemma StepCooled(e: Entry, ctxDone: bool, a: Action)
    requires Reserved(e) && Shaped(e) && Cooled(e) && Can(e, a) && !a.Reserving?
    ensures Cooled(Do(e, ctxDone, a))
  {
    hide Reserved, Shaped, Work, Advance, CanWork, CanAdvance, Undone, Renewing, MayCount;
    match a
    case Working(t, c) => WorkCooled(e, t, c);
    case Releasing(t) =>
    case Advancing(k, c) => AdvanceCooled(e, k, ctxDone, c);
  }

  lemma RewindRenews(e: Entry, t: nat)
    requires Shaped(e) && t in e.jobs && e.jobs[t].stage.Rewind?
    ensures Renewing(e.jobs[t])
  {
    hide StartFits, StopFlags, StopSees, PointsFit, OneActs, Tethered;
    assert Fits(e, e.jobs[t]);
  }

  /** Every step of an operation or an instance keeps the stops within the launches, unless it removes the
      entry, or a replacement renews the latch under a whole Stop that saw the entry active. */
  lemma StepCounted(e: Entry, ctxDone: bool, a: Action)
    requires Reserved(e) && Shaped(e) && Counted(e) && Can(e, a) && (a.Reserving? ==> AllHold(e) && Holds(a.op))
    requires (Ends(e) && Drained(e)) || Cooled(e)
    requires !Do(e, ctxDone, a).removed
    ensures Counted(Do(e, ctxDone, a))
  {
    hide Reserved, Shaped, Ends, Drained, Counted, Reserve, ReleaseJob, Work, Advance, CanReserve, CanRelease,
         CanAdvance, AllHold, Cold, Renewing, Undone;
    match a
    case Reserving(t, op) => ReserveCounted(e, t, op);
    case Working(t, c) =>
      if e.jobs[t].stage.Rewind? {
        RewindRenews(e, t);
        if Ends(e) && Drained(e) { EndsCold(e, t); }
      }
      WorkCounted(e, t, c);
    case Releasing(t) => ReleaseCounted(e, t);
    case Advancing(k, c) => AdvanceCounted(e, k, ctxDone, c);
  }

  /** Stops never exceed Starts plus Restarts, once every launch is counted and none is under way. */
  lemma StopsWithinLaunches(e: Entry)
    requires Counted(e) && Tallied(e)
    ensures e.stops <= e.starts + e.restarts + Untallied(e.instances) + B(Window(e))
    ensures !Window(e) && (forall k :: 0 <= k < |e.instances| ==> !e.instances[k].at.Tally?) ==>
        e.stops <= e.starts + e.restarts
  {
    CountNone(e.instances, Tallies);
  }
}
