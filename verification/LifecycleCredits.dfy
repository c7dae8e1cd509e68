/** The public Stops metric of a self-healing service, however late it was replaced: what is counted as stopped
    was seen active, and what is seen active was launched. */
module LifecycleCredits {
  import opened Services
  import opened Lifecycle
  import opened LifecycleFlow
  import opened LifecycleSafety
  import opened LifecycleShares
  import opened LifecycleSound
  import opened LifecycleEnds
  import opened LifecycleStops

  /** A restart that has said Running and not launched its heir yet. */
  predicate Revived(at: Point) {
    at.Respawn?
  }

  /** A restart that has renewed the stop latch and not said Running yet. */
  predicate Renewed(at: Point) {
    at.NewOwner? || at.Install? || at.Revive?
  }

  /** What has been launched, or is said to run already. */
  function Credit(e: Entry): nat {
    e.launched + CountAt(e.instances, Revived)
  }

  function Restarts(e: Entry): nat {
    CountAt(e.instances, Renewed)
  }

  /** A start between its first status and its launch. */
  predicate Launching(stage: Stage) {
    stage.Own? || stage.Arm? || stage.Run? || stage.Count?
  }

  /** What one operation has seen or may still see: at its mark it takes what it saw over from the status. */
  function Due(status: Status, j: Job): nat {
    if Launching(j.stage) || (MayCount(j) && j.stage.Mark?) then 1 else B(MayCount(j)) + B(Active(status))
  }

  /** As long as one operation at a time works on the entry, a status that says it is up, or an operation
      that saw it, is one launch that no stop is counted for. */
  ghost predicate Paid(e: Entry) {
    && (e.jobs == map[] ==> e.stops + B(Active(e.status)) <= Credit(e))
    && forall t :: t in e.jobs ==>
         e.stops + Due(e.status, e.jobs[t]) <= Credit(e) + B(Launching(e.jobs[t].stage))
  }

  ghost predicate Starts(jobs: map<nat, Job>) {
    exists t :: t in jobs && StartWindow(jobs[t].stage)
  }

  ghost predicate SomeMayCount(jobs: map<nat, Job>) {
    exists t :: t in jobs && MayCount(jobs[t])
  }

  /** An open latch is one launch that no stop is counted for; or nobody is there to count, and every stop is
      one of a launch. */
  ghost predicate Latched(e: Entry) {
    || e.stops + B(!e.stopsCounted) <= Credit(e) + Restarts(e) + B(Starts(e.jobs))
    || (e.stops <= Credit(e) && !Active(e.status) && !SomeMayCount(e.jobs))
  }

  lemma NextCredit(e: Entry, x: Instance, ctxDone: bool, c: Choice)
    requires !x.at.Pending? && !x.at.Closed? && PointFits(e.policy.factory, x.at) && e.policy.factory
    ensures var y := NextInstance(e, x, ctxDone, c);
      && (Revived(y.at) <==> x.at.Revive?) && (Renewed(y.at) <==> x.at.Rearm? || x.at.NewOwner? || x.at.Install?)
      && !x.at.CountStop? && (Active(StatusByInstance(e.status, x.at)) ==> x.at.Revive? || Active(e.status))
  {
    InstanceFollows(e, x, ctxDone, c);
    NextOfRestart(e, x, ctxDone, c);
    hide NextInstance;
  }

  lemma AdvanceCounts(e: Entry, k: nat, ctxDone: bool, c: Choice)
    requires Sound(e) && CanAdvance(e, k) && e.policy.factory
    ensures var x, f := e.instances[k], Advance(e, k, ctxDone, c);
      && CountAt(f.instances, Revived) == CountAt(e.instances, Revived) + B(x.at.Revive?) - B(x.at.Respawn?)
      && CountAt(f.instances, Renewed) == CountAt(e.instances, Renewed) + B(x.at.Rearm?) - B(x.at.Revive?)
  {
    hide NextInstance, Staged, Linked, Tallied, Covered, Moored, Follows, StatusByInstance, InstancesByInstance,
         PointFits, CountAt;
    var x, y := e.instances[k], NextInstance(e, e.instances[k], ctxDone, c);
    InstanceFollows(e, x, ctxDone, c);
    NextCredit(e, x, ctxDone, c);
    MoveLinks(e.jobs, e, k, y);
    MoveCount(e, k, y, Revived);
    MoveCount(e, k, y, Renewed);
  }

  /** What one step of a goroutine does to the credits. */
  lemma AdvanceCredit(e: Entry, k: nat, ctxDone: bool, c: Choice)
    requires Sound(e) && CanAdvance(e, k) && e.policy.factory
    ensures var x, f := e.instances[k], Advance(e, k, ctxDone, c);
      && Credit(f) == Credit(e) + B(x.at.Revive?) && Restarts(f) == Restarts(e) + B(x.at.Rearm?) - B(x.at.Revive?)
      && f.stops == e.stops && f.jobs == e.jobs && f.stopsCounted == (e.stopsCounted && !x.at.Rearm?)
      && (Active(f.status) ==> x.at.Revive? || Active(e.status))
  {
    hide NextInstance, Staged, Linked, Tallied, Covered, Moored, StatusByInstance, InstancesByInstance, PointFits,
         CountAt;
    NextCredit(e, e.instances[k], ctxDone, c);
    AdvanceCounts(e, k, ctxDone, c);
  }

  /** And one step of an operation. */
  lemma WorkCredit(e: Entry, t: nat, c: Choice)
    requires Sound(e) && CanWork(e, t, c)
    ensures var f := Work(e, t, c);
      Credit(f) == Credit(e) + B(e.jobs[t].stage.Count?) && Restarts(f) == Restarts(e)
  {
    hide NextJob, Staged, Tallied, Covered, Moored, Pointed, InstancesByJob, StatusByJob;
    WorkCount(e, e.jobs[t], Revived);
    WorkCount(e, e.jobs[t], Renewed);
  }

  /** An operation never owes more than the launches it adds. */
  lemma DuePays(e: Entry, j: Job, c: Choice)
    requires StageFits(j.op, j.stage) && KindFits(e.policy, j.stage) && e.policy.kind.Persistent?
    requires !j.stage.Return? && !j.stage.Hold?
    ensures var y := NextJob(e, j, c);
      B(Counts(e, j)) + Due(StatusByJob(e.status, j, c), y) + B(Launching(j.stage)) <=
        Due(e.status, j) + B(j.stage.Count?) + B(Launching(y.stage))
  {
    hide NextStart, NextStop, Due, StatusByJob, Counts, StageFits, KindFits;
    if IsStart(j.stage) { StartPays(e, j, c); } else { StopPays(e, j, c); }
  }

  lemma StartPays(e: Entry, j: Job, c: Choice)
    requires KindFits(e.policy, j.stage) && e.policy.kind.Persistent? && IsStart(j.stage)
    ensures var y := NextStart(e, j, c);
      B(Counts(e, j)) + Due(StatusByJob(e.status, j, c), y) + B(Launching(j.stage)) <=
        Due(e.status, j) + B(j.stage.Count?) + B(Launching(y.stage))
  {
  }

  lemma StopPays(e: Entry, j: Job, c: Choice)
    requires StageFits(j.op, j.stage) && !IsStart(j.stage) && !j.stage.Return? && !j.stage.Hold?
    requires e.policy.kind.Persistent?
    ensures var y := NextStop(e, j, c);
      B(Counts(e, j)) + Due(StatusByJob(e.status, j, c), y) <= Due(e.status, j)
  {
    hide NextStop, StatusByJob, StageFits, Counts, Due;
    if EarlyStop(j.stage) { EarlyStopPays(e, j, c); } else { LateStopPays(e, j, c); }
  }

  lemma EarlyStopPays(e: Entry, j: Job, c: Choice)
    requires StageFits(j.op, j.stage) && EarlyStop(j.stage)
    ensures var y := NextStop(e, j, c);
      B(Counts(e, j)) + Due(StatusByJob(e.status, j, c), y) <= Due(e.status, j)
  {
  }

  lemma LateStopPays(e: Entry, j: Job, c: Choice)
    requires StageFits(j.op, j.stage) && !EarlyStop(j.stage) && !IsStart(j.stage) && !j.stage.Return? && !j.stage.Hold?
    requires e.policy.kind.Persistent?
    ensures var y := NextStop(e, j, c);
      B(Counts(e, j)) + Due(StatusByJob(e.status, j, c), y) <= Due(e.status, j)
  {
  }

  /** With one operation at a time, every step keeps a stop for each launch at most. */
  lemma StepPaid(e: Entry, a: Action)
    requires Reserved(e) && Sound(e) && AllHold(e) && Paid(e) && Can(e, a) && e.policy.factory
    requires a.Reserving? ==> Holds(a.op)
    ensures Paid(Do(e, false, a))
  {
    hide Sound, Reserved, AllHold, Work, Advance, CanAdvance, CanReserve, Due;
    match a
    case Reserving(t, op) => ReservePaid(e, t, op);
    case Working(t, c) => WorkPaid(e, t, c);
    case Releasing(t) => ReleasePaid(e, t);
    case Advancing(k, c) => AdvancePaid(e, k, c);
  }

  lemma AdvancePaid(e: Entry, k: nat, c: Choice)
    requires Sound(e) && Paid(e) && CanAdvance(e, k) && e.policy.factory
    ensures Paid(Advance(e, k, false, c))
  {
    hide Advance, Sound, Credit;
    AdvanceCredit(e, k, false, c);
  }

  lemma WorkPaid(e: Entry, t: nat, c: Choice)
    requires Reserved(e) && Sound(e) && AllHold(e) && Paid(e) && CanWork(e, t, c) && e.policy.factory
    ensures Paid(Work(e, t, c))
  {
    hide Reserved, AllHold, Due, NextJob, StatusByJob, Credit, Counts, Staged, Linked, Tallied, Covered, Moored,
         StageFits, KindFits, InstancesByJob;
    WorkCredit(e, t, c);
    StageOf(e, t);
    DuePays(e, e.jobs[t], c);
    forall s | s in e.jobs ensures s == t { OnlyJob(e, t, s); }
  }

  lemma ReservePaid(e: Entry, t: nat, op: Op)
    requires Reserved(e) && AllHold(e) && Paid(e) && t !in e.jobs && CanReserve(e, op) && Holds(op)
    ensures Paid(Reserve(e, t, op))
  {
    hide CountAt;
    FreeHasNoJob(e);
    assert forall s :: s in Reserve(e, t, op).jobs ==> s == t;
  }

  lemma ReleasePaid(e: Entry, t: nat)
    requires Reserved(e) && AllHold(e) && Paid(e) && CanRelease(e, t)
    ensures Paid(ReleaseJob(e, t))
  {
    hide Reserved, AllHold;
    forall s | s in e.jobs ensures s == t { OnlyJob(e, t, s); }
  }

  lemma AdvanceLatched(e: Entry, k: nat, ctxDone: bool, c: Choice)
    requires Sound(e) && Latched(e) && CanAdvance(e, k) && e.policy.factory
    ensures Latched(Advance(e, k, ctxDone, c))
  {
    hide Advance, Sound, Credit, Restarts, MayCount, StartWindow;
    AdvanceCredit(e, k, ctxDone, c);
  }

  /** Steps that renew the latch without a launch to come, or give one up. */
  predicate Forgoes(stage: Stage) {
    stage.Hook? || stage.Rewind? || stage.Remove?
  }

  /** Whoever may still count, or is still to be seen, is one launch that no stop is counted for. */
  ghost predicate Spare(e: Entry) {
    && e.stops <= Credit(e)
    && (Active(e.status) || SomeMayCount(e.jobs) ==> e.stops + 1 <= Credit(e))
  }

  lemma PaidIsSpare(e: Entry, t: nat)
    requires Reserved(e) && AllHold(e) && Paid(e) && t in e.jobs && Forgoes(e.jobs[t].stage)
    ensures Spare(e)
  {
    hide Reserved, AllHold, Credit;
    forall s | s in e.jobs ensures s == t { OnlyJob(e, t, s); }
  }

  lemma StartKeepsLatch(e: Entry, j: Job, c: Choice)
    requires IsStart(j.stage) && KindFits(e.policy, j.stage) && e.policy.kind.Persistent?
    ensures var y := NextStart(e, j, c);
      && !Counts(e, j) && !MayCount(j) && !MayCount(y) && (j.stage.Hook? || j.stage.Count? ==> StartWindow(j.stage))
      && (LatchReset(e, j) ==> j.stage.Guard?) && (j.stage.Guard? ==> !StartWindow(j.stage))
      && (StartWindow(y.stage) <==> LatchReset(e, j) || (StartWindow(j.stage) && !j.stage.Count? && !y.stage.Return?))
      && (j.stage.Hook? && !StartWindow(y.stage) ==> StatusByJob(e.status, j, c) == Stopped)
      && (StartWindow(j.stage) && !StartWindow(y.stage) ==> j.stage.Hook? || j.stage.Count?)
      && (Active(StatusByJob(e.status, j, c)) ==> Active(e.status) || StartWindow(y.stage))
  {
  }

  lemma WorkLatched(e: Entry, t: nat, c: Choice)
    requires Reserved(e) && Sound(e) && Latched(e) && CanWork(e, t, c) && e.policy.factory
    requires Forgoes(e.jobs[t].stage) ==> Spare(e)
    ensures Latched(Work(e, t, c))
  {
    hide NextStart, NextStop, StatusByJob, Staged, Linked, Tallied, Covered, Moored, StageFits, KindFits,
         InstancesByJob, Credit, Restarts, MayCount, StartWindow, Counts, LatchReset, Reserved;
    var f, j := Work(e, t, c), e.jobs[t];
    StageOf(e, t);
    WorkCredit(e, t, c);
    if MayCount(NextJob(e, j, c)) ==> MayCount(j) { OtherMayCount(e.jobs, t, NextJob(e, j, c)); }
    if IsStart(j.stage) {
      StartKeepsLatch(e, j, c);
      StartsByOne(e, t, NextJob(e, j, c));
    } else {
      ResetsAndCounts(e, j);
      StopKeepsLatch(e, j, c);
      SameStarts(e, t, NextJob(e, j, c));
    }
  }

  lemma OtherMayCount(jobs: map<nat, Job>, t: nat, y: Job)
    requires t in jobs && (MayCount(y) ==> MayCount(jobs[t]))
    ensures SomeMayCount(jobs[t := y]) ==> SomeMayCount(jobs)
  {
    hide MayCount;
    var after := jobs[t := y];
    if SomeMayCount(after) {
      var s :| s in after && MayCount(after[s]);
      assert s in jobs && MayCount(jobs[s]);
    }
  }

  lemma StartsByOne(e: Entry, t: nat, y: Job)
    requires Reserved(e) && Staged(e) && t in e.jobs && IsStart(e.jobs[t].stage)
    ensures Starts(e.jobs) <==> StartWindow(e.jobs[t].stage)
    ensures Starts(e.jobs[t := y]) <==> StartWindow(y.stage)
  {
    hide Staged, Reserved, StartWindow;
    var jobs := e.jobs[t := y];
    forall s | s in e.jobs && s != t ensures !StartWindow(e.jobs[s].stage) && jobs[s] == e.jobs[s] {
      OnlyEnroller(e, t, s);
      NoStart(e.jobs[s].stage);
    }
    assert t in jobs && jobs[t] == y;
  }

  lemma SameStarts(e: Entry, t: nat, y: Job)
    requires t in e.jobs && !StartWindow(e.jobs[t].stage) && !StartWindow(y.stage)
    ensures Starts(e.jobs[t := y]) <==> Starts(e.jobs)
  {
    hide StartWindow;
    if Starts(e.jobs) {
      var s :| s in e.jobs && StartWindow(e.jobs[s].stage);
      assert s in e.jobs[t := y];
    }
  }

  /** A stop sees nothing that the status does not say, and counts only what it saw. */
  lemma StopKeepsLatch(e: Entry, j: Job, c: Choice)
    requires !IsStart(j.stage) && !j.stage.Return? && !j.stage.Hold?
    ensures var y := NextStop(e, j, c);
      && NextJob(e, j, c) == y && !StartWindow(j.stage) && !StartWindow(y.stage)
      && (MayCount(y) ==> MayCount(j) || Active(e.status)) && (Counts(e, j) ==> MayCount(j) && !e.stopsCounted)
      && (Active(StatusByJob(e.status, j, c)) ==> Active(e.status))
      && (j.stage.Rewind? || j.stage.Remove? ==> !MayCount(j) && !MayCount(y) && !Counts(e, j))
      && (LatchReset(e, j) <==> j.stage.Rewind? || j.stage.Remove?)
  {
    hide NextStart, StatusByJob;
    NextMayCount(e, j, c);
    StopCalms(e.status, j, c);
    StopStartsByRewind(e, j, c);
  }

  /** No operation at work on the entry starts it. */
  ghost predicate NoStarts(e: Entry) {
    forall t :: t in e.jobs ==> !HoldsStarting(e.jobs[t].op)
  }

  lemma StopsForgoNothing(e: Entry, t: nat)
    requires Staged(e) && NoStarts(e) && t in e.jobs
    ensures Forgoes(e.jobs[t].stage) ==> e.jobs[t].stage.Remove?
  {
    hide KindFits;
  }

  lemma ReserveLatched(e: Entry, t: nat, op: Op)
    requires Latched(e) && t !in e.jobs
    ensures Latched(Reserve(e, t, op))
  {
    hide CountAt;
    var f := Reserve(e, t, op);
    assert forall s :: s in e.jobs ==> s in f.jobs && f.jobs[s] == e.jobs[s];
    assert !MayCount(f.jobs[t]);
    assert Starts(e.jobs) ==> Starts(f.jobs);
  }

  lemma ReleaseLatched(e: Entry, t: nat)
    requires Latched(e) && CanRelease(e, t)
    ensures Latched(ReleaseJob(e, t))
  {
    hide CountAt;
    var f := ReleaseJob(e, t);
    assert forall s :: s in e.jobs && s != t ==> s in f.jobs && f.jobs[s] == e.jobs[s];
    assert !StartWindow(e.jobs[t].stage);
  }

  /** With one operation at a time, or with a stop beside a whole Stop, every step that does not remove the
      entry keeps the latch honest. */
  lemma StepLatched(e: Entry, ctxDone: bool, a: Action)
    requires Reserved(e) && Sound(e) && Latched(e) && Can(e, a) && e.policy.factory
    requires (AllHold(e) && Paid(e)) || (NoStarts(e) && !Do(e, ctxDone, a).removed)
    ensures Latched(Do(e, ctxDone, a))
  {
    hide Reserved, Sound, Latched, Paid, AllHold, NoStarts, Spare, Work, Advance, CanAdvance, CanReserve, CanRelease,
         Reserve, ReleaseJob;
    match a
    case Reserving(t, op) => ReserveLatched(e, t, op);
    case Working(t, c) =>
      if Forgoes(e.jobs[t].stage) {
        if AllHold(e) && Paid(e) {
          PaidIsSpare(e, t);
        } else {
          StagedOf(e);
          StopsForgoNothing(e, t);
          RemovesEntry(e, t, c);
        }
      }
      WorkLatched(e, t, c);
    case Releasing(t) => ReleaseLatched(e, t);
    case Advancing(k, c) => AdvanceLatched(e, k, ctxDone, c);
  }

  lemma StagedOf(e: Entry)
    requires Sound(e)
    ensures Staged(e)
  {
    hide Staged, Pointed, Linked, Tallied, Covered, Moored;
  }

  lemma RemovesEntry(e: Entry, t: nat, c: Choice)
    requires t in e.jobs && e.jobs[t].stage.Remove?
    ensures Work(e, t, c).removed
  {
    hide NextJob, InstancesByJob, StatusByJob, OwnersByJob;
  }
}
