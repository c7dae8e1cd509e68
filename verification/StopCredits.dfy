/** The Stops metric of a self-healing service under a whole Stop that found a start at work on it. */
module StopCredits {
  import opened Services
  import opened Registry
  import opened Lifecycle
  import opened LifecycleSafety
  import opened LifecycleSound
  import opened LifecycleEnds
  import opened LifecycleStops
  import opened LifecycleCredits
  import opened Shutdown

  /** What stands in for an operation that is not there. */
  const IDLE: Job := Job(StartOp, Stage.Return, 0, None, Registered, false, false, false)

  function JobAt(jobs: map<nat, Job>, t: nat): Job {
    if t in jobs then jobs[t] else IDLE
  }

  /** What the start (or the replacement that has stopped what it found) and Stop have seen or may still see. */
  predicate PaidBoth(status: Status, stops: nat, credit: nat, h: Job, s: Job) {
    stops + B(MayCount(h)) + B(MayCount(s) || (s.stage.Begin? && (Launching(h.stage) || Active(status)))) <=
      credit + B(Launching(h.stage))
  }

  ghost predicate OnlyOther(jobs: map<nat, Job>, t: nat) {
    t != STOP && forall u :: u in jobs && u != STOP ==> u == t
  }

  /** Beside Stop there is a start at work, or nobody, and every stop they may count is one of a launch. */
  ghost predicate Shared(e: Entry) {
    && (forall t :: t in e.jobs && t != STOP ==> HoldsStarting(e.jobs[t].op) && !Undone(e.jobs[t]))
    && (STOP in e.jobs ==> e.jobs[STOP].op.ShutdownOp?)
    && forall t :: OnlyOther(e.jobs, t) ==>
         PaidBoth(e.status, e.stops, Credit(e), JobAt(e.jobs, t), JobAt(e.jobs, STOP))
  }

  lemma StartPaysBoth(e: Entry, h: Job, s: Job, credit: nat, c: Choice)
    requires PaidBoth(e.status, e.stops, credit, h, s) && IsStart(h.stage)
    requires KindFits(e.policy, h.stage) && e.policy.kind.Persistent?
    ensures !Counts(e, h)
    ensures PaidBoth(StatusByJob(e.status, h, c), e.stops, credit + B(h.stage.Count?), NextStart(e, h, c), s)
  {
    hide NextStop;
    StartPays(e, h, c);
  }

  lemma ReplacePaysBoth(e: Entry, h: Job, s: Job, credit: nat, c: Choice)
    requires PaidBoth(e.status, e.stops, credit, h, s) && !IsStart(h.stage) && !h.stage.Return? && !h.stage.Hold?
    requires StageFits(h.op, h.stage) && HoldsStarting(h.op) && !Undone(h) && e.policy.kind.Persistent?
    ensures PaidBoth(StatusByJob(e.status, h, c), e.stops + B(Counts(e, h)), credit, NextStop(e, h, c), s)
  {
    hide NextStart;
  }

  lemma StopPaysBoth(e: Entry, h: Job, s: Job, credit: nat, c: Choice)
    requires PaidBoth(e.status, e.stops, credit, h, s) && !IsStart(s.stage) && !s.stage.Return? && !s.stage.Hold?
    requires StageFits(s.op, s.stage) && s.op.ShutdownOp?
    ensures PaidBoth(StatusByJob(e.status, s, c), e.stops + B(Counts(e, s)), credit, h, NextStop(e, s, c))
  {
    hide NextStart, Launching;
  }

  lemma WorkShared(e: Entry, t: nat, c: Choice)
    requires Sound(e) && Shared(e) && CanWork(e, t, c) && e.policy.factory
    ensures Shared(Work(e, t, c))
  {
    hide NextStart, NextStop, StatusByJob, PaidBoth, Counts, Credit, Undone, Staged, Linked, Tallied, Covered, Moored,
         StageFits, KindFits, InstancesByJob;
    var f, j := Work(e, t, c), e.jobs[t];
    StageOf(e, t);
    WorkCredit(e, t, c);
    SameOp(e, j, c);
    if t != STOP { NextRenews(e, j, c); }
    StopStages(j);
    forall u: nat | OnlyOther(f.jobs, u)
      ensures PaidBoth(f.status, f.stops, Credit(f), JobAt(f.jobs, u), JobAt(f.jobs, STOP))
    {
      SameOnly(e.jobs, f.jobs, u);
      var h, s := JobAt(e.jobs, u), JobAt(e.jobs, STOP);
      if t == STOP {
        StopPaysBoth(e, h, s, Credit(e), c);
      } else if IsStart(j.stage) {
        StartPaysBoth(e, h, s, Credit(e), c);
      } else {
        ReplacePaysBoth(e, h, s, Credit(e), c);
      }
    }
  }

  lemma SameOnly(jobs: map<nat, Job>, after: map<nat, Job>, u: nat)
    requires jobs.Keys == after.Keys && OnlyOther(after, u)
    ensures OnlyOther(jobs, u)
  {
    forall v | v in jobs && v != STOP ensures v == u { assert v in after; }
  }

  lemma StopStages(j: Job)
    requires StageFits(j.op, j.stage)
    ensures j.op.ShutdownOp? ==> !IsStart(j.stage)
    ensures !IsStart(j.stage) ==> !j.stage.Count?
  {
  }

  lemma AdvanceShared(e: Entry, k: nat, ctxDone: bool, c: Choice)
    requires Sound(e) && Shared(e) && CanAdvance(e, k) && e.policy.factory
    ensures Shared(Advance(e, k, ctxDone, c))
  {
    hide Advance, Sound, Credit, MayCount, Launching, Undone;
    AdvanceCredit(e, k, ctxDone, c);
  }

  lemma ReleaseShared(e: Entry, t: nat)
    requires Reserved(e) && Shared(e) && CanRelease(e, t)
    ensures Shared(ReleaseJob(e, t))
  {
    hide CountAt, Undone;
    var f := ReleaseJob(e, t);
    forall u: nat | OnlyOther(f.jobs, u)
      ensures PaidBoth(f.status, f.stops, Credit(f), JobAt(f.jobs, u), JobAt(f.jobs, STOP))
    {
      var v := if t == STOP then u else t;
      forall w | w in e.jobs && w != STOP ensures w == v {
        if t == STOP { assert w in f.jobs; } else { assert Holds(e.jobs[w].op) && Holds(e.jobs[t].op); }
      }
      assert OnlyOther(e.jobs, v);
    }
  }

  /** Every step keeps it so. */
  lemma StepShared(e: Entry, ctxDone: bool, a: Action)
    requires Reserved(e) && Sound(e) && Shared(e) && Can(e, a) && !a.Reserving? && e.policy.factory
    ensures Shared(Do(e, ctxDone, a))
  {
    hide Reserved, Sound, Shared, Work, Advance, CanAdvance, CanRelease, ReleaseJob;
    match a
    case Working(t, c) => WorkShared(e, t, c);
    case Releasing(t) => ReleaseShared(e, t);
    case Advancing(k, c) => AdvanceShared(e, k, ctxDone, c);
  }

  /** The moment Stop joins. */
  lemma WindShared(e: Entry)
    requires Reserved(e) && Staged(e) && AllHold(e) && Paid(e) && STOP !in e.jobs && NoneUndone(e) && !NoStarts(e)
    ensures Shared(Overtake(e))
  {
    hide CountAt, Reserved, AllHold;
    var t :| t in e.jobs && HoldsStarting(e.jobs[t].op);
    var f := Overtake(e);
    forall s | s in e.jobs ensures s == t { OnlyJob(e, t, s); }
    assert StageFits(e.jobs[t].op, e.jobs[t].stage);
    forall u: nat | OnlyOther(f.jobs, u)
      ensures PaidBoth(f.status, f.stops, Credit(f), JobAt(f.jobs, u), JobAt(f.jobs, STOP))
    {
      assert t in f.jobs;
      DueCovers(e, e.jobs[t]);
    }
  }

  /** What one operation owes covers what Stop may see of it. */
  lemma DueCovers(e: Entry, h: Job)
    requires e.stops + Due(e.status, h) <= Credit(e) + B(Launching(h.stage)) && !Undone(h) && HoldsStarting(h.op)
    requires Launching(h.stage) ==> !MayCount(h)
    requires MayCount(h) && h.stage.Mark? ==> h.op.ReplaceOp?
    ensures forall s: Job :: !MayCount(s) ==> PaidBoth(e.status, e.stops, Credit(e), h, s)
  {
    hide CountAt;
  }

  lemma ResumeShared(e: Entry, verified: bool)
    requires Shared(e) && (STOP in e.jobs ==> e.jobs[STOP].stage.Hold?)
    ensures Shared(Resume(e, verified))
  {
    hide CountAt, Launching, Undone;
    var f := Resume(e, verified);
    forall u: nat | OnlyOther(f.jobs, u)
      ensures PaidBoth(f.status, f.stops, Credit(f), JobAt(f.jobs, u), JobAt(f.jobs, STOP))
    {
      SameOnly(e.jobs, f.jobs, u);
    }
  }
}
