/** An entry is removed by an Unregister, when that says so, and by nothing else. */
module LifecycleRemovals {
  import opened Lifecycle
  import opened LifecycleSafety

  /** An Unregister past its removal. */
  predicate HasRemoved(j: Job) {
    j.op.TearDownOp? && j.op.remove && (j.stage.Drain? || j.stage.Return?)
  }

  /** A held entry is removed exactly if its holder has removed it. */
  ghost predicate Departs(e: Entry) {
    forall t :: t in e.jobs && Holds(e.jobs[t].op) ==> (e.removed <==> HasRemoved(e.jobs[t]))
  }

  lemma NextRemoved(e: Entry, j: Job, c: Choice)
    requires StageFits(j.op, j.stage) && !IsStart(j.stage) && !j.stage.Return? && !j.stage.Hold?
    ensures HasRemoved(NextStop(e, j, c)) <==> HasRemoved(j) || j.stage.Remove?
  {
  }

  lemma StartRemovesNone(e: Entry, j: Job, c: Choice)
    requires IsStart(j.stage) && StageFits(j.op, j.stage)
    ensures !HasRemoved(NextStart(e, j, c)) && !HasRemoved(j) && !j.stage.Remove?
  {
    hide NextStart;
    StartGoesOn(e, j, c);
  }

  lemma JobRemoved(e: Entry, j: Job, c: Choice)
    requires StageFits(j.op, j.stage) && !j.stage.Return? && !j.stage.Hold?
    ensures HasRemoved(NextJob(e, j, c)) <==> HasRemoved(j) || j.stage.Remove?
    ensures j.stage.Remove? ==> Holds(j.op)
  {
    hide NextStart, NextStop, StageFits, HasRemoved;
    if IsStart(j.stage) { StartRemovesNone(e, j, c); } else { NextRemoved(e, j, c); }
    RemoveHolds(j);
  }

  lemma RemoveHolds(j: Job)
    requires StageFits(j.op, j.stage)
    ensures j.stage.Remove? ==> Holds(j.op)
  {
  }

  lemma WorkDeparts(e: Entry, t: nat, c: Choice)
    requires Reserved(e) && Staged(e) && Departs(e) && CanWork(e, t, c)
    ensures Departs(Work(e, t, c))
  {
    hide NextJob, StatusByJob, InstancesByJob, HasRemoved, StageFits, KindFits, Reserved, Counts, LatchReset,
         OwnersByJob;
    var f, j := Work(e, t, c), e.jobs[t];
    JobRemoved(e, j, c);
    SameOp(e, j, c);
    forall s | s in f.jobs && Holds(f.jobs[s].op) ensures f.removed <==> HasRemoved(f.jobs[s]) {
      if s != t { OtherJobs(e, t, s); }
    }
  }

  lemma ReserveDeparts(e: Entry, t: nat, op: Op)
    requires Reserved(e) && Departs(e) && t !in e.jobs && CanReserve(e, op)
    ensures Departs(Reserve(e, t, op))
  {
    hide AtRest;
    NewJobIsHere(e, op);
  }

  lemma NewJobIsHere(e: Entry, op: Op)
    ensures FirstStage(e.policy, op) != Drain && FirstStage(e.policy, op) != Stage.Return
  {
  }

  /** Every step, also of an entry that was replaced too late, keeps to that. */
  lemma StepDeparts(e: Entry, ctxDone: bool, a: Action)
    requires Reserved(e) && Staged(e) && Departs(e) && Can(e, a)
    ensures Departs(Do(e, ctxDone, a))
  {
    hide Reserved, Staged, Reserve, Work, NextInstance, CanReserve, CanRelease, CanWork, HasRemoved;
    match a
    case Reserving(t, op) => hide Departs; ReserveDeparts(e, t, op);
    case Working(t, c) => hide Departs; WorkDeparts(e, t, c);
    case Releasing(t) =>
    case Advancing(k, c) =>
  }
}
