/** Which operations report a failure, and why: every cause is reported, and nothing else is. */
module Failures {
  import opened Registry
  import opened Lifecycle
  import opened LifecycleFlow
  import opened LifecycleSafety
  import opened LifecycleSound
  import opened LifecycleEnds
  import opened Shutdown
  import opened Winddown
  import opened Runs
  import opened Guarantees
  import opened StartOutcomes

  /** What makes an operation fail on an entry: the entry is gone or being taken down when its start begins, its hook,
      its start condition or its schedule fails, Start returns an error or does not return in time, the replacement is
      invalid, the stop sequence goes wrong or is not completed, or the instance does not exit in time. */
  predicate Trouble(e: Entry, j: Job, c: Choice) {
    || (j.stage.Guard? && (e.removed || e.removing)) || (j.stage.Hook? && !c.ok && c.err)
    || (j.stage.Schedule? && !c.ok) || (j.stage.Launch? && c.err) || (j.stage.Gate? && c.exit.Crash?)
    || (j.stage.Validate? && !c.ok)
    || (j.stage.Sequence? && (c.err || !c.ok)) || (j.stage.Await? && !c.ok)
  }

  /** Stages in which nothing has failed yet. */
  predicate Unfailed(stage: Stage) {
    || (IsStart(stage) && !stage.Ungate? && !stage.Settle? && !stage.Bless? && !stage.Free?)
    || stage.Wipe? || stage.Rewind? || Unstopped(stage)
  }

  /** Stages before the stop sequence is over. */
  predicate Unstopped(stage: Stage) {
    stage.Validate? || stage.Skip? || stage.Cancel? || stage.Watch? || stage.Begin? || stage.Mark? || stage.Sequence?
  }

  /** The results of the operation so far: whether anything went wrong, whether its stop sequence ran, and whether that
      or the wait was cut short. */
  predicate Results(j: Job, troubled: bool, ran: bool, short: bool) {
    && Holds(j.op) && (j.failed <==> troubled) && (Unfailed(j.stage) ==> !troubled)
    && (HoldsRemoving(j.op) ==> (j.completed <==> ran && !short) && (Unstopped(j.stage) ==> !ran && !short))
  }

  lemma NextResults(e: Entry, j: Job, c: Choice, troubled: bool, ran: bool, short: bool)
    requires Results(j, troubled, ran, short) && StageFits(j.op, j.stage) && !j.stage.Return? && !j.stage.Hold?
    ensures Results(NextJob(e, j, c), troubled || Trouble(e, j, c), ran || j.stage.Sequence?,
                    short || ((j.stage.Sequence? || j.stage.Await?) && !c.ok))
  {
    hide NextStart, NextStop;
    if IsStart(j.stage) {
      StartResults(e, j, c, troubled, ran, short);
    } else {
      StopResults(e, j, c, troubled, ran, short);
    }
  }

  lemma StartResults(e: Entry, j: Job, c: Choice, troubled: bool, ran: bool, short: bool)
    requires Results(j, troubled, ran, short) && StageFits(j.op, j.stage) && IsStart(j.stage)
    ensures Results(NextStart(e, j, c), troubled || Trouble(e, j, c), ran, short)
  {
    hide Results, NextStart, Trouble, IsStart;
    if j.stage.Guard? || j.stage.Hook? || j.stage.Schedule? || j.stage.Launch? || j.stage.Gate? {
      AskResults(e, j, c, troubled, ran, short);
    } else {
      PlainResults(e, j, c, troubled, ran, short);
    }
  }

  lemma AskResults(e: Entry, j: Job, c: Choice, troubled: bool, ran: bool, short: bool)
    requires Results(j, troubled, ran, short) && StageFits(j.op, j.stage)
    requires j.stage.Guard? || j.stage.Hook? || j.stage.Schedule? || j.stage.Launch? || j.stage.Gate?
    ensures Results(NextStart(e, j, c), troubled || Trouble(e, j, c), ran, short)
  {
  }

  lemma PlainResults(e: Entry, j: Job, c: Choice, troubled: bool, ran: bool, short: bool)
    requires Results(j, troubled, ran, short) && StageFits(j.op, j.stage) && IsStart(j.stage)
    requires !j.stage.Guard? && !j.stage.Hook? && !j.stage.Schedule? && !j.stage.Launch? && !j.stage.Gate?
    ensures Results(NextStart(e, j, c), troubled, ran, short) && !Trouble(e, j, c)
  {
  }

  lemma StopResults(e: Entry, j: Job, c: Choice, troubled: bool, ran: bool, short: bool)
    requires Results(j, troubled, ran, short) && StageFits(j.op, j.stage) && !IsStart(j.stage)
    requires !j.stage.Return? && !j.stage.Hold?
    ensures Results(NextStop(e, j, c), troubled || Trouble(e, j, c), ran || j.stage.Sequence?,
                    short || ((j.stage.Sequence? || j.stage.Await?) && !c.ok))
  {
    hide Results, NextStop, Trouble, StageFits, IsStart;
    if Unstopped(j.stage) { SequenceResults(e, j, c, troubled, ran, short); }
    else { WaitResults(e, j, c, troubled, ran, short); }
  }

  lemma SequenceResults(e: Entry, j: Job, c: Choice, troubled: bool, ran: bool, short: bool)
    requires Results(j, troubled, ran, short) && StageFits(j.op, j.stage) && Unstopped(j.stage)
    ensures Results(NextStop(e, j, c), troubled || Trouble(e, j, c), ran || j.stage.Sequence?,
                    short || (j.stage.Sequence? && !c.ok))
  {
  }

  lemma WaitResults(e: Entry, j: Job, c: Choice, troubled: bool, ran: bool, short: bool)
    requires Results(j, troubled, ran, short) && StageFits(j.op, j.stage) && !IsStart(j.stage) && !Unstopped(j.stage)
    requires !j.stage.Return? && !j.stage.Hold?
    ensures Results(NextStop(e, j, c), troubled || Trouble(e, j, c), ran, short || (j.stage.Await? && !c.ok))
  {
  }

  /** The turn is a step of this operation on this entry. */
  predicate StepsAt(o: Orch, u: Turn, i: nat, t: nat) {
    i < |o.entries| && t in o.entries[i].jobs && u.Local? && u.i == i && u.a.Working? && u.a.t == t
  }

  predicate TroubleAt(o: Orch, u: Turn, i: nat, t: nat) {
    StepsAt(o, u, i, t) && Trouble(o.entries[i], o.entries[i].jobs[t], u.a.c)
  }

  predicate RanAt(o: Orch, u: Turn, i: nat, t: nat) {
    StepsAt(o, u, i, t) && o.entries[i].jobs[t].stage.Sequence?
  }

  predicate ShortAt(o: Orch, u: Turn, i: nat, t: nat) {
    StepsAt(o, u, i, t) && (o.entries[i].jobs[t].stage.Sequence? || o.entries[i].jobs[t].stage.Await?) && !u.a.c.ok
  }

  predicate Tracked(o: Orch, i: nat, t: nat, troubled: bool, ran: bool, short: bool) {
    i < |o.entries| && t in o.entries[i].jobs && Results(o.entries[i].jobs[t], troubled, ran, short)
  }

  lemma DoTracked(e: Entry, ctxDone: bool, a: Action, t: nat, troubled: bool, ran: bool, short: bool)
    requires Staged(e) && Can(e, a) && !a.Reserving? && !a.Releasing? && t in e.jobs
    requires Results(e.jobs[t], troubled, ran, short)
    ensures var f, steps := Do(e, ctxDone, a), a.Working? && a.t == t;
      t in f.jobs && Results(f.jobs[t], troubled || (steps && Trouble(e, e.jobs[t], a.c)),
                             ran || (steps && e.jobs[t].stage.Sequence?),
                             short || (steps && (e.jobs[t].stage.Sequence? || e.jobs[t].stage.Await?) && !a.c.ok))
  {
    hide NextJob, Results, Trouble, StageFits, KindFits, InstancesByJob, InstancesByInstance, NextInstance,
         StatusByJob, StatusByInstance;
    if a.Working? && a.t == t { NextResults(e, e.jobs[t], a.c, troubled, ran, short); }
  }

  lemma TurnTracked(o: Orch, u: Turn, i: nat, t: nat, troubled: bool, ran: bool, short: bool)
    requires Inv(o) && CanTake(o, u) && Tracked(o, i, t, troubled, ran, short) && u != Turn.Return(t)
    ensures Tracked(Take(o, u), i, t, troubled || TroubleAt(o, u, i, t), ran || RanAt(o, u, i, t),
                    short || ShortAt(o, u, i, t))
  {
    hide Keeps, Results, Trouble, Do, Can, Take, CanTake, Reserved, Sound, Staged, Inv, JobsOwned;
    var e := o.entries[i];
    HolderAt(o, i, t, troubled, ran, short);
    if u.Local? && u.i == i {
      LocalTurn(o, u);
      DoTracked(e, ContextDone(o.phase), u.a, t, troubled, ran, short);
    } else {
      OthersKeepJob(o, u, i, t);
    }
  }

  lemma HolderAt(o: Orch, i: nat, t: nat, troubled: bool, ran: bool, short: bool)
    requires Inv(o) && Tracked(o, i, t, troubled, ran, short)
    ensures Staged(o.entries[i]) && t != STOP
  {
    hide Keeps, Reserved, Sound, Shaped, Inv, Staged;
    assert EntryInv(o, i) by { EntryAt(o, i); }
    KeepsSound(o.phase, FoundAt(o, i), o.entries[i]);
    SoundStaged(o.entries[i]);
  }

  ghost predicate Troubled(run: seq<Orch>, turns: seq<Turn>, b: nat, n: nat, i: nat, t: nat) {
    exists k :: b <= k < n && k < |run| && k < |turns| && TroubleAt(run[k], turns[k], i, t)
  }

  ghost predicate Ran(run: seq<Orch>, turns: seq<Turn>, b: nat, n: nat, i: nat, t: nat) {
    exists k :: b <= k < n && k < |run| && k < |turns| && RanAt(run[k], turns[k], i, t)
  }

  ghost predicate CutShort(run: seq<Orch>, turns: seq<Turn>, b: nat, n: nat, i: nat, t: nat) {
    exists k :: b <= k < n && k < |run| && k < |turns| && ShortAt(run[k], turns[k], i, t)
  }

  lemma {:induction false} StaysTracked(run: seq<Orch>, turns: seq<Turn>, b: nat, n: nat, i: nat, t: nat)
    requires Execution(run, turns) && b <= n < |run| && Tracked(run[b], i, t, false, false, false)
    requires forall k :: b <= k < n ==> turns[k] != Turn.Return(t)
    ensures Tracked(run[n], i, t, Troubled(run, turns, b, n, i, t), Ran(run, turns, b, n, i, t),
                    CutShort(run, turns, b, n, i, t))
  {
    hide Inv, CanTake, Take, Tracked, TroubleAt, RanAt, ShortAt;
    if b < n {
      var m := n - 1;
      StaysTracked(run, turns, b, m, i, t);
      RunInv(run, turns, m);
      var troubled, ran, short := Troubled(run, turns, b, m, i, t), Ran(run, turns, b, m, i, t),
          CutShort(run, turns, b, m, i, t);
      TurnTracked(run[m], turns[m], i, t, troubled, ran, short);
      assert Troubled(run, turns, b, n, i, t) <==> troubled || TroubleAt(run[m], turns[m], i, t);
      assert Ran(run, turns, b, n, i, t) <==> ran || RanAt(run[m], turns[m], i, t);
      assert CutShort(run, turns, b, n, i, t) <==> short || ShortAt(run[m], turns[m], i, t);
    }
  }

  lemma ClaimTracked(o: Orch, t: nat, ops: map<nat, Op>, i: nat)
    requires CanTake(o, Claim(t, ops)) && i < |o.entries| && i in ops
    ensures Tracked(Take(o, Claim(t, ops)), i, t, false, false, false)
  {
    hide CanReserve, AtRest;
  }

  /** From its claim at turn w to its return at turn n an operation reports a failure of an entry if and only if
      something went wrong on the way; and a stop counts as completed if and only if its sequence ran and neither that
      nor the wait was cut short. */
  lemma FailureHasCause(run: seq<Orch>, turns: seq<Turn>, w: nat, n: nat, ops: map<nat, Op>, t: nat, i: nat)
    requires Execution(run, turns) && w < n < |turns| && turns[w] == Claim(t, ops) && i < |run[w].entries| && i in ops
    requires turns[n] == Turn.Return(t) && forall k :: w < k < n ==> turns[k] != Turn.Return(t)
    ensures i < |run[n].entries| && t in run[n].entries[i].jobs
    ensures var j := run[n].entries[i].jobs[t];
      && (j.failed <==> Troubled(run, turns, w + 1, n, i, t))
      && (HoldsRemoving(j.op) ==>
            (j.completed <==> Ran(run, turns, w + 1, n, i, t) && !CutShort(run, turns, w + 1, n, i, t)))
  {
    hide Inv, CanTake, Take, Troubled, Ran, CutShort;
    assert CanTake(run[w], turns[w]) && run[w + 1] == Take(run[w], turns[w]);
    ClaimTracked(run[w], t, ops, i);
    StaysTracked(run, turns, w + 1, n, i, t);
  }
}
