/** What a stop of one entry leaves, whatever else runs: it is counted, and a group stop ends the service. */
module StopOutcomes {
  import opened Services
  import opened Registry
  import opened Lifecycle
  import opened LifecycleFlow
  import opened LifecycleSafety
  import opened LifecycleShares
  import opened LifecycleSound
  import opened LifecycleEnds
  import opened LifecycleExits
  import opened LifecycleAccounts
  import opened Shutdown
  import opened Winddown
  import opened Runs
  import opened Guarantees

  predicate StopsOnly(op: Op) {
    op.GroupStopOp? || (op.TearDownOp? && !op.remove)
  }

  /** A stop past the moment it looked at the status. */
  predicate PastBegin(stage: Stage) {
    stage.Mark? || stage.Sequence? || stage.Await? || stage.Read? || stage.Commit? || stage.Account? || stage.Drain? ||
    stage.Return?
  }

  /** The stop knows that it found the entry active. A self-healing service is awaited, and in time. */
  predicate Attending(policy: Policy, j: Job) {
    && StopsOnly(j.op) && PastBegin(j.stage) && Active(j.sampled) && !policy.kind.RunOnce?
    && (j.stage.Mark? || j.stage.Sequence? || j.completed || j.failed)
    && (policy.factory ==> j.op.TearDownOp? && !j.late)
  }

  /** The stop has failed, so a self-healing service may live on. */
  predicate GivenUp(policy: Policy, j: Job) {
    policy.factory && j.failed && (j.stage.Drain? || j.stage.Return?)
  }

  /** No latch was renewed since: every stop since then won it. */
  predicate Tolled(e: Entry, t: nat, base: int) {
    && t in e.jobs && Attending(e.policy, e.jobs[t])
    && (GivenUp(e.policy, e.jobs[t]) || e.stops - B(e.stopsCounted) == base)
  }

  lemma NextAttends(e: Entry, j: Job, c: Choice)
    requires Attending(e.policy, j) && StageFits(j.op, j.stage) && !j.stage.Return? && !j.stage.Hold?
    ensures Attending(e.policy, NextJob(e, j, c)) && !LatchReset(e, j)
    ensures GivenUp(e.policy, j) ==> GivenUp(e.policy, NextJob(e, j, c))
  {
    hide NextStart;
  }

  lemma WorkTolled(e: Entry, t: nat, s: nat, c: Choice, base: int)
    requires Reserved(e) && Staged(e) && CanWork(e, s, c) && Tolled(e, t, base)
    ensures Tolled(Work(e, s, c), t, base)
  {
    hide NextJob, StatusByJob, InstancesByJob, Attending, GivenUp, LatchReset, Counts, StageFits, KindFits, Reserved;
    var j := e.jobs[s];
    if s == t {
      NextAttends(e, j, c);
    } else {
      AttendingHolds(e.policy, e.jobs[t]);
      OtherJobs(e, s, t);
      if LatchReset(e, j) { OnlyHoldersReset(e, j); }
    }
    CountWins(e, j);
  }

  lemma AttendingHolds(policy: Policy, j: Job)
    requires Attending(policy, j)
    ensures Holds(j.op) && StopsOnly(j.op)
  {
  }

  lemma CountWins(e: Entry, j: Job)
    ensures Counts(e, j) ==> !e.stopsCounted
  {
  }

  /** No restart renews the latch under such a stop. */
  lemma NoneRearms(e: Entry, t: nat, k: nat)
    requires Shaped(e) && t in e.jobs && Attending(e.policy, e.jobs[t]) && !GivenUp(e.policy, e.jobs[t])
    requires StageFits(e.jobs[t].op, e.jobs[t].stage) && k < |e.instances|
    ensures !e.instances[k].at.Rearm?
  {
    hide StartFits, Tethered, Latest;
    assert Fits(e, e.jobs[t]) && PointFits(e.policy.factory, e.instances[k].at);
    if e.policy.factory { AttendedIsStill(e, t); }
  }

  lemma AttendedIsStill(e: Entry, t: nat)
    requires Shaped(e) && t in e.jobs && Attending(e.policy, e.jobs[t]) && !GivenUp(e.policy, e.jobs[t])
    requires e.policy.factory
    ensures !Through(e.instances)
  {
    hide OneActs, PointsFit, StartFits, Tethered, Latest;
    assert Fits(e, e.jobs[t]);
  }

  lemma AdvanceTolled(e: Entry, t: nat, k: nat, ctxDone: bool, c: Choice, base: int)
    requires Shaped(e) && Staged(e) && CanAdvance(e, k) && Tolled(e, t, base)
    ensures Tolled(Advance(e, k, ctxDone, c), t, base)
  {
    hide NextInstance, InstancesByInstance, StatusByInstance, Attending, GivenUp, Shaped, StageFits, KindFits;
    if !GivenUp(e.policy, e.jobs[t]) { NoneRearms(e, t, k); }
  }

  lemma DoTolled(e: Entry, ctxDone: bool, a: Action, t: nat, base: int)
    requires Reserved(e) && Sound(e) && Shaped(e) && Can(e, a) && !a.Reserving? && Tolled(e, t, base)
    requires a.Releasing? ==> a.t != t
    ensures Tolled(Do(e, ctxDone, a), t, base)
  {
    hide Reserved, Sound, Shaped, Work, Advance, CanWork, CanAdvance, Attending, GivenUp;
    SoundStaged(e);
    match a
    case Working(s, c) => WorkTolled(e, t, s, c, base);
    case Advancing(k, c) => AdvanceTolled(e, t, k, ctxDone, c, base);
    case Releasing(s) =>
  }

  /** The turns of others leave the job and the counts alone. */
  lemma OthersTolled(o: Orch, m: Turn, i: nat, t: nat, base: int)
    requires Inv(o) && CanTake(o, m) && i < |o.entries| && Tolled(o.entries[i], t, base)
    requires !(m.Local? && m.i == i) && m != Turn.Return(t) && t != STOP
    ensures i < |Take(o, m).entries| && Tolled(Take(o, m).entries[i], t, base)
  {
    hide Attending, GivenUp, Do, Can, CanReserve, CanRelease, StopsAt, StopFailed, Reserve, ReleaseJob, Resume, Inv,
         Total;
    var e := o.entries[i];
    match m
    case Claim(s, ops) => if i in ops { ReserveTolls(e, s, ops[i], t); }
    case Return(s) => if s in e.jobs { ReleaseTolls(e, s, t); }
    case Wind => ReserveTolls(e, STOP, ShutdownOp, t);
    case Miss(_) => if STOP in e.jobs { ReleaseTolls(e, STOP, t); }
    case Wait => ResumeTolls(e, true, t);
    case TimeOut =>
      ResumeTolls(e, false, t);
      if STOP in e.jobs { ReleaseTolls(Resume(e, false), STOP, t); }
    case Finish => if STOP in e.jobs { ReleaseTolls(e, STOP, t); }
    case _ =>
  }

  predicate SameTolls(e: Entry, f: Entry, t: nat) {
    && f.policy == e.policy && f.stops == e.stops && f.stopsCounted == e.stopsCounted
    && t in e.jobs && t in f.jobs && f.jobs[t] == e.jobs[t]
  }

  lemma ReserveTolls(e: Entry, s: nat, op: Op, t: nat)
    requires t in e.jobs && s != t
    ensures SameTolls(e, Reserve(e, s, op), t)
  {
    hide AtRest;
  }

  lemma ReleaseTolls(e: Entry, s: nat, t: nat)
    requires t in e.jobs && s in e.jobs && s != t
    ensures SameTolls(e, ReleaseJob(e, s), t)
  {
  }

  lemma ResumeTolls(e: Entry, verified: bool, t: nat)
    requires t in e.jobs && t != STOP
    ensures SameTolls(e, Resume(e, verified), t) && (STOP in Resume(e, verified).jobs <==> STOP in e.jobs)
  {
  }

  /** An entry on which a stop attends, which no replacement was late on since. */
  predicate Attended(o: Orch, i: nat, t: nat, base: int) {
    i < |o.entries| && !o.entries[i].raced && Tolled(o.entries[i], t, base)
  }

  lemma TurnAttended(o: Orch, m: Turn, i: nat, t: nat, base: int)
    requires Inv(o) && CanTake(o, m) && Attended(o, i, t, base) && m != Turn.Return(t)
    ensures Attended(Take(o, m), i, t, base)
  {
    hide Keeps, Attending, GivenUp, Do, Take, CanTake, Reserved, Sound, Shaped, JobsOwned, Inv;
    var e := o.entries[i];
    AttendingHolds(e.policy, e.jobs[t]);
    AttendedAt(o, i, t);
    if m.Local? && m.i == i {
      LocalTurn(o, m);
      DoTolled(e, ContextDone(o.phase), m.a, t, base);
      StaysUnraced(e, ContextDone(o.phase), m.a, t);
    } else {
      OthersTolled(o, m, i, t, base);
      OthersUnraced(o, m, i);
    }
  }

  lemma AttendedAt(o: Orch, i: nat, t: nat)
    requires Inv(o) && i < |o.entries| && !o.entries[i].raced && t in o.entries[i].jobs
    requires StopsOnly(o.entries[i].jobs[t].op)
    ensures Reserved(o.entries[i]) && Sound(o.entries[i]) && Shaped(o.entries[i]) && t != STOP
  {
    hide Keeps, Reserved, Sound, Shaped;
    assert EntryInv(o, i);
    KeepsSound(o.phase, FoundAt(o, i), o.entries[i]);
  }

  lemma StaysUnraced(e: Entry, ctxDone: bool, a: Action, t: nat)
    requires Reserved(e) && Can(e, a) && !a.Reserving? && t in e.jobs && StopsOnly(e.jobs[t].op) && !e.raced
    ensures !Do(e, ctxDone, a).raced
  {
    hide NextJob, NextInstance, InstancesByJob, InstancesByInstance, StatusByJob, StatusByInstance, Through,
         CanReserve, CanAdvance, CanRelease;
    if a.Working? && a.t != t { OtherJobs(e, a.t, t); }
  }

  lemma OthersUnraced(o: Orch, m: Turn, i: nat)
    requires CanTake(o, m) && i < |o.entries| && !o.entries[i].raced && !(m.Local? && m.i == i)
    ensures i < |Take(o, m).entries| && !Take(o, m).entries[i].raced
  {
    hide Do, Can, CanRelease, CanReserve, StopsAt, StopFailed, AtRest;
  }

  lemma {:induction false} StaysAttended(run: seq<Orch>, turns: seq<Turn>, m: nat, n: nat, i: nat, t: nat, base: int)
    requires Execution(run, turns) && m <= n < |run| && Attended(run[m], i, t, base)
    requires forall k :: m <= k < n ==> turns[k] != Turn.Return(t)
    ensures Attended(run[n], i, t, base)
  {
    hide Inv, CanTake, Take, Attended;
    if m < n {
      StaysAttended(run, turns, m, n - 1, i, t, base);
      RunInv(run, turns, n - 1);
      TurnAttended(run[n - 1], turns[n - 1], i, t, base);
    }
  }

  /** The moment a stop looks at the status. */
  lemma BeginAttends(o: Orch, c: Choice, t: nat, i: nat)
    requires i < |o.entries| && t in o.entries[i].jobs && CanTake(o, Local(i, Working(t, c)))
    requires var e := o.entries[i]; var j := e.jobs[t];
      && j.stage.Begin? && StopsOnly(j.op) && Active(e.status) && !e.policy.kind.RunOnce? && !e.raced
      && (e.policy.factory ==> j.op.TearDownOp? && !j.late)
    ensures var e := o.entries[i]; Attended(Take(o, Local(i, Working(t, c))), i, t, e.stops - B(e.stopsCounted))
  {
    hide NextStart, Through, CanWork, InstancesByJob;
  }

  lemma AttendedIsCounted(e: Entry, t: nat)
    requires Shaped(e) && Accounted(e) && t in e.jobs && Attending(e.policy, e.jobs[t]) && e.jobs[t].stage.Return?
    requires e.jobs[t].completed && (e.policy.factory ==> !e.jobs[t].failed)
    ensures e.stopsCounted
  {
    hide Shaped;
    OnlyFactoryIsLate(e, t);
    assert Booked(e.policy.factory, e.jobs[t]);
  }

  lemma KeptAccounts(phase: Phase, found: Entry, e: Entry)
    requires Keeps(phase, found, e) && !e.raced
    ensures Shaped(e) && Accounted(e)
  {
    hide Reserved, Sound, Shaped, Accounted, Leaves, SinceOk, CalmOk, UpOk, JobsOwned;
  }

  /** A StopService or StopGroup looked at the status of a service at turn b and found it active; it returns at turn
      n with its stop completed. Then the stop is counted, exactly once: by the operation, or by the exit that won
      the latch, before or after that moment. (A self-healing service is awaited by StopService only, and the stop
      must have come in time and gone well.) */
  lemma StopIsCountedOnce(run: seq<Orch>, turns: seq<Turn>, b: nat, n: nat, c: Choice, t: nat, i: nat)
    requires Execution(run, turns) && b < n < |turns| && i < |run[b].entries| && t in run[b].entries[i].jobs
    requires turns[b] == Local(i, Working(t, c))
    requires var e := run[b].entries[i]; var j := e.jobs[t];
      && j.stage.Begin? && StopsOnly(j.op) && Active(e.status) && !e.policy.kind.RunOnce? && !e.raced
      && (e.policy.factory ==> j.op.TearDownOp? && !j.late)
    requires turns[n] == Turn.Return(t) && forall k :: b < k < n ==> turns[k] != Turn.Return(t)
    ensures i < |run[n].entries| && t in run[n].entries[i].jobs
    ensures var e, f := run[b].entries[i], run[n].entries[i];
      f.jobs[t].completed && (f.policy.factory ==> !f.jobs[t].failed) ==>
        f.stopsCounted && f.stops == e.stops + B(!e.stopsCounted)
  {
    hide Inv, Attending, GivenUp, Through, CanWork, Accounted, Leaves;
    assert CanTake(run[b], turns[b]) && run[b + 1] == Take(run[b], turns[b]);
    assert CanTake(run[n], turns[n]);
    var base := run[b].entries[i].stops - B(run[b].entries[i].stopsCounted);
    BeginAttends(run[b], c, t, i);
    StaysAttended(run, turns, b + 1, n, i, t, base);
    RunInv(run, turns, n);
    EndsCounted(run[n], i, t, base);
  }

  lemma EndsCounted(o: Orch, i: nat, t: nat, base: int)
    requires Inv(o) && Attended(o, i, t, base) && CanTake(o, Turn.Return(t)) && t != STOP
    ensures var f := o.entries[i];
      f.jobs[t].completed && (f.policy.factory ==> !f.jobs[t].failed) ==> f.stopsCounted && f.stops == base + 1
  {
    hide Keeps, Attending, Accounted, Leaves, Shaped;
    assert EntryInv(o, i);
    KeptAccounts(o.phase, FoundAt(o, i), o.entries[i]);
    var f := o.entries[i];
    AttendingHolds(f.policy, f.jobs[t]);
    assert CanRelease(f, t);
    if f.jobs[t].completed && (f.policy.factory ==> !f.jobs[t].failed) { AttendedIsCounted(f, t); }
  }

  /** The newest instance has no verdict in hand that would overrule the stop. */
  predicate NotJudging(instances: seq<Instance>) {
    |instances| > 0 ==>
      !instances[|instances| - 1].at.SeeTeardown? && !instances[|instances| - 1].at.SetCrashed?
  }

  /** How far a group stop has got: once its sequence is completed it ends the service. */
  predicate GroupStage(status: Status, j: Job) {
    && j.op.GroupStopOp?
    && (|| j.stage.Begin? || j.stage.Mark? || j.stage.Sequence?
        || ((j.stage.Read? || j.stage.Commit?) && j.completed)
        || (j.stage.Account? && j.completed && Ended(status))
        || (j.stage.Return? && (j.completed || j.failed) && (j.completed ==> Ended(status))))
  }

  predicate GroupGoes(e: Entry, t: nat) {
    !e.policy.factory && t in e.jobs && GroupStage(e.status, e.jobs[t]) && NotJudging(e.instances)
  }

  lemma NextGroup(e: Entry, j: Job, c: Choice)
    requires GroupStage(e.status, j) && !j.stage.Return?
    ensures GroupStage(StatusByJob(e.status, j, c), NextStop(e, j, c)) && !IsStart(j.stage)
  {
  }

  lemma WorkGroup(e: Entry, t: nat, s: nat, c: Choice)
    requires Reserved(e) && AllHold(e) && GroupGoes(e, t) && CanWork(e, s, c)
    ensures GroupGoes(Work(e, s, c), t)
  {
    hide NextStart, NextStop, StatusByJob, Reserved, AllHold, GroupStage, NotJudging, InstancesByJob;
    GroupHolds(e.status, e.jobs[t]);
    OnlyJob(e, s, t);
    NextGroup(e, e.jobs[t], c);
    GroupInstalls(e.status, e.jobs[t], e.instances);
  }

  lemma GroupHolds(status: Status, j: Job)
    requires GroupStage(status, j)
    ensures HoldsRemoving(j.op) && !j.stage.Fit? && !j.stage.Launch?
  {
  }

  lemma GroupInstalls(status: Status, j: Job, instances: seq<Instance>)
    requires GroupStage(status, j)
    ensures InstancesByJob(instances, j) == instances
  {
  }

  /** Under its removing flag an instance judges nothing that it had not judged before. */
  lemma NextYields(e: Entry, x: Instance, c: Choice)
    requires e.removing && !x.at.SeeTeardown? && !x.at.SetCrashed? && PointFits(false, x.at)
    requires !x.at.Pending? && !e.policy.factory
    ensures var y := NextInstance(e, x, false, c); !y.at.SeeTeardown? && !y.at.SetCrashed?
    ensures Ended(e.status) ==> Ended(StatusByInstance(e.status, x.at))
    ensures !x.at.Install? && !x.at.Respawn?
  {
    hide NextDecision, NextRestart;
  }

  lemma AdvanceGroup(e: Entry, t: nat, k: nat, c: Choice)
    requires Reserved(e) && Shaped(e) && GroupGoes(e, t) && CanAdvance(e, k)
    ensures GroupGoes(Advance(e, k, false, c), t)
  {
    hide NextInstance, StatusByInstance, Reserved, Fits, Tethered, Latest, PointsFit, PointFits;
    GroupHolds(e.status, e.jobs[t]);
    RemovingHeld(e, t);
    PointOf(e, k);
    NextYields(e, e.instances[k], c);
  }

  lemma RemovingHeld(e: Entry, t: nat)
    requires Reserved(e) && t in e.jobs && HoldsRemoving(e.jobs[t].op)
    ensures e.removing
  {
  }

  lemma DoGroup(e: Entry, a: Action, t: nat)
    requires Reserved(e) && AllHold(e) && Shaped(e) && GroupGoes(e, t) && Can(e, a) && !a.Reserving?
    requires a.Releasing? ==> a.t != t
    ensures GroupGoes(Do(e, false, a), t)
  {
    hide Reserved, AllHold, Shaped, Work, Advance, CanWork, CanAdvance, CanRelease, GroupStage, NotJudging;
    match a
    case Working(s, c) => WorkGroup(e, t, s, c);
    case Advancing(k, c) => AdvanceGroup(e, t, k, c);
    case Releasing(s) =>
  }

  /** A group stop at work before any shutdown. */
  predicate GroupGoing(o: Orch, i: nat, t: nat) {
    i < |o.entries| && GroupGoes(o.entries[i], t) && !ContextDone(o.phase)
  }

  lemma OthersGroup(o: Orch, m: Turn, i: nat, t: nat)
    requires CanTake(o, m) && GroupGoing(o, i, t) && !ContextDone(Take(o, m).phase)
    requires !(m.Local? && m.i == i) && m != Turn.Return(t)
    ensures GroupGoing(Take(o, m), i, t)
  {
    hide GroupStage, NotJudging, Do, Can, CanReserve, CanRelease, StopsAt, StopFailed, Reserve, ReleaseJob;
    OtherTurnsKeep(o, m, i);
    var e := o.entries[i];
    match m
    case Claim(s, ops) => if i in ops { ReserveTolls(e, s, ops[i], t); }
    case Return(s) => if s in e.jobs { ReleaseTolls(e, s, t); }
    case _ =>
  }

  lemma TurnGroup(o: Orch, m: Turn, i: nat, t: nat)
    requires Inv(o) && CanTake(o, m) && GroupGoing(o, i, t) && m != Turn.Return(t) && !ContextDone(Take(o, m).phase)
    ensures GroupGoing(Take(o, m), i, t)
  {
    hide Keeps, GroupStage, NotJudging, Do, Take, CanTake, Reserved, Shaped, Inv, AllHold;
    if m.Local? && m.i == i {
      var e := o.entries[i];
      GroupAt(o, i);
      LocalTurn(o, m);
      SamePhase(o, m);
      DoGroup(e, m.a, t);
      DoStays(e, false, m.a);
    } else {
      OthersGroup(o, m, i, t);
    }
  }

  lemma SamePhase(o: Orch, m: Turn)
    requires CanTake(o, m) && m.Local?
    ensures Take(o, m).phase == o.phase
  {
    hide Do, Can;
  }

  /** Nothing without a factory is ever raced. */
  lemma GroupAt(o: Orch, i: nat)
    requires Inv(o) && i < |o.entries| && !o.entries[i].policy.factory && !ContextDone(o.phase)
    ensures Reserved(o.entries[i]) && Shaped(o.entries[i]) && AllHold(o.entries[i])
  {
    hide Reserved, Sound, Shaped, JobsOwned, UpOk, SinceOk, CalmOk, Inv, Accounted, Leaves;
    assert EntryInv(o, i) by { EntryAt(o, i); }
    KeepsSound(o.phase, FoundAt(o, i), o.entries[i]);
    OwnedHold(o.phase, o.entries[i]);
  }

  lemma {:induction false} PhaseOnward(run: seq<Orch>, turns: seq<Turn>, m: nat, n: nat)
    requires Execution(run, turns) && m <= n < |run| && !ContextDone(run[n].phase)
    ensures !ContextDone(run[m].phase)
  {
    hide Do, Can, Claimed, Returned, Wound, Resumed;
    if m < n {
      assert CanTake(run[n - 1], turns[n - 1]) && run[n] == Take(run[n - 1], turns[n - 1]);
      PhaseOnward(run, turns, m, n - 1);
    }
  }

  lemma {:induction false} StaysGoing(run: seq<Orch>, turns: seq<Turn>, m: nat, n: nat, i: nat, t: nat)
    requires Execution(run, turns) && m <= n < |run| && GroupGoing(run[m], i, t) && !ContextDone(run[n].phase)
    requires forall k :: m <= k < n ==> turns[k] != Turn.Return(t)
    ensures GroupGoing(run[n], i, t)
  {
    hide Inv, CanTake, Take, GroupGoing;
    if m < n {
      PhaseOnward(run, turns, n - 1, n);
      StaysGoing(run, turns, m, n - 1, i, t);
      RunInv(run, turns, n - 1);
      assert run[n] == Take(run[n - 1], turns[n - 1]);
      TurnGroup(run[n - 1], turns[n - 1], i, t);
    }
  }

  /** A StopGroup that claimed a service without a factory at turn w, and returns at turn n before any shutdown, has
      left it Stopped or Succeeded if its stop sequence was completed, as it was if nothing failed; unless an
      instance was past its check of the claim already, with its verdict in hand. */
  lemma GroupStopEnds(run: seq<Orch>, turns: seq<Turn>, w: nat, n: nat, ops: map<nat, Op>, t: nat, i: nat)
    requires Execution(run, turns) && w < n < |turns| && turns[w] == Claim(t, ops) && i < |run[w].entries|
    requires i in ops && ops[i].GroupStopOp? && !run[w].entries[i].policy.factory
    requires NotJudging(run[w].entries[i].instances)
    requires turns[n] == Turn.Return(t) && forall k :: w < k < n ==> turns[k] != Turn.Return(t)
    requires !ContextDone(run[n].phase)
    ensures i < |run[n].entries| && t in run[n].entries[i].jobs && i < |run[n + 1].entries|
    ensures var j := run[n].entries[i].jobs[t];
      (!j.failed ==> j.completed) && (j.completed ==> Ended(run[n + 1].entries[i].status))
  {
    hide Inv, CanTake, Take, NotJudging, GroupGoing;
    assert CanTake(run[w], turns[w]) && run[w + 1] == Take(run[w], turns[w]);
    assert CanTake(run[n], turns[n]) && run[n + 1] == Take(run[n], turns[n]);
    PhaseOnward(run, turns, w, n);
    ClaimGoes(run[w], t, ops, i);
    StaysGoing(run, turns, w + 1, n, i, t);
    ReturnsGone(run[n], i, t);
  }

  lemma ClaimGoes(o: Orch, t: nat, ops: map<nat, Op>, i: nat)
    requires CanTake(o, Claim(t, ops)) && i < |o.entries| && i in ops && ops[i].GroupStopOp?
    requires !o.entries[i].policy.factory && NotJudging(o.entries[i].instances) && !ContextDone(o.phase)
    ensures GroupGoing(Take(o, Claim(t, ops)), i, t)
  {
    hide NotJudging, CanReserve, AtRest;
  }

  lemma ReturnsGone(o: Orch, i: nat, t: nat)
    requires CanTake(o, Turn.Return(t)) && GroupGoing(o, i, t)
    ensures i < |o.entries| && t in o.entries[i].jobs && i < |Take(o, Turn.Return(t)).entries|
    ensures var j := o.entries[i].jobs[t];
      (!j.failed ==> j.completed) && (j.completed ==> Ended(Take(o, Turn.Return(t)).entries[i].status))
  {
    hide NotJudging;
    ReleaseSame(o.entries[i], t);
    EndsGroup(o.entries[i], t);
  }

  lemma EndsGroup(e: Entry, t: nat)
    requires GroupGoes(e, t) && CanRelease(e, t)
    ensures var j := e.jobs[t]; (!j.failed ==> j.completed) && (j.completed ==> Ended(e.status))
  {
  }

  /** The stop has still to run the stop sequence. */
  predicate BeforeSequence(stage: Stage) {
    stage.Begin? || stage.Mark? || stage.Sequence?
  }

  /** The stop has run it, and will not again. */
  predicate AfterIt(stage: Stage) {
    !BeforeSequence(stage) && !stage.Validate? && !stage.Skip? && !stage.Cancel? && !stage.Watch?
  }

  /** One stop sequence is run in all, when q were before. */
  predicate Sequenced(e: Entry, t: nat, q: nat) {
    && t in e.jobs && Holds(e.jobs[t].op)
    && if BeforeSequence(e.jobs[t].stage) then e.sequences == q else AfterIt(e.jobs[t].stage) && e.sequences == q + 1
  }

  lemma NextSequenced(e: Entry, j: Job, c: Choice)
    requires (BeforeSequence(j.stage) || AfterIt(j.stage)) && !j.stage.Return? && !j.stage.Hold?
    requires Holds(j.op) && StageFits(j.op, j.stage)
    ensures var y := NextJob(e, j, c);
      if BeforeSequence(j.stage) && !j.stage.Sequence? then BeforeSequence(y.stage) else AfterIt(y.stage)
  {
    hide NextStart, NextStop, StageFits, AfterIt, Holds;
    if IsStart(j.stage) { StartAfterIt(e, j, c); } else { StopAfterIt(e, j, c); }
  }

  lemma StartAfterIt(e: Entry, j: Job, c: Choice)
    requires IsStart(j.stage)
    ensures !BeforeSequence(j.stage) && AfterIt(NextStart(e, j, c).stage)
  {
  }

  lemma StopAfterIt(e: Entry, j: Job, c: Choice)
    requires (BeforeSequence(j.stage) || AfterIt(j.stage)) && !j.stage.Return? && !j.stage.Hold? && !IsStart(j.stage)
    ensures var y := NextStop(e, j, c);
      if BeforeSequence(j.stage) && !j.stage.Sequence? then BeforeSequence(y.stage) else AfterIt(y.stage)
  {
  }

  lemma WorkSequenced(e: Entry, t: nat, s: nat, c: Choice, q: nat)
    requires Reserved(e) && AllHold(e) && Staged(e) && CanWork(e, s, c) && Sequenced(e, t, q)
    ensures Sequenced(Work(e, s, c), t, q)
  {
    hide NextJob, Reserved, AllHold, BeforeSequence, AfterIt, StageFits, KindFits, StatusByJob, InstancesByJob, Counts;
    OnlyJob(e, s, t);
    var j := e.jobs[t];
    NextSequenced(e, j, c);
    SameOp(e, j, c);
    SequenceStage(j.stage);
    SequenceStage(NextJob(e, j, c).stage);
  }

  lemma SequenceStage(stage: Stage)
    ensures stage.Sequence? ==> BeforeSequence(stage)
    ensures AfterIt(stage) ==> !BeforeSequence(stage)
  {
  }

  lemma DoSequenced(e: Entry, a: Action, t: nat, q: nat)
    requires Reserved(e) && AllHold(e) && Sound(e) && Can(e, a) && !a.Reserving? && Sequenced(e, t, q)
    requires a.Releasing? ==> a.t != t
    ensures Sequenced(Do(e, false, a), t, q)
  {
    hide Reserved, AllHold, Sound, Work, CanWork, CanRelease, NextInstance, InstancesByInstance, BeforeSequence,
         AfterIt;
    SoundStaged(e);
    match a
    case Working(s, c) => WorkSequenced(e, t, s, c, q);
    case Advancing(k, c) =>
    case Releasing(s) =>
  }

  predicate Sequencing(o: Orch, i: nat, t: nat, q: nat) {
    i < |o.entries| && Sequenced(o.entries[i], t, q) && !ContextDone(o.phase)
  }

  predicate SameSequences(e: Entry, f: Entry, t: nat) {
    f.sequences == e.sequences && t in e.jobs && t in f.jobs && f.jobs[t] == e.jobs[t]
  }

  lemma ReserveSequences(e: Entry, s: nat, op: Op, t: nat)
    requires t in e.jobs && s != t
    ensures SameSequences(e, Reserve(e, s, op), t)
  {
    hide AtRest;
  }

  lemma ReleaseSequences(e: Entry, s: nat, t: nat)
    requires t in e.jobs && s in e.jobs && s != t
    ensures SameSequences(e, ReleaseJob(e, s), t)
  {
  }

  lemma OthersSequenced(o: Orch, m: Turn, i: nat, t: nat, q: nat)
    requires CanTake(o, m) && Sequencing(o, i, t, q) && !ContextDone(Take(o, m).phase)
    requires !(m.Local? && m.i == i) && m != Turn.Return(t)
    ensures Sequencing(Take(o, m), i, t, q)
  {
    hide BeforeSequence, AfterIt, Do, Can, CanReserve, CanRelease, StopsAt, StopFailed, Reserve, ReleaseJob;
    var e := o.entries[i];
    match m
    case Claim(s, ops) => if i in ops { ReserveSequences(e, s, ops[i], t); }
    case Return(s) => if s in e.jobs { ReleaseSequences(e, s, t); }
    case _ =>
  }

  lemma TurnSequenced(o: Orch, m: Turn, i: nat, t: nat, q: nat)
    requires Inv(o) && CanTake(o, m) && Sequencing(o, i, t, q) && m != Turn.Return(t)
    requires !ContextDone(Take(o, m).phase)
    ensures Sequencing(Take(o, m), i, t, q)
  {
    hide Keeps, Sequenced, Do, Take, CanTake, Reserved, Sound, Shaped, Inv, AllHold;
    if m.Local? && m.i == i {
      SequencedAt(o, i);
      LocalTurn(o, m);
      SamePhase(o, m);
      DoSequenced(o.entries[i], m.a, t, q);
    } else {
      OthersSequenced(o, m, i, t, q);
    }
  }

  lemma SequencedAt(o: Orch, i: nat)
    requires Inv(o) && i < |o.entries| && !ContextDone(o.phase)
    ensures Reserved(o.entries[i]) && Sound(o.entries[i]) && AllHold(o.entries[i])
  {
    hide Reserved, Sound, Shaped, JobsOwned, UpOk, SinceOk, CalmOk, Inv, Keeps, AllHold;
    assert EntryInv(o, i) by { EntryAt(o, i); }
    KeepsSound(o.phase, FoundAt(o, i), o.entries[i]);
    OwnedHold(o.phase, o.entries[i]);
  }

  lemma {:induction false} StaysSequenced(run: seq<Orch>, turns: seq<Turn>, m: nat, n: nat, i: nat, t: nat, q: nat)
    requires Execution(run, turns) && m <= n < |run| && Sequencing(run[m], i, t, q) && !ContextDone(run[n].phase)
    requires forall k :: m <= k < n ==> turns[k] != Turn.Return(t)
    ensures Sequencing(run[n], i, t, q)
  {
    hide Inv, CanTake, Take, Sequencing;
    if m < n {
      PhaseOnward(run, turns, n - 1, n);
      StaysSequenced(run, turns, m, n - 1, i, t, q);
      RunInv(run, turns, n - 1);
      assert run[n] == Take(run[n - 1], turns[n - 1]);
      TurnSequenced(run[n - 1], turns[n - 1], i, t, q);
    }
  }

  /** Whoever stops an entry, alone, with its dependents, with its group or to replace it, runs its stop sequence
      once: from the moment it began at turn b to its return at turn n, one was run, before any shutdown. */
  lemma StopSequenceRunsOnce(run: seq<Orch>, turns: seq<Turn>, b: nat, n: nat, t: nat, i: nat)
    requires Execution(run, turns) && b < n < |turns| && i < |run[b].entries| && t in run[b].entries[i].jobs
    requires run[b].entries[i].jobs[t].stage.Begin? && Holds(run[b].entries[i].jobs[t].op)
    requires turns[n] == Turn.Return(t) && forall k :: b <= k < n ==> turns[k] != Turn.Return(t)
    requires !ContextDone(run[n].phase)
    ensures i < |run[n].entries| && run[n].entries[i].sequences == run[b].entries[i].sequences + 1
  {
    hide Inv;
    assert CanTake(run[n], turns[n]);
    PhaseOnward(run, turns, b, n);
    StaysSequenced(run, turns, b, n, i, t, run[b].entries[i].sequences);
  }
}
