/** What the guarantees for a whole Stop exclude happens: operations in flight when Stop cancels can undo
    what it has done, each where its own condition fails. */
module StopRaces {
  import opened Services
  import opened Registry
  import opened Lifecycle
  import opened LifecycleShares
  import opened LifecycleStops
  import opened LifecycleCredits
  import opened Shutdown
  import opened Winddown
  import opened Runs
  import opened Races

  /** The one entry of an orchestrator that Stop winds down, on which only operation t and Stop are at work. */
  predicate Winds(o: Orch, t: nat) {
    && o.phase.Winding? && |o.entries| == 1 && t != STOP && o.entries[0].jobs.Keys == {STOP, t}
    && o.entries[0].jobs[STOP].op.ShutdownOp?
  }

  /** Stop begins and takes the entry over from its operation. */
  lemma WindsSolo(o: Orch, t: nat) returns (p: Orch)
    requires Reachable(o) && Solo(o) && t != STOP && o.entries[0].jobs.Keys == {t} && !o.entries[0].removed
    ensures Reachable(p) && Winds(p, t) && p.entries[0] == Reserve(o.entries[0], STOP, ShutdownOp)
    ensures p.found == o.entries
  {
    hide From;
    p := Go(Init(), o, BeginStop);
    p := Go(Init(), p, Wind);
  }

  predicate SameStart(s: Entry, f: Entry) {
    && SameFlags(s, f) && f.instances == s.instances && f.share == s.share && f.wgDone == s.wgDone
    && f.starts == s.starts && f.restarts == s.restarts && f.raced == s.raced
  }

  /** The stages of a stop that touch nothing but the status and the latch. */
  predicate Sweeping(stage: Stage) {
    stage.Begin? || stage.Mark? || stage.Sequence? || stage.Read? || stage.Commit? || stage.Account?
  }

  lemma SweepFrame(s: Entry, t: nat)
    requires t in s.jobs && Sweeping(s.jobs[t].stage)
    ensures var f, j := Work(s, t, FINE), s.jobs[t];
      && CanWork(s, t, FINE) && SameStart(s, f) && SameOthers(s, f, t) && f.done == s.done
      && f.jobs[t] == NextStop(s, j, FINE) && f.status == StatusByJob(s.status, j, FINE)
      && f.stops == s.stops + B(Counts(s, j)) && f.stopsCounted == (s.stopsCounted || Counts(s, j))
  {
    hide NextStart, NextStop, StatusByJob, Counts;
  }

  lemma SweepStep(s: Entry, t: nat)
    requires t in s.jobs && (s.jobs[t].stage.Begin? || s.jobs[t].stage.Mark? || s.jobs[t].stage.Sequence?)
    ensures var f, j := Work(s, t, FINE), s.jobs[t];
      && CanWork(s, t, FINE) && SameStart(s, f) && SameOthers(s, f, t) && f.stops == s.stops
      && f.stopsCounted == s.stopsCounted
      && f.jobs[t].op == j.op && f.done == s.done && f.jobs[t].channel == j.channel
      && (if j.stage.Begin? then f.jobs[t].stage.Mark? && f.jobs[t].sampled == s.status && f.status == s.status
          else if j.stage.Mark? then
            && f.jobs[t].stage.Sequence? && f.jobs[t].sampled == j.sampled
            && f.status == (if j.sampled == Succeeded then s.status else Stopping)
          else f.jobs[t].stage == AfterSequence(j.op, true) && f.jobs[t].completed && !f.jobs[t].failed
               && f.jobs[t].sampled == j.sampled && f.status == s.status)
  {
    hide Work, CanWork, SameStart, SameOthers;
    SweepFrame(s, t);
  }

  /** Stop marks the entry and stops it. */
  lemma SweepLeads(e: Entry, s: Entry) returns (f: Entry)
    requires Leads(true, e, s) && STOP in s.jobs && s.jobs[STOP].op.ShutdownOp? && s.jobs[STOP].stage.Mark?
    requires s.jobs[STOP].sampled != Succeeded
    ensures Leads(true, e, f) && SameStart(s, f) && SameOthers(s, f, STOP) && f.stops == s.stops
    ensures f.stopsCounted == s.stopsCounted
    ensures f.jobs[STOP].op.ShutdownOp? && f.jobs[STOP].stage.Hold? && f.jobs[STOP].completed && !f.jobs[STOP].failed
    ensures f.jobs[STOP].sampled == s.jobs[STOP].sampled && f.status == Stopping
  {
    hide Leads, Work, CanWork;
    SweepStep(s, STOP);
    f := WorkOn(true, e, s, STOP);
    SweepStep(f, STOP);
    f := WorkOn(true, e, f, STOP);
  }

  lemma CommitStep(s: Entry, t: nat)
    requires t in s.jobs && s.jobs[t].op.ShutdownOp? && s.status != Succeeded
    requires s.jobs[t].stage.Read? || s.jobs[t].stage.Commit? || s.jobs[t].stage.Account?
    ensures var f, j := Work(s, t, FINE), s.jobs[t];
      && CanWork(s, t, FINE) && SameStart(s, f) && SameOthers(s, f, t) && f.jobs[t].sampled == j.sampled
      && f.jobs[t].failed == j.failed
      && f.jobs[t].op == j.op && f.stops == s.stops + B(Counts(s, j))
      && (!j.stage.Account? ==> f.stopsCounted == s.stopsCounted)
      && (if j.stage.Read? then f.jobs[t].stage.Commit? && f.status == s.status
          else f.status == (if j.stage.Commit? then Stopped else s.status)
               && f.jobs[t].stage == if j.stage.Commit? then Account else Stage.Return)
  {
    hide Work, CanWork, SameStart, SameOthers;
    SweepFrame(s, t);
  }

  /** The commit after the wait. */
  lemma CommitLeads(e: Entry, s: Entry) returns (f: Entry)
    requires Leads(true, e, s) && STOP in s.jobs && s.jobs[STOP].op.ShutdownOp?
    requires (s.jobs[STOP].stage.Read? || s.jobs[STOP].stage.Commit?) && s.status != Succeeded
    ensures Leads(true, e, f) && SameStart(s, f) && SameOthers(s, f, STOP) && f.status == Stopped
    ensures f.jobs[STOP].stage == Stage.Return && f.jobs[STOP].failed == s.jobs[STOP].failed
    ensures f.jobs[STOP].op.ShutdownOp?
    ensures f.stops == s.stops + B(Active(s.jobs[STOP].sampled) && !s.stopsCounted)
  {
    hide Leads, Work, CanWork;
    f := s;
    if s.jobs[STOP].stage.Read? {
      CommitStep(f, STOP);
      f := WorkOn(true, e, f, STOP);
    }
    CommitStep(f, STOP);
    f := WorkOn(true, e, f, STOP);
    CommitStep(f, STOP);
    f := WorkOn(true, e, f, STOP);
  }

  lemma OneShare(o: Orch)
    requires Reachable(o) && ContextDone(o.phase) && |o.entries| == 1
    ensures o.wg == o.entries[0].share
  {
    hide From, EntryInv;
    ReachableInv(o);
    assert o.entries[..0] == [];
    assert Total(o.entries) == Total(o.entries[..0]) + o.entries[0].share;
  }

  /** With its entry swept and nothing in the wait group, Stop gets past its wait. */
  lemma WaitsOut(o: Orch) returns (p: Orch)
    requires Reachable(o) && o.phase.Winding? && |o.entries| == 1 && STOP in o.entries[0].jobs
    requires o.entries[0].share == 0
    requires o.entries[0].jobs[STOP].stage.Hold? && o.entries[0].jobs[STOP].completed
    ensures Reachable(p) && p.phase.Waited? && |p.entries| == 1 && p.found == o.found
    ensures p.entries[0] == Resume(o.entries[0], true)
  {
    hide From, Inv, Resume;
    OneShare(o);
    assert CanTake(o, Wait);
    p := Go(Init(), o, Wait);
  }

  /** And Stop comes to its end and reports success. */
  lemma Concludes(o: Orch, t: nat) returns (p: Orch)
    requires Reachable(o) && Winds(o, t) && !o.entries[0].raced && o.entries[0].share == 0
    requires o.entries[0].status != Succeeded
    requires var j := o.entries[0].jobs[STOP]; j.stage.Hold? && j.completed && !j.failed
    ensures Reachable(p) && p.phase == Down(false) && |p.entries| == 1 && p.found == o.found
    ensures var e, f := o.entries[0], p.entries[0];
      && SameStart(e, f) && f.jobs == e.jobs - {STOP} && f.status == Stopped
      && f.stops == e.stops + B(Active(e.jobs[STOP].sampled) && !e.stopsCounted)
  {
    hide From, Leads, Resume;
    var q := WaitsOut(o);
    ResumeRuns(o.entries[0]);
    Stay(true, q.entries[0]);
    var f := CommitLeads(q.entries[0], q.entries[0]);
    q := Lift(Init(), q, 0, f);
    assert CanTake(q, Finish);
    p := Go(Init(), q, Finish);
    assert p.entries[0] == ReleaseJob(f, STOP);
  }

  lemma ResumeRuns(e: Entry)
    requires STOP in e.jobs && e.jobs[STOP].completed
    ensures var f := Resume(e, true);
      && SameStart(e, f) && SameOthers(e, f, STOP) && f.status == e.status && f.stops == e.stops
      && f.stopsCounted == e.stopsCounted
      && f.jobs[STOP] == e.jobs[STOP].(stage := Read)
  {
  }

  function LeaveRank(at: Point): nat {
    match at
    case Live => 10
    case Sample => 9
    case SeeShutdown => 8
    case SeeRemoving => 7
    case Latch => 6
    case Release => 5
    case Untether => 4
    case Disown => 3
    case Closing => 2
    case _ => 0
  }

  /** An instance without a factory on its way out, while somebody else owns how the entry ends. */
  predicate Exits(e: Entry, ctxDone: bool) {
    && !e.policy.factory && |e.instances| == 1 && (ctxDone || e.removing)
    && (LeaveRank(e.instances[0].at) > 0 || e.instances[0].at.Closed?)
    && (LeaveRank(e.instances[0].at) >= 6 ==> !e.wgDone)
    && (e.instances[0].at.SeeRemoving? ==> e.removing)
  }

  lemma NextLeave(e: Entry, x: Instance, ctxDone: bool)
    requires !e.policy.factory && (ctxDone || e.removing) && LeaveRank(x.at) > 0 && (LeaveRank(x.at) >= 6 ==> !e.wgDone)
    requires x.at.SeeRemoving? ==> e.removing
    ensures var y := NextInstance(e, x, ctxDone, CALM);
      LeaveRank(y.at) < LeaveRank(x.at) && (LeaveRank(y.at) > 0 || y.at.Closed?) &&
          (LeaveRank(x.at) > 5 ==> LeaveRank(y.at) >= 5)
      && (x.at.Latch? ==> y.at.Release?) && (y.at.SeeRemoving? ==> e.removing)
  {
    hide NextDecision, NextRestart;
  }

  predicate SameGoing(s: Entry, f: Entry) {
    && f.policy == s.policy && f.removing == s.removing && f.removed == s.removed && f.jobs == s.jobs
    && f.done == s.done
    && f.status == s.status && f.stops == s.stops && f.stopsCounted == s.stopsCounted && f.starts == s.starts
    && f.restarts == s.restarts && f.raced == s.raced
  }

  /** What a goroutine on its way out touches. */
  lemma LeaveFrame(s: Entry, ctxDone: bool)
    requires |s.instances| == 1 && LeaveRank(s.instances[0].at) > 0
    ensures var f, x := Advance(s, 0, ctxDone, CALM), s.instances[0];
      && CanAdvance(s, 0) && SameGoing(s, f) && f.instances == [NextInstance(s, x, ctxDone, CALM)]
      && f.share == s.share - B(x.at.Release?) && f.wgDone == (s.wgDone || x.at.Latch?)
  {
    hide NextInstance;
  }

  lemma LeaveStep(s: Entry, ctxDone: bool)
    requires Exits(s, ctxDone) && !s.instances[0].at.Closed?
    ensures var f := Advance(s, 0, ctxDone, CALM);
      && CanAdvance(s, 0) && SameGoing(s, f) && Exits(f, ctxDone)
      && LeaveRank(f.instances[0].at) < LeaveRank(s.instances[0].at)
      && f.share - B(LeaveRank(f.instances[0].at) >= 5) == s.share - B(LeaveRank(s.instances[0].at) >= 5)
  {
    hide NextInstance, Advance, CanAdvance;
    LeaveFrame(s, ctxDone);
    NextLeave(s, s.instances[0], ctxDone);
  }

  lemma {:induction false} LeaveLeads(ctxDone: bool, e: Entry, s: Entry) returns (f: Entry)
    requires Leads(ctxDone, e, s) && Exits(s, ctxDone)
    ensures Leads(ctxDone, e, f) && SameGoing(s, f) && |f.instances| == 1 && f.instances[0].at.Closed?
    ensures f.share == s.share - B(LeaveRank(s.instances[0].at) >= 5)
    decreases LeaveRank(s.instances[0].at)
  {
    hide Leads, Advance, CanAdvance;
    f := s;
    if !s.instances[0].at.Closed? {
      LeaveStep(s, ctxDone);
      f := AdvanceOn(ctxDone, e, s, 0);
      f := LeaveLeads(ctxDone, e, f);
    }
  }

  lemma WatchTwice(s: Entry, t: nat)
    requires t in s.jobs && s.jobs[t].stage.Watch?
    ensures var f, j := Work(s, t, FINE), s.jobs[t];
      && CanWork(s, t, FINE) && SameStart(s, f) == (f.raced == s.raced) && SameOthers(s, f, t) && f.status == s.status
      && f.stops == s.stops
      && f.stopsCounted == s.stopsCounted && f.raced == (s.raced || (j.op.ReplaceOp? && Through(s.instances)))
      && f.jobs[t].op == j.op && f.jobs[t].stage.Begin? && f.jobs[t].channel == s.done
  {
    hide NextStart;
  }

  lemma PrepareTwice(s: Entry, t: nat)
    requires t in s.jobs
    requires s.jobs[t].stage.Validate? || s.jobs[t].stage.Cancel? ||
        (s.jobs[t].stage.Skip? && s.jobs[t].op == TearDownOp(false, true))
    ensures var f, j := Work(s, t, FINE), s.jobs[t];
      && CanWork(s, t, FINE) && SameOthers(s, f, t) && f.jobs[t].op == j.op && f.status == s.status
      && f.stops == s.stops
      && f.stopsCounted == s.stopsCounted && f.policy == s.policy && f.removing == s.removing && f.removed == s.removed
      && f.instances == s.instances && f.share == s.share && f.wgDone == s.wgDone && f.starts == s.starts
      && f.restarts == s.restarts
      && f.raced == s.raced && f.done == s.done
      && (if j.stage.Cancel? then f.jobs[t].stage.Watch? else f.jobs[t].stage.Cancel?)
  {
    hide NextStart;
  }

  /** A service runs, and a teardown or a replacement of it has seen that and not marked it yet. */
  predicate Sampled(policy: Policy, op: Op, e: Entry) {
    && e.policy == policy && e.jobs.Keys == {2} && e.jobs[2].op == op && e.jobs[2].stage.Mark?
    && e.jobs[2].sampled == Running
    && e.jobs[2].channel == Some(0) && e.removing == op.TearDownOp? && !e.removed && !e.raced && |e.instances| == 1
    && e.instances[0].at.Live? && e.share == 1 && !e.wgDone && e.status == Running && e.starts == 1 && e.restarts == 0
    && e.stops == 0 && !e.stopsCounted
  }

  lemma SampleLeads(e: Entry, op: Op) returns (f: Entry)
    requires Started(e.policy, e.(jobs := map[], starting := false, removing := false))
    requires op.ReplaceOp? || op == TearDownOp(false, true)
    requires e.jobs.Keys == {2} && e.jobs[2].op == op && e.jobs[2].stage == (if op.ReplaceOp? then Validate else Skip)
    requires e.removing == op.TearDownOp? && e.starting == op.ReplaceOp?
    ensures Leads(false, e, f) && Sampled(e.policy, op, f)
  {
    hide Leads, Work, CanWork;
    Stay(false, e);
    PrepareTwice(e, 2);
    f := WorkOn(false, e, e, 2);
    PrepareTwice(f, 2);
    f := WorkOn(false, e, f, 2);
    WatchTwice(f, 2);
    f := WorkOn(false, e, f, 2);
    SweepStep(f, 2);
    f := WorkOn(false, e, f, 2);
  }

  lemma SamplesRunning(policy: Policy, op: Op) returns (o: Orch)
    requires policy.kind.Persistent? && !policy.factory && (op.ReplaceOp? || op == TearDownOp(false, true))
    ensures Reachable(o) && Solo(o) && Sampled(policy, op, o.entries[0])
  {
    hide From, Leads, Sampled;
    o := StartsFresh(policy);
    o := Claims(o, 2, op);
    var f := SampleLeads(o.entries[0], op);
    o := Lift(Init(), o, 0, f);
  }

  /** Stop samples the status in its turn. */
  lemma StopSamples(o: Orch, t: nat) returns (p: Orch)
    requires Reachable(o) && Winds(o, t) && o.entries[0].jobs[STOP].stage.Begin?
    ensures Reachable(p) && Winds(p, t) && p.found == o.found
    ensures var e, f := o.entries[0], p.entries[0];
      && SameStart(e, f) && f.done == e.done && f.jobs[t] == e.jobs[t] && f.jobs[STOP].stage.Mark?
      && f.jobs[STOP].sampled == e.status
      && f.status == e.status && f.stops == e.stops && f.stopsCounted == e.stopsCounted
  {
    hide From, Leads, Work, CanWork;
    Stay(true, o.entries[0]);
    SweepStep(o.entries[0], STOP);
    var f := WorkOn(true, o.entries[0], o.entries[0], STOP);
    p := Lift(Init(), o, 0, f);
  }

  /** It marks the entry and stops it. */
  lemma StopSweeps(o: Orch, t: nat) returns (p: Orch)
    requires Reachable(o) && Winds(o, t) && o.entries[0].jobs[STOP].stage.Mark?
    requires o.entries[0].jobs[STOP].sampled != Succeeded
    ensures Reachable(p) && Winds(p, t) && p.found == o.found
    ensures var e, f := o.entries[0], p.entries[0];
      && SameStart(e, f) && f.jobs[t] == e.jobs[t] && f.stops == e.stops && f.stopsCounted == e.stopsCounted
      && f.status == Stopping
      && f.jobs[STOP].stage.Hold? && f.jobs[STOP].completed && !f.jobs[STOP].failed
      && f.jobs[STOP].sampled == e.jobs[STOP].sampled
  {
    hide From, Leads;
    Stay(true, o.entries[0]);
    var f := SweepLeads(o.entries[0], o.entries[0]);
    p := Lift(Init(), o, 0, f);
  }

  /** A teardown has seen the service Running; its instance has exited since. */
  lemma SamplesExited(policy: Policy) returns (o: Orch)
    requires policy.kind.Persistent? && !policy.factory
    ensures Reachable(o) && Solo(o)
    ensures var e := o.entries[0];
      && e.jobs.Keys == {2} && e.jobs[2].op == TearDownOp(false, true) && e.jobs[2].stage.Mark?
      && e.jobs[2].sampled == Running
      && !e.removed && !e.raced && e.share == 0 && e.status == Running
  {
    hide From, Leads;
    o := SamplesRunning(policy, TearDownOp(false, true));
    Stay(false, o.entries[0]);
    var f := LeaveLeads(false, o.entries[0], o.entries[0]);
    o := Lift(Init(), o, 0, f);
  }

  /** A teardown that saw the service Running just before Stop took over leaves it Stopping after Stop has
      reported success: it was not past its mark when Stop cancelled. */
  lemma TeardownLeavesStopping(policy: Policy) returns (o: Orch)
    requires policy.kind.Persistent? && !policy.factory
    ensures Reachable(o) && o.phase == Down(false) && |o.entries| == 1 && |o.found| == 1
    ensures !o.entries[0].removed && o.entries[0].status == Stopping && NoStarts(o.found[0]) && !AllSpent(o.found[0])
  {
    hide From, Leads, Work, CanWork;
    o := SamplesExited(policy);
    assert NoStarts(o.entries[0]) && 2 in o.entries[0].jobs && !Spent(policy, o.entries[0].jobs[2]);
    o := WindsSolo(o, 2);
    o := Overruns(o);
    Stay(true, o.entries[0]);
    SweepStep(o.entries[0], 2);
    var f := WorkOn(true, o.entries[0], o.entries[0], 2);
    o := Lift(Init(), o, 0, f);
  }

  /** Stop overtakes the teardown. */
  lemma Overruns(o: Orch) returns (p: Orch)
    requires Reachable(o) && Winds(o, 2) && o.entries[0].jobs[STOP].stage.Begin?
    requires var e := o.entries[0]; !e.removed && !e.raced && e.share == 0 && e.status == Running
    ensures Reachable(p) && p.phase == Down(false) && |p.entries| == 1 && p.found == o.found
    ensures !p.entries[0].removed && 2 in p.entries[0].jobs && p.entries[0].jobs[2] == o.entries[0].jobs[2]
  {
    hide From;
    p := StopSamples(o, 2);
    p := StopSweeps(p, 2);
    p := Concludes(p, 2);
  }

  /** Stop overtakes a first start. */
  lemma OverrunsStart(policy: Policy) returns (o: Orch)
    requires policy.kind.Persistent?
    ensures Reachable(o) && o.phase == Down(false) && |o.entries| == 1 && |o.found| == 1 && !AllBarren(o.found[0])
    ensures var e := o.entries[0];
      && e.policy == policy && !e.raced && !e.removed && !e.removing && e.instances == [] && 1 in e.jobs
      && e.jobs[1].stage.Guard? && e.share == 0
  {
    hide From, Leads;
    o := RegistersFresh(policy);
    o := Claims(o, 1, StartOp);
    assert 1 in o.entries[0].jobs && !Barren(policy, o.entries[0].jobs[1]);
    o := WindsSolo(o, 1);
    o := StopSamples(o, 1);
    o := StopSweeps(o, 1);
    o := Concludes(o, 1);
  }

  /** A start that Stop found in flight brings its service up after Stop has reported success. */
  lemma StartOutlivesStop(policy: Policy) returns (o: Orch)
    requires policy.kind.Persistent?
    ensures Reachable(o) && o.phase == Down(false) && |o.entries| == 1 && |o.found| == 1 && !AllBarren(o.found[0])
    ensures !o.entries[0].raced && LiveEras(o.entries[0]) != {} && o.wg == 1
  {
    hide From, Leads, AllBarren;
    o := OverrunsStart(policy);
    Stay(true, o.entries[0]);
    var f := StartLeads(true, o.entries[0], o.entries[0], 1);
    o := Lift(Init(), o, 0, f);
    assert 0 in LiveEras(f);
    OneShare(o);
  }

  /** The hook of the start fails. */
  const FAIL: Choice := Choice(false, true, Clean)

  lemma FailStep(s: Entry, t: nat, c: Choice)
    requires t in s.jobs && !s.removed && !s.removing
    requires s.jobs[t].stage.Guard? || (s.jobs[t].stage.Hook? && c == FAIL)
    ensures var f, j := Work(s, t, c), s.jobs[t];
      && CanWork(s, t, c) && SameStart(s, f) && SameOthers(s, f, t) && f.stops == s.stops
      && (!s.stopsCounted ==> !f.stopsCounted)
      && f.jobs[t].op == j.op && (if j.stage.Guard? then f.jobs[t].stage.Hook?
           else f.jobs[t].stage.Return? && f.status == Stopped)
  {
    hide NextStop;
  }

  /** The start comes to nothing. */
  lemma FailLeads(e: Entry, s: Entry, t: nat) returns (f: Entry)
    requires Leads(true, e, s) && t in s.jobs && s.jobs[t].stage.Guard? && !s.removed && !s.removing
    ensures Leads(true, e, f) && SameStart(s, f) && SameOthers(s, f, t) && f.stops == s.stops
    ensures (!s.stopsCounted ==> !f.stopsCounted)
    ensures f.jobs[t].stage.Return? && f.jobs[t].op == s.jobs[t].op && f.status == Stopped
  {
    hide Leads, Work, CanWork;
    FailStep(s, t, FINE);
    f := WorkOn(true, e, s, t);
    FailStep(f, t, FAIL);
    f := Step(true, e, f, Working(t, FAIL));
  }

  /** The replacement stops the service and counts that, renews the latch, and fails to start it again. */
  lemma ReplaceCounts(e: Entry) returns (f: Entry)
    requires e.jobs.Keys == {STOP, 2} && e.jobs[2].op.ReplaceOp? && e.jobs[2].stage.Mark?
    requires e.jobs[2].sampled == Running
    requires e.jobs[2].channel == Some(0) && !e.policy.factory && e.policy.kind.Persistent? && !e.removed && !e.removing
    requires |e.instances| == 1 && e.instances[0].at.Live? && e.share == 1 && !e.wgDone && e.stops == 0
    requires !e.stopsCounted
    ensures Leads(true, e, f) && f.jobs.Keys == {STOP, 2} && f.jobs[STOP] == e.jobs[STOP] && f.jobs[2].stage.Return?
    ensures f.stops == 1 && !f.stopsCounted && f.starts == e.starts && f.restarts == e.restarts && f.raced == e.raced
    ensures |f.instances| == 1 && f.instances[0].at.Closed? && f.share == 0 && f.status == Stopped && !f.removed
  {
    hide Leads, Work, CanWork;
    Stay(true, e);
    SweepStep(e, 2);
    f := WorkOn(true, e, e, 2);
    SweepStep(f, 2);
    f := WorkOn(true, e, f, 2);
    f := LeaveLeads(true, e, f);
    f := StopLeads(true, e, f, 2);
    f := FailLeads(e, f, 2);
  }

  /** A replacement that Stop found before its stop was done renews the latch under Stop, which counts the
      same instance again: two stops for one start. */
  lemma ReplaceCountsTwice(policy: Policy) returns (o: Orch)
    requires policy.kind.Persistent? && !policy.factory
    ensures Reachable(o) && o.phase == Down(false) && |o.entries| == 1 && |o.found| == 1 && !NoneUndone(o.found[0])
    ensures var e := o.entries[0];
      && !e.removed && !e.raced && e.stops == 2 && e.starts == 1 && e.restarts == 0
      && !Window(e) && forall k :: 0 <= k < |e.instances| ==> !e.instances[k].at.Tally?
  {
    hide From, Leads;
    o := SamplesRunning(policy, ReplaceOp);
    assert 2 in o.entries[0].jobs && Undone(o.entries[0].jobs[2]);
    o := WindsSolo(o, 2);
    o := StopSamples(o, 2);
    var f := ReplaceCounts(o.entries[0]);
    o := Lift(Init(), o, 0, f);
    o := StopSweeps(o, 2);
    o := Concludes(o, 2);
  }
}
