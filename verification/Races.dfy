/** What the guarantees for self-healing services exclude happens: a stop or a replacement that chooses its
    exit channel while a restart is past its check of the teardown. */
module Races {
  import opened Services
  import opened Registry
  import opened Lifecycle
  import opened LifecycleFlow
  import opened LifecycleSafety
  import opened LifecycleShares
  import opened Shutdown
  import opened Runs

  /** The entry can get from e to f by steps of its operations and its instances. */
  ghost predicate Leads(ctxDone: bool, e: Entry, f: Entry) {
    exists states: seq<Entry>, actions: seq<Action> ::
      Walk(ctxDone, states, actions) && states[0] == e && states[|actions|] == f
  }

  ghost predicate Walk(ctxDone: bool, states: seq<Entry>, actions: seq<Action>) {
    && |states| == |actions| + 1
    && forall i :: 0 <= i < |actions| ==>
         && (actions[i].Working? || actions[i].Advancing?) && Can(states[i], actions[i])
         && states[i + 1] == Do(states[i], ctxDone, actions[i])
  }

  lemma Stay(ctxDone: bool, e: Entry)
    ensures Leads(ctxDone, e, e)
  {
    assert Walk(ctxDone, [e], []);
  }

  lemma Step(ctxDone: bool, e: Entry, s: Entry, a: Action) returns (f: Entry)
    requires Leads(ctxDone, e, s) && Can(s, a) && (a.Working? || a.Advancing?)
    ensures f == Do(s, ctxDone, a) && Leads(ctxDone, e, f)
  {
    hide Can, Do;
    f := Do(s, ctxDone, a);
    var states, actions :| Walk(ctxDone, states, actions) && states[0] == e && states[|actions|] == s;
    assert Walk(ctxDone, states + [f], actions + [a]);
  }

  /** Everything goes well, and nothing is cancelled or stable. */
  const FINE: Choice := Choice(true, false, Clean)
  const CALM: Choice := Choice(false, false, Clean)

  lemma WorkOn(ctxDone: bool, e: Entry, s: Entry, t: nat) returns (f: Entry)
    requires Leads(ctxDone, e, s) && CanWork(s, t, FINE)
    ensures f == Work(s, t, FINE) && Leads(ctxDone, e, f)
  {
    hide Leads, Work, CanWork;
    f := Step(ctxDone, e, s, Working(t, FINE));
  }

  lemma AdvanceOn(ctxDone: bool, e: Entry, s: Entry, k: nat) returns (f: Entry)
    requires Leads(ctxDone, e, s) && CanAdvance(s, k)
    ensures f == Advance(s, k, ctxDone, CALM) && Leads(ctxDone, e, f)
  {
    hide Leads, Advance, CanAdvance;
    f := Step(ctxDone, e, s, Advancing(k, CALM));
  }

  lemma StayAt(o: Orch)
    ensures From(o, o)
  {
    assert Path([o], []);
  }

  lemma Go(o: Orch, p: Orch, m: Turn) returns (q: Orch)
    requires From(o, p) && CanTake(p, m)
    ensures q == Take(p, m) && From(o, q)
  {
    hide CanTake, Take;
    q := Take(p, m);
    var run, turns :| Path(run, turns) && run[0] == o && run[|turns|] == p;
    assert Path(run + [q], turns + [m]);
  }

  /** What happens to one entry happens to the orchestrator. */
  lemma Lift(o: Orch, p: Orch, i: nat, f: Entry) returns (q: Orch)
    requires From(o, p) && i < |p.entries| && Leads(ContextDone(p.phase), p.entries[i], f)
    ensures From(o, q) && q.entries == p.entries[i := f] && q.phase == p.phase && q.found == p.found &&
        q.started == p.started
    ensures q.health == p.health
  {
    hide From, Can, Do;
    var states, actions :| Walk(ContextDone(p.phase), states, actions) && states[0] == p.entries[i] &&
        states[|actions|] == f;
    q := LiftWalk(o, p, i, states, actions);
  }

  lemma {:induction false} LiftWalk(o: Orch, p: Orch, i: nat, states: seq<Entry>, actions: seq<Action>)
      returns (q: Orch)
    requires From(o, p) && i < |p.entries| && Walk(ContextDone(p.phase), states, actions) && states[0] == p.entries[i]
    ensures From(o, q) && q.entries == p.entries[i := states[|actions|]] && q.phase == p.phase && q.found == p.found
    ensures q.started == p.started && q.health == p.health
    decreases |actions|
  {
    hide From, Can, Do;
    q := p;
    if actions != [] {
      assert Can(states[0], actions[0]) && states[1] == Do(states[0], ContextDone(p.phase), actions[0]);
      q := Go(o, p, Local(i, actions[0]));
      q := LiftWalk(o, q, i, states[1..], actions[1..]);
    }
  }

  lemma ReachableInv(o: Orch)
    requires Reachable(o)
    ensures Inv(o)
  {
    hide Inv, CanTake, Take;
    var run, turns :| Path(run, turns) && run[0] == Init() && run[|turns|] == o;
    assert Execution(run, turns);
    RunInv(run, turns, |turns|);
  }

  lemma {:induction false} FromTrans(o: Orch, p: Orch, q: Orch)
    requires From(o, p) && From(p, q)
    ensures From(o, q)
  {
    hide CanTake, Take;
    var run, turns :| Path(run, turns) && run[0] == o && run[|turns|] == p;
    var more, next :| Path(more, next) && more[0] == p && more[|next|] == q;
    var all, both := run + more[1..], turns + next;
    forall i | 0 <= i < |both| ensures CanTake(all[i], both[i]) && all[i + 1] == Take(all[i], both[i]) {
      if i >= |turns| { assert all[i] == more[i - |turns|] && all[i + 1] == more[i + 1 - |turns|]; }
    }
    assert Path(all, both);
  }

  lemma ReachableUnraced(o: Orch, i: nat)
    requires Reachable(o) && i < |o.entries| && !o.entries[i].raced
    ensures Reserved(o.entries[i]) && Shaped(o.entries[i]) && Shares(o.entries[i])
  {
    hide Keeps, Reachable;
    ReachableInv(o);
    assert EntryInv(o, i);
    KeepsSound(o.phase, FoundAt(o, i), o.entries[i]);
  }

  function StartRank(stage: Stage): nat {
    match stage
    case Guard => 9
    case Hook => 8
    case Own => 7
    case Arm => 6
    case Run => 5
    case Count => 4
    case Unlatch => 3
    case Enroll => 2
    case Fit => 1
    case _ => 0
  }

  predicate SameFlags(e: Entry, f: Entry) {
    f.policy == e.policy && f.starting == e.starting && f.removing == e.removing && f.removed == e.removed &&
        f.cancelled == e.cancelled
  }

  /** No stop and no restart is counted, no replacement is late. */
  predicate SameCounts(e: Entry, f: Entry) {
    f.stops == e.stops && f.restarts == e.restarts && (!e.stopsCounted ==> !f.stopsCounted) && f.raced == e.raced
  }

  /** The other operations stay where they are. */
  ghost predicate SameOthers(e: Entry, f: Entry, t: nat) {
    f.jobs.Keys == e.jobs.Keys && forall s :: s in e.jobs && s != t ==> f.jobs[s] == e.jobs[s]
  }

  lemma NextRank(e: Entry, j: Job)
    requires StartRank(j.stage) > 1 && e.policy.kind.Persistent? && !e.removed && !e.removing
    ensures var y := NextStart(e, j, FINE); y.op == j.op && StartRank(y.stage) == StartRank(j.stage) - 1
  {
  }

  lemma StartStep(s: Entry, t: nat)
    requires t in s.jobs && StartRank(s.jobs[t].stage) > 1 && s.policy.kind.Persistent? && !s.removed && !s.removing
    ensures var f, j := Work(s, t, FINE), s.jobs[t];
      && CanWork(s, t, FINE) && SameFlags(s, f) && f.instances == s.instances && SameOthers(s, f, t)
      && f.jobs[t].op == j.op && StartRank(f.jobs[t].stage) == StartRank(j.stage) - 1
      && f.wgDone == (s.wgDone && !j.stage.Unlatch?) && f.share == s.share + B(j.stage.Enroll?)
      && SameCounts(s, f) && f.starts == s.starts + B(j.stage.Count?)
      && (j.stage.Run? ==> f.status == Running) && (StartRank(j.stage) < 5 ==> f.status == s.status)
  {
    hide NextStart, NextStop;
    NextRank(s, s.jobs[t]);
  }

  /** A start that goes well adds to the wait group. */
  lemma {:induction false} EnrollLeads(ctxDone: bool, e: Entry, s: Entry, t: nat) returns (f: Entry)
    requires Leads(ctxDone, e, s) && t in s.jobs && StartRank(s.jobs[t].stage) > 0
    requires s.policy.kind.Persistent? && !s.removed && !s.removing
    ensures Leads(ctxDone, e, f) && SameFlags(s, f) && f.instances == s.instances && SameOthers(s, f, t)
    ensures f.wgDone == (s.wgDone && StartRank(s.jobs[t].stage) <= 2)
    ensures f.jobs[t].stage.Fit? && f.jobs[t].op == s.jobs[t].op && f.share == s.share + B(!s.jobs[t].stage.Fit?)
    ensures SameCounts(s, f) && f.starts == s.starts + B(StartRank(s.jobs[t].stage) >= 4)
    ensures StartRank(s.jobs[t].stage) >= 5 ==> f.status == Running
    ensures StartRank(s.jobs[t].stage) < 5 ==> f.status == s.status
    decreases StartRank(s.jobs[t].stage)
  {
    hide Leads, Work, CanWork;
    f := s;
    if !s.jobs[t].stage.Fit? {
      StartStep(s, t);
      f := WorkOn(ctxDone, e, s, t);
      f := EnrollLeads(ctxDone, e, f, t);
    }
  }

  /** Then it launches an instance. */
  lemma StartLeads(ctxDone: bool, e: Entry, s: Entry, t: nat) returns (f: Entry)
    requires Leads(ctxDone, e, s) && t in s.jobs && s.jobs[t].stage.Guard? && s.policy.kind.Persistent? && !s.removed
    requires !s.removing
    ensures Leads(ctxDone, e, f) && SameFlags(s, f) && f.share == s.share + 1 && f.done == Some(|s.instances|)
    ensures !f.wgDone
    ensures SameOthers(s, f, t) && f.jobs[t].stage.Return? && f.jobs[t].op == s.jobs[t].op
    ensures |f.instances| == |s.instances| + 1 && f.instances[..|s.instances|] == s.instances
    ensures f.instances[|s.instances|].at.Live?
    ensures SameCounts(s, f) && f.starts == s.starts + 1 && f.status == Running
  {
    hide Leads, NextStop, StatusByJob;
    f := EnrollLeads(ctxDone, e, s, t);
    f := LaunchLeads(ctxDone, e, f, t);
  }

  lemma LaunchLeads(ctxDone: bool, e: Entry, s: Entry, t: nat) returns (f: Entry)
    requires Leads(ctxDone, e, s) && t in s.jobs && s.jobs[t].stage.Fit?
    ensures Leads(ctxDone, e, f) && SameFlags(s, f) && f.share == s.share && f.done == Some(|s.instances|)
    ensures f.wgDone == s.wgDone
    ensures SameOthers(s, f, t) && f.jobs[t].stage.Return? && f.jobs[t].op == s.jobs[t].op
    ensures |f.instances| == |s.instances| + 1 && f.instances[..|s.instances|] == s.instances
    ensures f.instances[|s.instances|].at.Live?
    ensures SameCounts(s, f) && f.starts == s.starts && f.status == s.status
  {
    hide Leads, NextStop;
    f := WorkOn(ctxDone, e, s, t);
    f := WorkOn(ctxDone, e, f, t);
  }

  function RestartRank(at: Point): nat {
    match at
    case Rearm => 9
    case NewOwner => 8
    case Install => 7
    case Revive => 6
    case Respawn => 5
    case Tally => 4
    case Disown => 3
    case Closing => 2
    case _ => 0
  }

  /** A restart past its check installs its heir, whatever was cancelled meanwhile. */
  lemma {:induction false} InstallLeads(ctxDone: bool, e: Entry, s: Entry, k: nat) returns (f: Entry)
    requires Leads(ctxDone, e, s) && k == |s.instances| - 1 && RestartRank(s.instances[k].at) >= 7
    ensures Leads(ctxDone, e, f) && SameFlags(s, f) && f.jobs == s.jobs && f.share == s.share
    ensures |f.instances| == k + 2 && f.instances[k].at.Revive? && f.instances[k].heir == k + 1
    ensures f.instances[k + 1].at.Pending?
    decreases RestartRank(s.instances[k].at)
  {
    hide Leads, NextExit, NextDecision, NextTail;
    f := AdvanceOn(ctxDone, e, s, k);
    if !s.instances[k].at.Install? { f := InstallLeads(ctxDone, e, f, k); }
  }

  predicate HandedOver(s: Entry, k: nat) {
    && |s.instances| == k + 2 && s.instances[k].heir == k + 1
    && s.instances[k + 1].at == (if HandsOver(s.instances[k].at) then Pending else Live)
    && (0 < RestartRank(s.instances[k].at) <= 6 || s.instances[k].at.Closed?)
  }

  lemma NextLeaves(e: Entry, x: Instance, ctxDone: bool)
    requires 0 < RestartRank(x.at) <= 6
    ensures var y := NextInstance(e, x, ctxDone, CALM);
      && y.heir == x.heir && (HandsOver(y.at) <==> x.at.Revive?)
      && RestartRank(y.at) < RestartRank(x.at) && (RestartRank(y.at) > 0 || y.at.Closed?)
  {
    hide NextExit, NextDecision;
  }

  lemma RespawnStep(ctxDone: bool, s: Entry, k: nat)
    requires HandedOver(s, k) && !s.instances[k].at.Closed?
    ensures var f := Advance(s, k, ctxDone, CALM);
      && CanAdvance(s, k) && SameFlags(s, f) && f.jobs == s.jobs && f.share == s.share && HandedOver(f, k)
      && RestartRank(f.instances[k].at) < RestartRank(s.instances[k].at)
  {
    hide NextInstance;
    NextLeaves(s, s.instances[k], ctxDone);
  }

  /** It launches the heir, and the old goroutine exits. */
  lemma {:induction false} RespawnLeads(ctxDone: bool, e: Entry, s: Entry, k: nat) returns (f: Entry)
    requires Leads(ctxDone, e, s) && HandedOver(s, k)
    ensures Leads(ctxDone, e, f) && SameFlags(s, f) && f.jobs == s.jobs && f.share == s.share
    ensures |f.instances| == k + 2 && f.instances[k].at.Closed? && f.instances[k + 1].at.Live?
    decreases RestartRank(s.instances[k].at)
  {
    hide Leads, Advance, CanAdvance;
    f := s;
    if !s.instances[k].at.Closed? {
      RespawnStep(ctxDone, s, k);
      f := AdvanceOn(ctxDone, e, s, k);
      f := RespawnLeads(ctxDone, e, f, k);
    }
  }

  lemma HeirLeads(ctxDone: bool, e: Entry, s: Entry, k: nat) returns (f: Entry)
    requires Leads(ctxDone, e, s) && k == |s.instances| - 1 && RestartRank(s.instances[k].at) >= 7
    ensures Leads(ctxDone, e, f) && SameFlags(s, f) && f.jobs == s.jobs && f.share == s.share
    ensures |f.instances| == k + 2 && f.instances[k].at.Closed? && f.instances[k + 1].at.Live?
  {
    hide Leads;
    f := InstallLeads(ctxDone, e, s, k);
    f := RespawnLeads(ctxDone, e, f, k);
  }

  function StopRank(stage: Stage): nat {
    match stage
    case Validate => 14
    case Cancel => 13
    case Watch => 12
    case Begin => 11
    case Mark => 10
    case Sequence => 9
    case Await => 8
    case Read => 7
    case Commit => 6
    case Account => 5
    case Drain => 4
    case Wipe => 3
    case Rewind => 2
    case _ => 0
  }

  predicate GoesThrough(e: Entry, j: Job) {
    && 0 < StopRank(j.stage) <= 11 && !e.policy.kind.Scheduled? && (j.op.ReplaceOp? || j.op == TearDownOp(false, true))
    && (j.stage.Wipe? || j.stage.Rewind? ==> j.op.ReplaceOp?)
    && (StopRank(j.stage) >= 8 ==> ChannelClosed(e, j.channel))
    && (StopRank(j.stage) <= 8 ==> j.completed && !j.failed)
  }

  lemma NextGoesOn(e: Entry, j: Job)
    requires GoesThrough(e, j)
    ensures var y := NextStop(e, j, FINE);
      && y.op == j.op && y.channel == j.channel && StopRank(y.stage) < StopRank(j.stage)
      && (StopRank(y.stage) <= 8 ==> y.completed && !y.failed)
      && (y.stage.Wipe? || y.stage.Rewind? ==> j.op.ReplaceOp?)
      && (StopRank(y.stage) == 0 ==> y.stage == if j.op.ReplaceOp? then Guard else Stage.Return)
      && (!j.stage.Begin? ==> y.sampled == j.sampled)
      && (StopRank(j.stage) >= 5 && !j.stage.Account? ==> e.status.Succeeded? || StopRank(y.stage) >= 5)
      && (j.op.ReplaceOp? && !j.stage.Rewind? ==> StopRank(y.stage) >= 2)
  {
    hide NextStop, GoesThrough, StopRank;
    if BeforeWait(j.stage) { EarlyGoesOn(e, j); } else { LateGoesOn(e, j); }
  }

  lemma EarlyGoesOn(e: Entry, j: Job)
    requires GoesThrough(e, j) && BeforeWait(j.stage)
    ensures var y := NextStop(e, j, FINE);
      && y.op == j.op && y.channel == j.channel && StopRank(y.stage) < StopRank(j.stage)
      && (StopRank(y.stage) <= 8 ==> y.completed && !y.failed)
      && (y.stage.Wipe? || y.stage.Rewind? ==> j.op.ReplaceOp?)
      && (StopRank(y.stage) == 0 ==> y.stage == if j.op.ReplaceOp? then Guard else Stage.Return)
      && (!j.stage.Begin? ==> y.sampled == j.sampled)
      && (StopRank(j.stage) >= 5 && !j.stage.Account? ==> e.status.Succeeded? || StopRank(y.stage) >= 5)
      && (j.op.ReplaceOp? && !j.stage.Rewind? ==> StopRank(y.stage) >= 2)
  {
  }

  lemma LateGoesOn(e: Entry, j: Job)
    requires GoesThrough(e, j) && !BeforeWait(j.stage)
    ensures var y := NextStop(e, j, FINE);
      && y.op == j.op && y.channel == j.channel && StopRank(y.stage) < StopRank(j.stage)
      && (StopRank(y.stage) <= 8 ==> y.completed && !y.failed)
      && (y.stage.Wipe? || y.stage.Rewind? ==> j.op.ReplaceOp?)
      && (StopRank(y.stage) == 0 ==> y.stage == if j.op.ReplaceOp? then Guard else Stage.Return)
      && (!j.stage.Begin? ==> y.sampled == j.sampled)
      && (StopRank(j.stage) >= 5 && !j.stage.Account? ==> e.status.Succeeded? || StopRank(y.stage) >= 5)
      && (j.op.ReplaceOp? && !j.stage.Rewind? ==> StopRank(y.stage) >= 2)
  {
  }

  /** What a stop that goes through does in one step: it leaves everything but its own progress, the
      status and the counters. */
  lemma StopStep(s: Entry, t: nat)
    requires t in s.jobs && GoesThrough(s, s.jobs[t])
    ensures var f, j := Work(s, t, FINE), s.jobs[t];
      && CanWork(s, t, FINE) && SameFlags(s, f) && f.instances == s.instances && SameOthers(s, f, t)
      && f.share == s.share
      && f.jobs[t] == NextStop(s, j, FINE) && f.starts == s.starts && f.restarts == s.restarts && f.raced == s.raced
      && f.stops == s.stops + B(Counts(s, j))
      && f.stopsCounted == ((s.stopsCounted && !j.stage.Rewind?) || Counts(s, j))
      && (f.status.Succeeded? ==> s.status.Succeeded?)
  {
    hide NextStart, NextStop;
  }

  /** Whether a stop in progress will be counted. */
  function Owed(e: Entry, j: Job): nat {
    B(StopRank(j.stage) >= 5 && Active(j.sampled) && !e.stopsCounted)
  }

  /** What a stop that goes through leaves alone. */
  ghost predicate SameAround(s: Entry, f: Entry, t: nat) {
    && SameFlags(s, f) && SameOthers(s, f, t) && t in s.jobs && f.jobs[t].op == s.jobs[t].op
    && f.instances == s.instances
    && f.share == s.share && f.starts == s.starts && f.restarts == s.restarts && f.raced == s.raced
  }

  /** One step on: the stop still goes through, or is done. */
  lemma StopOnward(s: Entry, t: nat)
    requires t in s.jobs && GoesThrough(s, s.jobs[t])
    ensures var f, j := Work(s, t, FINE), s.jobs[t];
      && CanWork(s, t, FINE) && SameAround(s, f, t) && StopRank(f.jobs[t].stage) < StopRank(j.stage)
      && (if StopRank(f.jobs[t].stage) > 0 then GoesThrough(f, f.jobs[t])
          else f.jobs[t].stage == (if j.op.ReplaceOp? then Guard
              else Stage.Return) && f.jobs[t].completed && !f.jobs[t].failed)
  {
    hide Work, CanWork, NextStop;
    StopStep(s, t);
    NextGoesOn(s, s.jobs[t]);
  }

  lemma StopOwes(s: Entry, t: nat)
    requires t in s.jobs && GoesThrough(s, s.jobs[t])
    ensures var f, j := Work(s, t, FINE), s.jobs[t];
      && (StopRank(f.jobs[t].stage) == 0 ==> (j.op.ReplaceOp? ==> !f.stopsCounted) && Owed(f, f.jobs[t]) == 0)
      && (StopRank(j.stage) <= 10 && !s.status.Succeeded? ==>
            !f.status.Succeeded? && f.stops + Owed(f, f.jobs[t]) == s.stops + Owed(s, j))
      && (StopRank(f.jobs[t].stage) > 0 ==> StopRank(f.jobs[t].stage) <= 10)
  {
    hide Work, CanWork, NextStop;
    StopStep(s, t);
    NextGoesOn(s, s.jobs[t]);
  }

  /** With the instance it awaits gone, a stop goes through: a replacement is then to be started, a
      teardown returns. */
  lemma {:induction false} StopLeads(ctxDone: bool, e: Entry, s: Entry, t: nat) returns (f: Entry)
    requires Leads(ctxDone, e, s) && t in s.jobs && GoesThrough(s, s.jobs[t])
    ensures Leads(ctxDone, e, f) && SameAround(s, f, t) && f.jobs[t].completed && !f.jobs[t].failed
    ensures f.jobs[t].stage == if s.jobs[t].op.ReplaceOp? then Guard else Stage.Return
    ensures s.jobs[t].op.ReplaceOp? ==> !f.stopsCounted
    ensures StopRank(s.jobs[t].stage) <= 10 && !s.status.Succeeded? ==>
              f.stops == s.stops + Owed(s, s.jobs[t]) && !f.status.Succeeded?
    decreases StopRank(s.jobs[t].stage)
  {
    hide Leads, Work, CanWork, GoesThrough, Owed, Counts;
    StopOnward(s, t);
    StopOwes(s, t);
    f := WorkOn(ctxDone, e, s, t);
    if StopRank(f.jobs[t].stage) > 0 { f := StopLeads(ctxDone, e, f, t); }
  }

  /** What the entry looks like to a stop that chooses its channel while a restart is through. */
  lemma WatchedThrough(e: Entry, t: nat)
    requires Reserved(e) && Shaped(e) && Shares(e) && t in e.jobs && Holds(e.jobs[t].op) && e.jobs[t].stage.Watch?
    requires Through(e.instances)
    ensures e.done == Some(|e.instances| - 1) && !e.removed && e.policy.factory && e.policy.kind.Persistent?
    ensures RestartRank(e.instances[|e.instances| - 1].at) >= 7 && e.share == 1
    ensures e.jobs[t].op.ReplaceOp? ==> !e.removing
  {
    hide OneActs, PointsFit, Tethered, StartFits, StopSees;
    assert Fits(e, e.jobs[t]);
    RevealOneActs(e);
    ThroughHeals(e);
    HealsPersist(e);
    assert !Enrolled(e.jobs) by { HolderEnrollsNone(e, t); }
  }

  lemma HealsPersist(e: Entry)
    requires PointsFit(e.policy, e.instances) && e.policy.factory
    ensures e.policy.kind.Persistent?
  {
  }

  lemma HolderEnrollsNone(e: Entry, t: nat)
    requires Reserved(e) && Shaped(e) && t in e.jobs && Holds(e.jobs[t].op) && !IsStart(e.jobs[t].stage)
    ensures !Enrolled(e.jobs)
  {
    hide OneActs, PointsFit, Tethered, StartFits, StopSees, StopFlags;
    forall s | s in e.jobs ensures !e.jobs[s].stage.Fit? {
      assert Fits(e, e.jobs[s]);
      if s != t { OtherJobs(e, s, t); }
    }
  }

  lemma WatchStep(s: Entry, t: nat)
    requires t in s.jobs && s.jobs[t].stage.Watch?
    ensures var f, j := Work(s, t, FINE), s.jobs[t];
      && CanWork(s, t, FINE) && SameOthers(s, f, t) && SameFlags(s, f) && f.instances == s.instances
      && f.share == s.share
      && f.jobs[t] == j.(stage := Begin, channel := s.done, late := Through(s.instances))
  {
    hide NextStart;
  }

  /** The stop remembers the exit channel of the restart, which then closes it and lives on as its heir. */
  lemma LateLeads(ctxDone: bool, e: Entry, t: nat) returns (f: Entry)
    requires Reserved(e) && Shaped(e) && Shares(e) && t in e.jobs && e.jobs[t].stage.Watch? && Through(e.instances)
    requires e.jobs[t].op.ReplaceOp? || e.jobs[t].op == TearDownOp(false, true)
    ensures Leads(ctxDone, e, f) && SameFlags(e, f) && SameOthers(e, f, t) && f.jobs[t].op == e.jobs[t].op
    ensures f.share == 1
    ensures f.jobs[t].stage == if e.jobs[t].op.ReplaceOp? then Guard else Stage.Return
    ensures !f.jobs[t].failed && |f.instances| == |e.instances| + 1 && f.instances[|e.instances|].at.Live?
  {
    hide Leads, Reserved, Shaped, Shares, Work, CanWork;
    WatchedThrough(e, t);
    Stay(ctxDone, e);
    WatchStep(e, t);
    f := WorkOn(ctxDone, e, e, t);
    f := HeirLeads(ctxDone, e, f, |e.instances| - 1);
    f := StopLeads(ctxDone, e, f, t);
  }

  /** From every state that can be reached: a replacement about to choose its channel, with a restart past its
      check, can end with two instances that live and hold a share of the wait group each. */
  lemma LateReplaceDoubles(o: Orch, i: nat, t: nat) returns (p: Orch)
    requires Reachable(o) && i < |o.entries| && !o.entries[i].raced
    requires t in o.entries[i].jobs && o.entries[i].jobs[t].op.ReplaceOp? && o.entries[i].jobs[t].stage.Watch?
    requires Through(o.entries[i].instances)
    ensures From(o, p) && |p.entries| == |o.entries|
    ensures var n, f := |o.entries[i].instances|, p.entries[i];
      |f.instances| == n + 2 && f.instances[n].at.Live? && f.instances[n + 1].at.Live? && f.share == 2
  {
    hide Reachable, From, Leads, Reserved, Shaped, Shares;
    var e, ctxDone := o.entries[i], ContextDone(o.phase);
    ReachableUnraced(o, i);
    WatchedThrough(e, t);
    var f := LateLeads(ctxDone, e, t);
    f := StartLeads(ctxDone, e, f, t);
    StayAt(o);
    p := Lift(o, o, i, f);
  }

  /** And a StopService in that place can return success with an instance alive. */
  lemma LateStopLeavesOne(o: Orch, i: nat, t: nat) returns (p: Orch)
    requires Reachable(o) && i < |o.entries| && !o.entries[i].raced
    requires t in o.entries[i].jobs && o.entries[i].jobs[t].op == TearDownOp(false, true)
    requires o.entries[i].jobs[t].stage.Watch?
    requires Through(o.entries[i].instances)
    ensures From(o, p) && |p.entries| == |o.entries|
    ensures var n, f := |o.entries[i].instances|, p.entries[i];
      CanRelease(f, t) && f.jobs[t].op == o.entries[i].jobs[t].op && !f.jobs[t].failed && |f.instances| == n + 1 &&
          f.instances[n].at.Live?
  {
    hide Reachable, From, Leads, Reserved, Shaped, Shares;
    ReachableUnraced(o, i);
    var f := LateLeads(ContextDone(o.phase), o.entries[i], t);
    StayAt(o);
    p := Lift(o, o, i, f);
  }

  function ExitRank(at: Point): nat {
    match at
    case Live => 12
    case SeeShutdown => 11
    case SeeStable => 10
    case SeeCrash => 9
    case SeeRetries => 8
    case Retry => 7
    case SeeIdle => 6
    case SetIdle => 5
    case DropOwner => 4
    case SampleBackoff => 3
    case Backoff => 2
    case Rearm => 1
    case _ => 0
  }

  predicate SameRest(s: Entry, f: Entry) {
    SameFlags(s, f) && f.jobs == s.jobs && f.share == s.share && f.done == s.done && |f.instances| == 1 &&
        f.raced == s.raced
  }

  /** What the only goroutine touches before it restarts. */
  lemma RetryFrame(s: Entry)
    requires |s.instances| == 1 && ExitRank(s.instances[0].at) > 1
    ensures var f := Advance(s, 0, false, CALM);
      CanAdvance(s, 0) && SameRest(s, f) && f.instances == [NextInstance(s, s.instances[0], false, CALM)]
  {
    hide NextInstance;
  }

  lemma NextRetry(e: Entry, x: Instance)
    requires ExitRank(x.at) > 7 && (x.exit.Clean? || x.at.Live?) && e.policy.factory && e.policy.maxRetries == 0
    ensures var y := NextInstance(e, x, false, CALM); y.exit.Clean? && 7 <= ExitRank(y.at) < ExitRank(x.at)
  {
    hide NextRestart, NextTail;
  }

  lemma NextBackoff(e: Entry, x: Instance)
    requires 1 < ExitRank(x.at) <= 7 && x.exit.Clean? && e.cancelled == {}
    ensures var y := NextInstance(e, x, false, CALM); y.exit.Clean? && 1 <= ExitRank(y.at) < ExitRank(x.at)
  {
    hide NextExit, NextTail;
  }

  /** A clean exit of a self-healing instance goes on to a restart that gets past the check of its teardown. */
  lemma {:induction false} RetryLeads(e: Entry, s: Entry) returns (f: Entry)
    requires Leads(false, e, s) && |s.instances| == 1 && ExitRank(s.instances[0].at) > 0
    requires s.instances[0].exit.Clean? || s.instances[0].at.Live?
    requires s.policy.factory && s.policy.maxRetries == 0 && s.cancelled == {}
    ensures Leads(false, e, f) && SameRest(s, f) && f.instances[0].at.Rearm?
    decreases ExitRank(s.instances[0].at)
  {
    hide Leads, Advance, CanAdvance, NextInstance;
    f := s;
    if !s.instances[0].at.Rearm? {
      RetryFrame(s);
      if ExitRank(s.instances[0].at) > 7 { NextRetry(s, s.instances[0]); } else { NextBackoff(s, s.instances[0]); }
      f := AdvanceOn(false, e, s, 0);
      f := RetryLeads(e, f);
    }
  }

  /** The orchestrator is up with one entry and no health loop. */
  predicate Solo(o: Orch) {
    o.phase.Up? && o.started && !o.health && |o.entries| == 1
  }

  lemma RegistersFresh(policy: Policy) returns (o: Orch)
    requires policy.factory ==> policy.kind.Persistent?
    ensures Reachable(o) && Solo(o) && o.entries[0] == Fresh(policy)
  {
    hide From;
    StayAt(Init());
    o := Go(Init(), Init(), Register(policy));
    o := Go(Init(), o, Boot(false));
  }

  lemma Claims(o: Orch, t: nat, op: Op) returns (p: Orch)
    requires Reachable(o) && Solo(o) && t != STOP && t !in o.entries[0].jobs && CanReserve(o.entries[0], op)
    requires Holds(op)
    ensures Reachable(p) && Solo(p) && p.entries[0] == Reserve(o.entries[0], t, op)
  {
    hide From, Reserve, CanReserve;
    p := Go(Init(), o, Claim(t, map[0 := op]));
  }

  lemma Returns(o: Orch, t: nat) returns (p: Orch)
    requires Reachable(o) && Solo(o) && t != STOP && CanRelease(o.entries[0], t)
    ensures Reachable(p) && Solo(p) && p.entries[0] == ReleaseJob(o.entries[0], t)
  {
    hide From, ReleaseJob, CanRelease;
    assert CanTake(o, Turn.Return(t));
    p := Go(Init(), o, Turn.Return(t));
    assert t in o.entries[0].jobs by { ReleasableIsThere(o.entries[0], t); }
  }

  lemma ReleasableIsThere(e: Entry, t: nat)
    requires CanRelease(e, t)
    ensures t in e.jobs
  {
  }

  /** What a service looks like that has been started and left alone. */
  predicate Started(policy: Policy, e: Entry) {
    && e.policy == policy && e.jobs == map[] && !e.starting && !e.removing && !e.removed && !e.raced
    && e.cancelled == {}
    && |e.instances| == 1 && e.instances[0].at.Live? && e.done == Some(0) && e.share == 1 && !e.wgDone
    && e.status == Running
    && e.starts == 1 && e.restarts == 0 && e.stops == 0 && !e.stopsCounted
  }

  lemma StartsFresh(policy: Policy) returns (o: Orch)
    requires policy.kind.Persistent?
    ensures Reachable(o) && Solo(o) && Started(policy, o.entries[0])
  {
    hide From, Leads;
    o := RegistersFresh(policy);
    o := Claims(o, 1, StartOp);
    Stay(false, o.entries[0]);
    var f := StartLeads(false, o.entries[0], o.entries[0], 1);
    o := Lift(Init(), o, 0, f);
    o := Returns(o, 1);
  }

  /** A self-healing service that has been started is about to restart by itself. */
  lemma RestartsThrough(policy: Policy) returns (o: Orch)
    requires policy == Policy(Persistent, true, 0, false)
    ensures Reachable(o) && Solo(o) && Through(o.entries[0].instances)
    ensures var e := o.entries[0];
      e.policy == policy && e.jobs == map[] && !e.starting && !e.removing && !e.removed && !e.raced
  {
    hide From, Leads;
    o := StartsFresh(policy);
    Stay(false, o.entries[0]);
    var f := RetryLeads(o.entries[0], o.entries[0]);
    o := Lift(Init(), o, 0, f);
  }

  lemma PrepareStep(s: Entry, t: nat)
    requires t in s.jobs
    requires StopRank(s.jobs[t].stage) >= 13 || (s.jobs[t].stage.Skip? && s.jobs[t].op == TearDownOp(false, true))
    ensures var f, j := Work(s, t, FINE), s.jobs[t];
      && CanWork(s, t, FINE) && t in f.jobs && f.instances == s.instances && f.raced == s.raced && f.jobs[t].op == j.op
      && (if j.stage.Cancel? then f.jobs[t].stage.Watch? else f.jobs[t].stage.Cancel?)
  {
    hide NextStart;
  }

  /** A stop or a replacement gets to the point where it chooses its channel. */
  lemma WatchLeads(ctxDone: bool, e: Entry, s: Entry, t: nat) returns (f: Entry)
    requires Leads(ctxDone, e, s) && t in s.jobs
    requires s.jobs[t].stage.Validate? || (s.jobs[t].stage.Skip? && s.jobs[t].op == TearDownOp(false, true))
    ensures Leads(ctxDone, e, f) && t in f.jobs && f.jobs[t].stage.Watch? && f.jobs[t].op == s.jobs[t].op
    ensures f.instances == s.instances && f.raced == s.raced
  {
    hide Leads, Work, CanWork;
    PrepareStep(s, t);
    f := WorkOn(ctxDone, e, s, t);
    PrepareStep(f, t);
    f := WorkOn(ctxDone, e, f, t);
  }

  lemma WatchesThrough(policy: Policy, op: Op) returns (o: Orch)
    requires policy == Policy(Persistent, true, 0, false) && (op.ReplaceOp? || op == TearDownOp(false, true))
    ensures Reachable(o) && |o.entries| == 1 && Through(o.entries[0].instances) && !o.entries[0].raced
    ensures 2 in o.entries[0].jobs && o.entries[0].jobs[2].op == op && o.entries[0].jobs[2].stage.Watch?
  {
    hide From, Leads;
    o := RestartsThrough(policy);
    o := Claims(o, 2, op);
    Stay(false, o.entries[0]);
    var f := WatchLeads(false, o.entries[0], o.entries[0], 2);
    o := Lift(Init(), o, 0, f);
  }

  /** So it does happen: from the start, a replacement ends up with two instances that live. */
  lemma ReplaceCanDouble(policy: Policy) returns (o: Orch)
    requires policy == Policy(Persistent, true, 0, false)
    ensures Reachable(o) && |o.entries| == 1
    ensures var e := o.entries[0];
      exists k: nat :: k + 1 < |e.instances| && e.instances[k].at.Live? && e.instances[k + 1].at.Live?
    ensures o.entries[0].share == 2
  {
    hide From;
    var w := WatchesThrough(policy, ReplaceOp);
    o := LateReplaceDoubles(w, 0, 2);
    FromTrans(Init(), w, o);
    assert o.entries[0].instances[|w.entries[0].instances|].at.Live?;
  }

  /** And a stop reports success over a service that lives on. */
  lemma StopCanMissOne(policy: Policy) returns (o: Orch)
    requires policy == Policy(Persistent, true, 0, false)
    ensures Reachable(o) && |o.entries| == 1 && CanTake(o, Turn.Return(2))
    ensures var e := o.entries[0];
      && 2 in e.jobs && e.jobs[2].op == TearDownOp(false, true) && !e.jobs[2].failed
      && |e.instances| > 0 && e.instances[|e.instances| - 1].at.Live?
  {
    hide From, Leads;
    var w := WatchesThrough(policy, TearDownOp(false, true));
    o := LateStopLeavesOne(w, 0, 2);
    FromTrans(Init(), w, o);
    LateKeepsJob(o, 2);
  }

  lemma LateKeepsJob(o: Orch, t: nat)
    requires |o.entries| == 1 && CanRelease(o.entries[0], t) && t != STOP
    ensures CanTake(o, Turn.Return(t)) && t in o.entries[0].jobs
  {
  }
}
