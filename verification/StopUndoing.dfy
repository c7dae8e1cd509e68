/** The conditions under which a whole Stop may be believed cannot be dropped: from every reachable state past
    its wait, whatever is in flight and can undo what Stop is about to report does so in some execution. */
module StopUndoing {
  import opened Services
  import opened Lifecycle
  import opened LifecycleSafety
  import opened LifecycleShares
  import opened LifecycleSound
  import opened LifecycleEnds
  import opened LifecycleStops
  import opened LifecycleGates
  import opened LifecycleStatus
  import opened Shutdown
  import opened Winddown
  import opened Runs
  import opened Races
  import opened StopRaces

  /** Stop's job has moved on; nothing else has. */
  ghost predicate Concluded(s: Entry, f: Entry) {
    && SameFlags(s, f) && f.instances == s.instances && f.done == s.done && f.share == s.share && SameOthers(s, f, STOP)
    && (STOP in s.jobs ==> f.jobs[STOP].op == s.jobs[STOP].op && (f.jobs[STOP].failed ==> s.jobs[STOP].failed))
    && (s.status != Succeeded ==> f.status != Succeeded)
  }

  lemma ConcludedTwice(s: Entry, f: Entry, g: Entry)
    requires Concluded(s, f) && Concluded(f, g)
    ensures Concluded(s, g)
  {
  }

  lemma ConcludedNone(s: Entry)
    ensures Concluded(s, s)
  {
  }

  /** Stop is before or behind its wait. */
  predicate Sweeps(phase: Phase) {
    phase.Winding? || phase.Waited?
  }

  /** Where Stop's job waits for the other entries. */
  function LastStage(phase: Phase): Stage {
    if phase.Winding? then Hold else Stage.Return
  }

  predicate Closing(phase: Phase, e: Entry) {
    STOP in e.jobs ==> e.jobs[STOP].op.ShutdownOp? && StopAt(phase, e.jobs[STOP])
  }

  lemma ConcludeNext(phase: Phase, e: Entry, j: Job)
    requires j.op.ShutdownOp? && StopAt(phase, j) && Sweeps(phase) && j.stage != LastStage(phase)
    ensures var y := NextStop(e, j, FINE);
      && y.op == j.op && StopAt(phase, y) && Sweeping(j.stage) && StopRank(y.stage) < StopRank(j.stage)
      && (y.failed ==> j.failed)
  {
  }

  lemma SweepKeepsLow(status: Status, j: Job)
    requires Sweeping(j.stage) && status != Succeeded
    ensures StatusByJob(status, j, FINE) != Succeeded
  {
  }

  lemma ConcludeStep(phase: Phase, s: Entry)
    requires STOP in s.jobs && Closing(phase, s) && Sweeps(phase) && s.jobs[STOP].stage != LastStage(phase)
    ensures var f := Work(s, STOP, FINE);
      && CanWork(s, STOP, FINE) && Concluded(s, f) && Closing(phase, f)
      && StopRank(f.jobs[STOP].stage) < StopRank(s.jobs[STOP].stage)
  {
    hide Work, CanWork, SameOthers, NextStop, StatusByJob, StopAt, StopRank, Sweeping, Counts;
    ConcludeNext(phase, s, s.jobs[STOP]);
    SweepFrame(s, STOP);
    if s.status != Succeeded { SweepKeepsLow(s.status, s.jobs[STOP]); }
  }

  lemma {:induction false} ConcludeLeads(phase: Phase, e: Entry, s: Entry) returns (f: Entry)
    requires Leads(true, e, s) && STOP in s.jobs && Closing(phase, s) && Sweeps(phase)
    ensures Leads(true, e, f) && Concluded(s, f) && Closing(phase, f) && STOP in f.jobs
    ensures f.jobs[STOP].stage == LastStage(phase)
    decreases StopRank(s.jobs[STOP].stage)
  {
    hide Leads, Work, CanWork, StopAt;
    f := s;
    if s.jobs[STOP].stage != LastStage(phase) {
      ConcludeStep(phase, s);
      f := WorkOn(true, e, s, STOP);
      var g := f;
      f := ConcludeLeads(phase, e, g);
      ConcludedTwice(s, g, f);
    } else {
      ConcludedNone(s);
    }
  }

  /** Stop moves on, on entry after entry. */
  lemma {:induction false} ConcludeAll(o: Orch, p: Orch, k: nat) returns (q: Orch)
    requires From(o, p) && Sweeps(p.phase) && k <= |p.entries|
    requires forall i :: 0 <= i < |p.entries| ==> Closing(p.phase, p.entries[i])
    requires forall i :: 0 <= i < k && STOP in p.entries[i].jobs ==> p.entries[i].jobs[STOP].stage == LastStage(p.phase)
    ensures From(o, q) && q.phase == p.phase && q.found == p.found && |q.entries| == |p.entries|
    ensures StopsAt(q.entries, LastStage(p.phase))
    ensures forall i :: 0 <= i < |p.entries| ==> Concluded(p.entries[i], q.entries[i])
    decreases |p.entries| - k
  {
    hide From, Leads, Closing, Concluded, LastStage;
    if k == |p.entries| {
      q := p;
      forall i | 0 <= i < |p.entries| ensures Concluded(p.entries[i], q.entries[i]) { ConcludedNone(p.entries[i]); }
    } else {
      var r := ConcludeOne(o, p, k);
      q := ConcludeAll(o, r, k + 1);
      forall i | 0 <= i < |p.entries| ensures Concluded(p.entries[i], q.entries[i]) {
        if i == k { ConcludedTwice(p.entries[k], r.entries[k], q.entries[k]); }
      }
    }
  }

  lemma ConcludeOne(o: Orch, p: Orch, k: nat) returns (q: Orch)
    requires From(o, p) && Sweeps(p.phase) && k < |p.entries| && Closing(p.phase, p.entries[k])
    ensures From(o, q) && q.phase == p.phase && q.found == p.found && |q.entries| == |p.entries|
    ensures q.entries == p.entries[k := q.entries[k]]
    ensures Concluded(p.entries[k], q.entries[k]) && Closing(p.phase, q.entries[k])
    ensures STOP in q.entries[k].jobs ==> q.entries[k].jobs[STOP].stage == LastStage(p.phase)
  {
    hide From, Leads, Concluded, Closing, LastStage;
    q := p;
    if STOP in p.entries[k].jobs {
      Stay(true, p.entries[k]);
      var f := ConcludeLeads(p.phase, p.entries[k], p.entries[k]);
      q := Lift(o, p, k, f);
    } else {
      ConcludedNone(p.entries[k]);
    }
  }

  /** Every operation but Stop's is where it was, on an entry that is as it was. */
  ghost predicate Left(e: Entry, f: Entry) {
    && SameFlags(e, f) && f.instances == e.instances && f.done == e.done
    && (forall t :: t in e.jobs && t != STOP ==> t in f.jobs && f.jobs[t] == e.jobs[t])
    && (e.status != Succeeded ==> f.status != Succeeded)
  }

  lemma LeavesRest(phase: Phase, e: Entry, s: Entry)
    requires Closing(phase, e) && Concluded(e, s)
    ensures Left(e, if STOP in s.jobs then ReleaseJob(s, STOP) else s)
  {
  }

  lemma ClosingAt(o: Orch, i: nat)
    requires Inv(o) && Sweeps(o.phase) && i < |o.entries|
    ensures Closing(o.phase, o.entries[i])
  {
    hide EntryOk, SinceOk, CalmOk, StopAt;
    assert EntryInv(o, i);
  }

  lemma StillUnfailed(entries: seq<Entry>, after: seq<Entry>)
    requires |after| == |entries| && forall i :: 0 <= i < |entries| ==> Concluded(entries[i], after[i])
    requires !StopFailed(entries)
    ensures !StopFailed(after)
  {
    forall i | 0 <= i < |after| && STOP in after[i].jobs ensures !after[i].jobs[STOP].failed {
      assert Concluded(entries[i], after[i]);
      assert STOP in entries[i].jobs;
    }
  }

  /** From every reachable state past the wait in which no stop has failed, Stop reports success before
      anything else moves. */
  lemma Reports(o: Orch) returns (p: Orch)
    requires Reachable(o) && o.phase.Waited? && !StopFailed(o.entries)
    ensures From(o, p) && p.phase == Down(false) && p.found == o.found && |p.entries| == |o.entries|
    ensures forall i :: 0 <= i < |o.entries| ==> Left(o.entries[i], p.entries[i])
  {
    hide From, Inv, Closing, Left, Concluded;
    ReachableInv(o);
    forall i | 0 <= i < |o.entries| ensures Closing(o.phase, o.entries[i]) { ClosingAt(o, i); }
    StayAt(o);
    var q := ConcludeAll(o, o, 0);
    StillUnfailed(o.entries, q.entries);
    p := Go(o, q, Finish);
    forall i | 0 <= i < |o.entries| ensures Left(o.entries[i], p.entries[i]) {
      LeavesRest(o.phase, o.entries[i], q.entries[i]);
    }
  }

  lemma OvertakenLeft(e: Entry, s: Entry)
    requires STOP !in e.jobs && Concluded(Overtake(e), s)
    ensures Left(e, Resume(s, true)) && s.share == e.share
    ensures STOP in Resume(s, true).jobs ==> !Resume(s, true).jobs[STOP].failed
  {
  }

  lemma NoStopYet(o: Orch, i: nat)
    requires Inv(o) && i < |o.entries| && !ContextDone(o.phase)
    ensures STOP !in o.entries[i].jobs
  {
    hide EntryOk, UpOk;
    assert EntryInv(o, i);
  }

  /** From every reachable state in which Stop is about to cancel and nothing is alive any more, Stop gets past its
      wait before anything else moves. */
  lemma Waits(o: Orch) returns (p: Orch)
    requires Reachable(o) && o.phase.Ending? && o.wg == B(o.health)
    ensures From(o, p) && p.phase.Waited? && p.found == o.entries && |p.entries| == |o.entries|
    ensures !StopFailed(p.entries)
    ensures forall i :: 0 <= i < |o.entries| ==> Left(o.entries[i], p.entries[i])
  {
    hide From, Inv, Left, Concluded, Overtake, Resume, Total;
    ReachableInv(o);
    StayAt(o);
    var r := Go(o, o, Wind);
    FromTrans(Init(), o, r);
    ReachableInv(r);
    forall i | 0 <= i < |r.entries| ensures Closing(Winding, r.entries[i]) { ClosingAt(r, i); }
    var q := ConcludeAll(o, r, 0);
    FromTrans(Init(), o, q);
    ReachableInv(q);
    forall i | 0 <= i < |o.entries|
      ensures Left(o.entries[i], Resume(q.entries[i], true)) && q.entries[i].share == o.entries[i].share
      ensures STOP in Resume(q.entries[i], true).jobs ==> !Resume(q.entries[i], true).jobs[STOP].failed
    {
      NoStopYet(o, i);
      assert Concluded(r.entries[i], q.entries[i]);
      OvertakenLeft(o.entries[i], q.entries[i]);
    }
    TotalSame(o.entries, q.entries);
    GroupIsShares(o);
    GroupIsShares(q);
    p := Go(o, q, Wait);
  }

  lemma GroupIsShares(o: Orch)
    requires Inv(o)
    ensures o.wg == Total(o.entries) + B(o.health) && (ContextDone(o.phase) ==> !o.health)
  {
    hide EntryInv, Total;
  }

  function MarkRank(stage: Stage): nat {
    match stage
    case Validate => 5
    case Skip => 5
    case Cancel => 4
    case Watch => 3
    case Begin => 2
    case Mark => 1
    case _ => 0
  }

  /** A stop or a replacement that will mark the entry Stopping. */
  predicate WillMark(status: Status, j: Job) {
    MarkRank(j.stage) > 0 && (if j.stage.Mark? then j.sampled != Succeeded else status != Succeeded)
  }

  lemma MarkFrame(s: Entry, t: nat)
    requires t in s.jobs && MarkRank(s.jobs[t].stage) > 0
    ensures var f, j := Work(s, t, FINE), s.jobs[t];
      && CanWork(s, t, FINE) && t in f.jobs && f.removed == s.removed
      && f.jobs[t] == NextStop(s, j, FINE) && f.status == StatusByJob(s.status, j, FINE)
  {
    hide NextStart, NextStop, StatusByJob;
  }

  lemma MarkNext(e: Entry, j: Job)
    requires WillMark(e.status, j) && (j.stage.Skip? ==> e.status != Stopping)
    ensures var y, status := NextStop(e, j, FINE), StatusByJob(e.status, j, FINE);
      if j.stage.Mark? then status == Stopping
      else status == e.status && WillMark(status, y) && MarkRank(y.stage) < MarkRank(j.stage)
  {
  }

  lemma {:induction false} MarkLeads(e: Entry, s: Entry, t: nat) returns (f: Entry)
    requires Leads(true, e, s) && t in s.jobs && WillMark(s.status, s.jobs[t])
    ensures Leads(true, e, f) && f.status == Stopping && f.removed == s.removed
    decreases MarkRank(s.jobs[t].stage)
  {
    hide Leads, Work, CanWork, NextStop, StatusByJob;
    f := s;
    if !(s.jobs[t].stage.Skip? && s.status == Stopping) {
      MarkFrame(s, t);
      MarkNext(s, s.jobs[t]);
      f := WorkOn(true, e, s, t);
      if !s.jobs[t].stage.Mark? { f := MarkLeads(e, f, t); }
    }
  }

  /** Everything goes well but the gate. */
  const CRASH: Choice := Choice(true, false, Crash)

  function RouseRank(stage: Stage): nat {
    match stage
    case Count => 4
    case Gate => 3
    case Own => 3
    case Arm => 2
    case Guard => 2
    case Ungate => 2
    case Hook => 1
    case Run => 1
    case Schedule => 1
    case Settle => 1
    case _ => 0
  }

  /** A start that can still write another status than Stopped or Succeeded. */
  predicate Rousing(policy: Policy, j: Job) {
    && RouseRank(j.stage) > 0 && (j.stage.Count? ==> policy.kind.RunOnce?)
    && (j.stage.Ungate? || j.stage.Settle? ==> j.failed)
  }

  lemma RouseStep(s: Entry, t: nat)
    requires t in s.jobs && Rousing(s.policy, s.jobs[t]) && !s.removed && !s.removing
    ensures var f := Work(s, t, CRASH);
      && CanWork(s, t, CRASH) && t in f.jobs && f.policy == s.policy && !f.removed && !f.removing
      && (!Ended(f.status) || RouseRank(s.jobs[t].stage) > 1)
      && (RouseRank(s.jobs[t].stage) > 1 ==>
            Rousing(f.policy, f.jobs[t]) && RouseRank(f.jobs[t].stage) < RouseRank(s.jobs[t].stage))
  {
    hide NextStop;
  }

  lemma {:induction false} RouseLeads(e: Entry, s: Entry, t: nat) returns (f: Entry)
    requires Leads(true, e, s) && t in s.jobs && Rousing(s.policy, s.jobs[t]) && !s.removed && !s.removing
    ensures Leads(true, e, f) && !Ended(f.status) && !f.removed
    decreases RouseRank(s.jobs[t].stage)
  {
    hide Leads, Work, CanWork, Rousing;
    RouseStep(s, t);
    f := Step(true, e, s, Working(t, CRASH));
    if RouseRank(s.jobs[t].stage) > 1 { f := RouseLeads(e, f, t); }
  }

  /** A replacement that will start the entry again: what it awaits has exited. */
  predicate Restarting(e: Entry, j: Job) {
    && j.op.ReplaceOp? && StopRank(j.stage) > 0
    && (j.stage.Validate? || j.stage.Cancel? || j.stage.Watch? ==> ChannelClosed(e, e.done))
    && (j.stage.Begin? || j.stage.Mark? || j.stage.Sequence? || j.stage.Await? ==> ChannelClosed(e, j.channel))
    && (j.stage.Await? || j.stage.Read? || j.stage.Commit? || j.stage.Account? || j.stage.Drain? ==> !j.failed)
  }

  predicate SamePlace(s: Entry, f: Entry) {
    && f.policy == s.policy && f.removed == s.removed && f.removing == s.removing && f.instances == s.instances
    && f.done == s.done
  }

  lemma RestartFrame(s: Entry, t: nat)
    requires t in s.jobs && Restarting(s, s.jobs[t])
    ensures var f := Work(s, t, FINE);
      CanWork(s, t, FINE) && SamePlace(s, f) && t in f.jobs && f.jobs[t] == NextStop(s, s.jobs[t], FINE)
  {
    hide NextStart, NextStop, StatusByJob;
  }

  lemma RestartNext(e: Entry, j: Job)
    requires Restarting(e, j)
    ensures var y := NextStop(e, j, FINE);
      if j.stage.Rewind? then y.stage == FirstStart(e.policy)
      else Restarting(e, y) && StopRank(y.stage) < StopRank(j.stage)
  {
  }

  lemma {:induction false} RestartLeads(e: Entry, s: Entry, t: nat) returns (f: Entry)
    requires Leads(true, e, s) && t in s.jobs && Restarting(s, s.jobs[t])
    ensures Leads(true, e, f) && t in f.jobs && f.jobs[t].stage == FirstStart(s.policy) && SamePlace(s, f)
    decreases StopRank(s.jobs[t].stage)
  {
    hide Leads, Work, CanWork, NextStop;
    RestartFrame(s, t);
    RestartNext(s, s.jobs[t]);
    f := WorkOn(true, e, s, t);
    if !s.jobs[t].stage.Rewind? {
      SamePlaceRestarts(s, f, f.jobs[t]);
      f := RestartLeads(e, f, t);
    }
  }

  lemma SamePlaceRestarts(s: Entry, f: Entry, j: Job)
    requires SamePlace(s, f)
    ensures Restarting(f, j) <==> Restarting(s, j)
  {
  }

  /** What the operation waits for, or will wait for, has exited. */
  predicate Exited(e: Entry, j: Job) {
    && (j.stage.Validate? || j.stage.Cancel? || j.stage.Watch? ==> ChannelClosed(e, e.done))
    && (j.stage.Begin? || j.stage.Mark? || j.stage.Sequence? || j.stage.Await? ==> ChannelClosed(e, j.channel))
  }

  /** Nothing stands in the way of the operation: it is not a stop that would find a succeeded gate, and what a
      replacement waits for has exited. */
  predicate Unhindered(e: Entry, j: Job) {
    && (MarkRank(j.stage) > 1 && e.status == Succeeded ==> j.op.ReplaceOp? && Exited(e, j))
    && (j.stage.Sequence? || j.stage.Await? || (j.stage.Mark? && j.sampled == Succeeded) ==>
         ChannelClosed(e, j.channel))
  }

  lemma UnspentKinds(e: Entry, j: Job)
    requires StageFits(j.op, j.stage) && KindFits(e.policy, j.stage) && Holds(j.op)
    requires !Spent(e.policy, j) && Unhindered(e, j)
    ensures WillMark(e.status, j) || (HoldsStarting(j.op) && (Rousing(e.policy, j) || Restarting(e, j)))
  {
    hide ChannelClosed;
  }

  lemma FirstRouses(policy: Policy, j: Job)
    requires j.stage == FirstStart(policy)
    ensures Rousing(policy, j)
  {
  }

  /** What an operation in flight needs to know of its entry. */
  lemma InFlight(o: Orch, i: nat, t: nat)
    requires Reachable(o) && i < |o.entries| && t in o.entries[i].jobs && t != STOP
    ensures var e, j := o.entries[i], o.entries[i].jobs[t];
      && StageFits(j.op, j.stage) && KindFits(e.policy, j.stage) && Holds(j.op) && (HoldsStarting(j.op) ==> !e.removing)
  {
    hide Inv, Keeps, Sound, Reserved, StageFits, KindFits;
    ReachableInv(o);
    assert EntryInv(o, i) by { InvAt(o, i); }
    KeepsSound(o.phase, FoundAt(o, i), o.entries[i]);
    SoundStaged(o.entries[i]);
    StageOf(o.entries[i], t);
    HoldsAt(o.phase, o.entries[i], t);
    StartersAlone(o.entries[i], t);
  }

  lemma InvAt(o: Orch, i: nat)
    requires Inv(o) && i < |o.entries|
    ensures EntryInv(o, i)
  {
    hide Keeps;
  }

  lemma HoldsAt(phase: Phase, e: Entry, t: nat)
    requires JobsOwned(phase, e) && t in e.jobs && t != STOP
    ensures Holds(e.jobs[t].op)
  {
  }

  lemma StartersAlone(e: Entry, t: nat)
    requires Reserved(e) && t in e.jobs
    ensures HoldsStarting(e.jobs[t].op) ==> !e.removing
  {
  }

  /** From every reachable state past the wait in which no stop has failed: an operation on a registered entry
      that is not spent, and that nothing hinders, can leave the entry neither Stopped nor Succeeded once Stop
      has reported success; and a stop leaves it Stopping. */
  lemma UnspentUndoesStop(o: Orch, i: nat, t: nat) returns (p: Orch)
    requires Reachable(o) && o.phase.Waited? && !StopFailed(o.entries) && i < |o.entries| && !o.entries[i].removed
    requires t in o.entries[i].jobs && t != STOP && !Spent(o.entries[i].policy, o.entries[i].jobs[t])
    requires Unhindered(o.entries[i], o.entries[i].jobs[t])
    ensures From(o, p) && p.phase == Down(false) && p.found == o.found && |p.entries| == |o.entries|
    ensures !p.entries[i].removed && !Ended(p.entries[i].status)
    ensures HoldsRemoving(o.entries[i].jobs[t].op) ==> p.entries[i].status == Stopping
  {
    hide From, Leads, Spent, Unhindered, StageFits, KindFits, WillMark, Rousing, Restarting, StopFailed;
    InFlight(o, i, t);
    UnspentKinds(o.entries[i], o.entries[i].jobs[t]);
    p := Reports(o);
    var s, j := p.entries[i], o.entries[i].jobs[t];
    LeftAt(o.entries[i], s, t);
    Stay(true, s);
    var f := s;
    if WillMark(o.entries[i].status, j) {
      f := MarkLeads(s, s, t);
    } else {
      if !Rousing(s.policy, j) {
        f := RestartLeads(s, s, t);
        FirstRouses(f.policy, f.jobs[t]);
      }
      f := RouseLeads(s, f, t);
    }
    p := Lift(o, p, i, f);
  }

  /** Stop leaves the operation to do what it was about to do. */
  lemma LeftAt(e: Entry, f: Entry, t: nat)
    requires Left(e, f) && t in e.jobs && t != STOP
    ensures t in f.jobs && f.jobs[t] == e.jobs[t] && SameFlags(e, f) && f.instances == e.instances
    ensures WillMark(e.status, e.jobs[t]) ==> WillMark(f.status, e.jobs[t])
    ensures Restarting(e, e.jobs[t]) ==> Restarting(f, e.jobs[t])
    ensures Unhindered(e, e.jobs[t]) ==> Unhindered(f, e.jobs[t])
    ensures Exited(e, e.jobs[t]) ==> Exited(f, e.jobs[t])
  {
  }

  /** So it is exactly what Stop finds that decides: from every reachable state in which Stop is about to cancel
      and nothing is alive any more, an operation that is not spent, and that nothing hinders, can do so. */
  lemma FoundUnspentUndoesStop(o: Orch, i: nat, t: nat) returns (p: Orch)
    requires Reachable(o) && o.phase.Ending? && o.wg == B(o.health) && i < |o.entries| && !o.entries[i].removed
    requires t in o.entries[i].jobs && !Spent(o.entries[i].policy, o.entries[i].jobs[t])
    requires Unhindered(o.entries[i], o.entries[i].jobs[t])
    ensures From(o, p) && p.phase == Down(false) && p.found == o.entries && |p.entries| == |o.entries|
    ensures !p.entries[i].removed && !Ended(p.entries[i].status)
  {
    hide From, Spent, StopFailed, Left, Inv, Unhindered;
    ReachableInv(o);
    NoStopYet(o, i);
    var q := Waits(o);
    FromTrans(Init(), o, q);
    LeftAt(o.entries[i], q.entries[i], t);
    p := UnspentUndoesStop(q, i, t);
    FromTrans(o, q, p);
  }

  lemma Unhinders(e: Entry, j: Job)
    requires StageFits(j.op, j.stage) && Exited(e, j)
    requires e.status == Succeeded ==> HoldsStarting(j.op)
    ensures Unhindered(e, j)
  {
    hide ChannelClosed;
  }

  /** While the orchestrator is up there is one operation on an entry at most. */
  lemma OnlyOperation(o: Orch, i: nat, s: nat, t: nat)
    requires Reachable(o) && !ContextDone(o.phase) && i < |o.entries| && s in o.entries[i].jobs
    requires t in o.entries[i].jobs
    ensures s == t
  {
    hide Inv, Keeps, Sound, Reserved;
    ReachableInv(o);
    InvAt(o, i);
    KeepsSound(o.phase, FoundAt(o, i), o.entries[i]);
    OwnedHold(o.phase, o.entries[i]);
    OnlyJob(o.entries[i], s, t);
  }

  /** The condition of StopEndsEntries is exact: from every reachable state in which Stop is about to cancel,
      nothing is alive any more and no operation waits for what has not exited, a registered entry that fails it
      can be left neither Stopped nor Succeeded by a Stop that reports success. */
  lemma StopEndsOnlyThese(o: Orch, i: nat) returns (p: Orch)
    requires Reachable(o) && o.phase.Ending? && o.wg == B(o.health) && i < |o.entries| && !o.entries[i].removed
    requires var e := o.entries[i];
      && !AllSpent(e) && !(e.status.Succeeded? && AllFruitless(e))
      && forall t :: t in e.jobs ==> Exited(e, e.jobs[t])
    ensures From(o, p) && p.phase == Down(false) && p.found == o.entries && |p.entries| == |o.entries|
    ensures !p.entries[i].removed && !Ended(p.entries[i].status)
  {
    hide From, Reachable, Spent, Exited, Unhindered, StageFits, KindFits;
    var e := o.entries[i];
    var t :| t in e.jobs && t != STOP && !Spent(e.policy, e.jobs[t]);
    InFlight(o, i, t);
    if e.status == Succeeded {
      var u :| u in e.jobs && !Fruitless(e.jobs[u]);
      OnlyOperation(o, i, t, u);
    }
    Unhinders(e, e.jobs[t]);
    p := FoundUnspentUndoesStop(o, i, t);
  }

  lemma UnbarrenKinds(e: Entry, j: Job)
    requires StageFits(j.op, j.stage) && KindFits(e.policy, j.stage) && !Barren(e.policy, j) && Exited(e, j)
    ensures e.policy.kind.Persistent? && HoldsStarting(j.op) && (StartRank(j.stage) > 1 || Restarting(e, j))
  {
    hide ChannelClosed;
  }

  lemma LastLives(e: Entry)
    requires |e.instances| > 0 && e.instances[|e.instances| - 1].at.Live?
    ensures LiveEras(e) != {}
  {
    assert |e.instances| - 1 in LiveEras(e);
  }

  /** From every such state: a start or a replacement that can still add to the wait group can bring its service
      up after Stop has reported success. */
  lemma UnbarrenOutlivesStop(o: Orch, i: nat, t: nat) returns (p: Orch)
    requires Reachable(o) && o.phase.Waited? && !StopFailed(o.entries) && i < |o.entries| && !o.entries[i].removed
    requires t in o.entries[i].jobs && t != STOP && !Barren(o.entries[i].policy, o.entries[i].jobs[t])
    requires Exited(o.entries[i], o.entries[i].jobs[t])
    ensures From(o, p) && p.phase == Down(false) && p.found == o.found && |p.entries| == |o.entries|
    ensures LiveEras(p.entries[i]) != {}
  {
    hide From, Leads, Barren, Exited, StageFits, KindFits, Restarting, StopFailed;
    InFlight(o, i, t);
    UnbarrenKinds(o.entries[i], o.entries[i].jobs[t]);
    p := Reports(o);
    var s, j := p.entries[i], o.entries[i].jobs[t];
    LeftAt(o.entries[i], s, t);
    Stay(true, s);
    var f := s;
    if StartRank(j.stage) <= 1 { f := RestartLeads(s, s, t); }
    f := EnrollLeads(true, s, f, t);
    f := LaunchLeads(true, s, f, t);
    LastLives(f);
    p := Lift(o, p, i, f);
  }

  /** And so it is when Stop finds it with nothing alive any more. */
  lemma FoundUnbarrenOutlivesStop(o: Orch, i: nat, t: nat) returns (p: Orch)
    requires Reachable(o) && o.phase.Ending? && o.wg == B(o.health) && i < |o.entries| && !o.entries[i].removed
    requires t in o.entries[i].jobs && !Barren(o.entries[i].policy, o.entries[i].jobs[t])
    requires Exited(o.entries[i], o.entries[i].jobs[t])
    ensures From(o, p) && p.phase == Down(false) && p.found == o.entries && |p.entries| == |o.entries|
    ensures LiveEras(p.entries[i]) != {}
  {
    hide From, Barren, StopFailed, Left, Inv, Exited;
    ReachableInv(o);
    NoStopYet(o, i);
    var q := Waits(o);
    FromTrans(Init(), o, q);
    LeftAt(o.entries[i], q.entries[i], t);
    p := UnbarrenOutlivesStop(q, i, t);
    FromTrans(o, q, p);
  }

  lemma CountsTwiceLeads(e: Entry, t: nat) returns (f: Entry)
    requires t in e.jobs && STOP in e.jobs && t != STOP && e.jobs[t].op.ReplaceOp? && GoesThrough(e, e.jobs[t])
    requires StopRank(e.jobs[t].stage) <= 10 && Owed(e, e.jobs[t]) == 1
    requires e.jobs[STOP].op.ShutdownOp? && (e.jobs[STOP].stage.Read? || e.jobs[STOP].stage.Commit?)
    requires Active(e.jobs[STOP].sampled) && e.status != Succeeded
    ensures Leads(true, e, f) && f.stops == e.stops + 2 && f.starts == e.starts && f.restarts == e.restarts
  {
    hide Leads, GoesThrough, Owed, SameFlags;
    Stay(true, e);
    f := StopLeads(true, e, e, t);
    f := CommitLeads(e, f);
  }

  lemma UndoneOwes(e: Entry, j: Job)
    requires Undone(j) && MayCount(j) && !e.stopsCounted
    ensures StopRank(j.stage) <= 10 && Owed(e, j) == 1
  {
  }

  /** From every reachable state past the wait: a replacement that has not stopped yet what it found, and Stop,
      which saw the entry active as well, can both count the same instance. */
  lemma ReplaceCountsAgain(o: Orch, i: nat, t: nat) returns (p: Orch)
    requires Reachable(o) && o.phase.Waited? && i < |o.entries| && t in o.entries[i].jobs && STOP in o.entries[i].jobs
    requires var e := o.entries[i];
      && t != STOP && e.jobs[t].op.ReplaceOp? && Undone(e.jobs[t]) && MayCount(e.jobs[t]) && GoesThrough(e, e.jobs[t])
      && (e.jobs[STOP].stage.Read? || e.jobs[STOP].stage.Commit?) && MayCount(e.jobs[STOP])
      && !e.stopsCounted && e.status != Succeeded
    ensures From(o, p) && |p.entries| == |o.entries|
    ensures var e, f := o.entries[i], p.entries[i];
      f.stops == e.stops + 2 && f.starts == e.starts && f.restarts == e.restarts
  {
    hide From, Leads, Reachable, GoesThrough, Owed, Inv, Undone;
    ReachableInv(o);
    ClosingAt(o, i);
    UndoneOwes(o.entries[i], o.entries[i].jobs[t]);
    var f := CountsTwiceLeads(o.entries[i], t);
    StayAt(o);
    p := Lift(o, o, i, f);
  }
}
