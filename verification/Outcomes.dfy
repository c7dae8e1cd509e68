/** What an exit and a stop lead to, in every execution: the report, the status and the count. */
module Outcomes {
  import opened Services
  import opened Registry
  import opened Lifecycle
  import opened LifecycleFlow
  import opened LifecycleSafety
  import opened LifecycleShares
  import opened LifecycleRemovals
  import opened LifecycleIds
  import opened LifecycleSound
  import opened LifecycleEnds
  import opened LifecycleRetries
  import opened LifecycleVerdicts
  import opened LifecycleLimits
  import opened LifecycleExits
  import opened LifecycleAccounts
  import opened LifecycleStatus
  import opened Shutdown
  import opened Winddown
  import opened Runs
  import opened Guarantees

  /** The newest instance of a registered service has exited, no check of it found a teardown or a shutdown, and
      no operation has written the status since it was launched. Without a factory, an error has left the
      service Crashed with one report; any other exit has left it Stopped with none, and its stop is counted, as long
      as no start renews the latch. A self-healing service comes to this only by giving up with its retries used up:
      it is Crashed with one report. */
  lemma ExitDecides(run: seq<Orch>, turns: seq<Turn>, n: nat, i: nat)
    requires Execution(run, turns) && n < |run| && i < |run[n].entries|
    requires var e := run[n].entries[i];
      && !e.removed && !e.raced && !e.overruled && |e.instances| > 0
      && e.instances[|e.instances| - 1].at == Closed && !e.instances[|e.instances| - 1].yielded
    ensures var e := run[n].entries[i]; var x := e.instances[|e.instances| - 1];
      if e.policy.factory then
        x.gaveUp && x.reports == 1 && e.status == Crashed &&
        e.policy.maxRetries > 0 && e.retryCount >= e.policy.maxRetries
      else if x.exit.Crash? then x.reports == 1 && e.status == Crashed
      else x.reports == 0 && e.status == Stopped && (NoneRenews(e.jobs) ==> e.stopsCounted)
  {
    hide Reserved, Sound, Shaped, Shares, Budgeted, AllReportOnce, Departs, IdsOk, Accounted, Untied, OwnersHeld,
         Honest, Ends, Drained, Superseded, NoneRenews;
    EntryKeeps(run, turns, n, i);
    var e := run[n].entries[i];
    assert Judged(e.policy.factory, e.instances[|e.instances| - 1]);
  }

  /** While a self-healing service waits for its restart, its status tells how it exited: Crashed after an error,
      Stopped after any other exit, until an operation writes the status. */
  lemma WaitingShowsExit(run: seq<Orch>, turns: seq<Turn>, n: nat, i: nat)
    requires Execution(run, turns) && n < |run| && i < |run[n].entries|
    requires var e := run[n].entries[i];
      && !e.removed && !e.raced && !e.overruled && |e.instances| > 0
      && e.instances[|e.instances| - 1].at == Backoff && !e.instances[|e.instances| - 1].yielded
    ensures var e := run[n].entries[i]; var x := e.instances[|e.instances| - 1];
      e.status == if x.exit.Crash? then Crashed else Stopped
  {
    hide Reserved, Sound, Shaped, Shares, Budgeted, AllReportOnce, Departs, IdsOk, Accounted, Leaves, OwnersHeld,
         Honest, Ends, Drained, Limits;
    EntryKeeps(run, turns, n, i);
    var e := run[n].entries[i];
    assert Judged(e.policy.factory, e.instances[|e.instances| - 1]);
  }

  /** An exit gives the teardown context back: a registered service without a factory has none before its first
      instance and once the newest one has exited, unless a start has armed one; and a gate has none unless it runs. */
  lemma ExitDropsTeardown(run: seq<Orch>, turns: seq<Turn>, n: nat, i: nat)
    requires Execution(run, turns) && n < |run| && i < |run[n].entries|
    requires var e := run[n].entries[i];
      && !e.policy.factory && NoneArmed(e.jobs)
      && (|| (e.policy.kind.Persistent? && !e.removed && NoneOrClosed(e.instances))
          || (e.policy.kind.RunOnce? && NoneGates(e.jobs)))
    ensures run[n].entries[i].teardown.None?
  {
    hide Reserved, Sound, Shaped, Shares, Budgeted, AllReportOnce, Trials, Departs, IdsOk, ShowsExit, Accounted,
         ExitCounted, OwnersHeld, Honest, Ends, Drained, Limits, NoneArmed, NoneGates;
    EntryKeeps(run, turns, n, i);
  }

  lemma IdsAt(run: seq<Orch>, turns: seq<Turn>, n: nat, i: nat)
    requires Execution(run, turns) && n < |run| && i < |run[n].entries|
    ensures IdsOk(run[n].entries[i])
  {
    hide Reserved, Sound, Kept, AllReportOnce, Trials, Departs, IdsOk, OwnersHeld;
    EntryKeeps(run, turns, n, i);
  }

  /** The owner that newOwner draws is nobody else's. */
  predicate NewFor(e: Entry, owner: nat) {
    owner !in e.owners && forall k :: 0 <= k < |e.instances| ==> e.instances[k].owner != owner
  }

  /** A start gets an owner of its own and a teardown context that nobody has cancelled. */
  lemma StartIsFresh(run: seq<Orch>, turns: seq<Turn>, n: nat, c: Choice, t: nat, i: nat)
    requires Execution(run, turns) && n < |turns| && turns[n] == Local(i, Working(t, c))
    requires i < |run[n].entries| && t in run[n].entries[i].jobs
    ensures i < |run[n + 1].entries| && t in run[n + 1].entries[i].jobs
    ensures var e, f, owner := run[n].entries[i], run[n + 1].entries[i], run[n + 1].entries[i].jobs[t].owner;
      && (e.jobs[t].stage.Own? ==> NewFor(e, owner) && f.owners == e.owners + {owner})
      && (e.jobs[t].stage.Arm? ==> f.teardown.Some? && !Cut(f))
  {
    hide Inv, CanWork, JobDrawn, Released, InstancesByJob, StatusByJob, NextStop;
    IdsAt(run, turns, n, i);
    assert CanTake(run[n], turns[n]) && run[n + 1] == Take(run[n], turns[n]);
  }

  /** So does the heir of an instance that restarts. */
  lemma RestartIsFresh(run: seq<Orch>, turns: seq<Turn>, n: nat, c: Choice, k: nat, i: nat)
    requires Execution(run, turns) && n < |turns| && turns[n] == Local(i, Advancing(k, c))
    requires i < |run[n].entries| && k < |run[n].entries[i].instances|
    requires run[n].entries[i].instances[k].at.NewOwner?
    ensures i < |run[n + 1].entries| && k < |run[n + 1].entries[i].instances|
    ensures var e, f, owner := run[n].entries[i], run[n + 1].entries[i], run[n + 1].entries[i].instances[k].heirOwner;
      NewFor(e, owner) && f.owners == e.owners + {owner}
  {
    hide Inv, JobDrawn, Released, StatusByInstance, NextExit, NextDecision, NextTail;
    IdsAt(run, turns, n, i);
    assert CanTake(run[n], turns[n]) && run[n + 1] == Take(run[n], turns[n]);
  }

  /** An instance that waits for its restart, or has exited, owns no subscription. */
  lemma DeadOwnsNothing(run: seq<Orch>, turns: seq<Turn>, n: nat, i: nat, k: nat)
    requires Execution(run, turns) && n < |run| && i < |run[n].entries| && k < |run[n].entries[i].instances|
    ensures var e := run[n].entries[i];
      e.instances[k].at.Backoff? || e.instances[k].at.Closed? ==> e.instances[k].owner !in e.owners
  {
    hide IdsDrawn;
    IdsAt(run, turns, n, i);
  }

  /** Points from which Start is not returned from any more. */
  predicate HasExited(instances: seq<Instance>, k: nat, exit: Exit) {
    k < |instances| && !instances[k].at.Pending? && !instances[k].at.Live? && instances[k].exit == exit
  }

  lemma NextRemembers(e: Entry, x: Instance, ctxDone: bool, c: Choice)
    requires !x.at.Pending? && !x.at.Live?
    ensures var y := NextInstance(e, x, ctxDone, c); !y.at.Pending? && !y.at.Live? && y.exit == x.exit
  {
    hide NextExit, NextDecision, NextRestart, NextTail;
    if IsExit(x.at) {
      ExitRemembers(e, x, ctxDone, c);
    } else if IsDecision(x.at) {
      DecisionRemembers(e, x, ctxDone);
    } else if IsRestart(x.at) {
      RestartRemembers(e, x, ctxDone, c);
    } else {
      TailRemembers(e, x);
    }
  }

  lemma ExitRemembers(e: Entry, x: Instance, ctxDone: bool, c: Choice)
    requires IsExit(x.at) && !x.at.Live?
    ensures var y := NextExit(e, x, ctxDone, c); !y.at.Pending? && !y.at.Live? && y.exit == x.exit
  {
  }

  lemma DecisionRemembers(e: Entry, x: Instance, ctxDone: bool)
    requires IsDecision(x.at)
    ensures var y := NextDecision(e, x, ctxDone); !y.at.Pending? && !y.at.Live? && y.exit == x.exit
  {
  }

  lemma RestartRemembers(e: Entry, x: Instance, ctxDone: bool, c: Choice)
    requires IsRestart(x.at)
    ensures var y := NextRestart(e, x, ctxDone, c); !y.at.Pending? && !y.at.Live? && y.exit == x.exit
  {
  }

  lemma TailRemembers(e: Entry, x: Instance)
    requires !x.at.Pending? && !IsExit(x.at)
    ensures var y := NextTail(e, x); !y.at.Pending? && !y.at.Live? && y.exit == x.exit
  {
  }

  lemma DoRemembers(e: Entry, ctxDone: bool, a: Action, k: nat, exit: Exit)
    requires Sound(e) && Can(e, a) && HasExited(e.instances, k, exit)
    ensures HasExited(Do(e, ctxDone, a).instances, k, exit)
  {
    hide NextInstance, NextJob, CanReserve, CanRelease, StatusByJob, StatusByInstance, Staged, Tallied, Covered,
         Moored, PointFits, InstancesByJob, InstancesByInstance, Follows;
    match a
    case Reserving(t, op) =>
    case Releasing(t) =>
    case Working(t, c) => JobRemembers(e, e.jobs[t], k, exit);
    case Advancing(l, c) =>
      var x, y := e.instances[l], NextInstance(e, e.instances[l], ctxDone, c);
      InstanceFollows(e, x, ctxDone, c);
      MoveLinks(e.jobs, e, l, y);
      if l == k { NextRemembers(e, x, ctxDone, c); }
      MoveRemembers(e, l, y, k, exit);
  }

  lemma JobRemembers(e: Entry, j: Job, k: nat, exit: Exit)
    requires HasExited(e.instances, k, exit) && (j.stage.Launch? ==> PendingAt(e.instances, j.channel))
    ensures HasExited(InstancesByJob(e.instances, j), k, exit)
  {
  }

  lemma MoveRemembers(e: Entry, l: nat, y: Instance, k: nat, exit: Exit)
    requires CanAdvance(e, l) && HasExited(e.instances, k, exit)
    requires l == k ==> !y.at.Pending? && !y.at.Live? && y.exit == exit
    requires e.instances[l].at.Respawn? ==> y.heir < |e.instances| && y.heir != l && e.instances[y.heir].at.Pending?
    ensures HasExited(InstancesByInstance(e.instances, l, y, e.instances[l].at), k, exit)
  {
  }

  lemma TurnRemembers(o: Orch, m: Turn, i: nat, k: nat, exit: Exit)
    requires Inv(o) && CanTake(o, m) && i < |o.entries| && HasExited(o.entries[i].instances, k, exit)
    ensures i < |Take(o, m).entries| && HasExited(Take(o, m).entries[i].instances, k, exit)
  {
    hide Keeps, Do, Can, Sound, Take, CanTake;
    assert EntryInv(o, i);
    if m.Local? && m.i == i {
      LocalTurn(o, m);
      KeepsSound(o.phase, FoundAt(o, i), o.entries[i]);
      DoRemembers(o.entries[i], ContextDone(o.phase), m.a, k, exit);
    } else {
      OtherTurnsKeep(o, m, i);
    }
  }

  /** The moment Start returns. */
  lemma StartReturned(o: Orch, c: Choice, k: nat, i: nat)
    requires CanTake(o, Local(i, Advancing(k, c))) && k < |o.entries[i].instances| && o.entries[i].instances[k].at.Live?
    ensures i < |Take(o, Local(i, Advancing(k, c))).entries|
    ensures HasExited(Take(o, Local(i, Advancing(k, c))).entries[i].instances, k, c.exit)
  {
    hide StatusByInstance, OwnersByInstance, Untethers, Steadied, NextDecision, NextRestart, NextTail;
  }

  /** The exit that decides is the error that Start returned. */
  lemma {:induction false} ExitIsWhatStartReturned(run: seq<Orch>, turns: seq<Turn>, w: nat, n: nat, c: Choice, k: nat,
      i: nat)
    requires Execution(run, turns) && w < n < |run| && i < |run[w].entries| && k < |run[w].entries[i].instances|
    requires turns[w] == Local(i, Advancing(k, c)) && run[w].entries[i].instances[k].at.Live?
    ensures i < |run[n].entries| && HasExited(run[n].entries[i].instances, k, c.exit)
  {
    hide Inv, Take, CanTake, HasExited;
    if n == w + 1 {
      assert CanTake(run[w], turns[w]) && run[n] == Take(run[w], turns[w]);
      StartReturned(run[w], c, k, i);
    } else {
      ExitIsWhatStartReturned(run, turns, w, n - 1, c, k, i);
      RunInv(run, turns, n - 1);
      assert CanTake(run[n - 1], turns[n - 1]) && run[n] == Take(run[n - 1], turns[n - 1]);
      TurnRemembers(run[n - 1], turns[n - 1], i, k, c.exit);
    }
  }

  /** Somebody is taking the service down, or a whole Stop is. */
  predicate Deliberate(e: Entry, ctxDone: bool) {
    e.removing || Cut(e) || (ctxDone && e.teardown.Some?)
  }

  /** A crash has been judged and is about to be reported. */
  predicate Reporting(at: Point) {
    at.SetCrashed? || at.TellCrash? || at.QuitCrashed?
  }

  predicate Silent(instances: seq<Instance>, k: nat, reports: nat) {
    k < |instances| && !Reporting(instances[k].at) && instances[k].reports == reports
  }

  lemma SilentNext(e: Entry, x: Instance, ctxDone: bool, c: Choice)
    requires TeardownActive(e, ctxDone) && !Reporting(x.at)
    ensures var y := NextInstance(e, x, ctxDone, c); !Reporting(y.at) && y.reports == x.reports
  {
    hide NextExit, NextDecision, NextRestart, NextTail, TeardownActive;
    if IsExit(x.at) {
      ExitSilent(e, x, ctxDone, c);
    } else if IsDecision(x.at) {
      DecisionSilent(e, x, ctxDone);
    } else if IsRestart(x.at) {
      RestartSilent(e, x, ctxDone, c);
    } else {
      TailSilent(e, x);
    }
  }

  lemma ExitSilent(e: Entry, x: Instance, ctxDone: bool, c: Choice)
    requires TeardownActive(e, ctxDone) && !Reporting(x.at) && IsExit(x.at)
    ensures var y := NextExit(e, x, ctxDone, c); !Reporting(y.at) && y.reports == x.reports
  {
    hide TeardownActive;
  }

  lemma DecisionSilent(e: Entry, x: Instance, ctxDone: bool)
    requires TeardownActive(e, ctxDone) && !Reporting(x.at) && IsDecision(x.at)
    ensures var y := NextDecision(e, x, ctxDone); !Reporting(y.at) && y.reports == x.reports
  {
    hide TeardownActive;
  }

  lemma RestartSilent(e: Entry, x: Instance, ctxDone: bool, c: Choice)
    requires IsRestart(x.at)
    ensures var y := NextRestart(e, x, ctxDone, c); !Reporting(y.at) && y.reports == x.reports
  {
    hide Aborted;
  }

  lemma TailSilent(e: Entry, x: Instance)
    ensures var y := NextTail(e, x); !Reporting(y.at) && y.reports == x.reports
  {
  }

  lemma JobSilent(instances: seq<Instance>, j: Job, k: nat, reports: nat)
    requires Silent(instances, k, reports)
    ensures Silent(InstancesByJob(instances, j), k, reports)
  {
  }

  lemma MoveSilent(instances: seq<Instance>, l: nat, y: Instance, at: Point, k: nat, reports: nat)
    requires l < |instances| && Silent(instances, k, reports)
    requires l == k ==> !Reporting(y.at) && y.reports == reports
    ensures Silent(InstancesByInstance(instances, l, y, at), k, reports)
  {
  }

  lemma DoSilent(e: Entry, ctxDone: bool, a: Action, k: nat, reports: nat)
    requires Can(e, a) && Deliberate(e, ctxDone) && Silent(e.instances, k, reports)
    ensures Silent(Do(e, ctxDone, a).instances, k, reports)
  {
    hide NextInstance, NextJob, CanReserve, CanRelease, StatusByJob, StatusByInstance, AtRest, OwnersByJob,
         OwnersByInstance, Through, LatchReset, Counts, InstancesByJob, InstancesByInstance, WritesStatus, Steadied,
         Untethers;
    match a
    case Reserving(t, op) =>
    case Releasing(t) =>
    case Working(t, c) => JobSilent(e.instances, e.jobs[t], k, reports);
    case Advancing(l, c) =>
      if l == k { SilentNext(e, e.instances[k], ctxDone, c); }
      MoveSilent(e.instances, l, NextInstance(e, e.instances[l], ctxDone, c), e.instances[l].at, k, reports);
  }

  lemma TurnSilent(o: Orch, m: Turn, i: nat, k: nat, reports: nat)
    requires CanTake(o, m) && i < |o.entries| && Deliberate(o.entries[i], ContextDone(o.phase))
    requires Silent(o.entries[i].instances, k, reports)
    ensures i < |Take(o, m).entries| && Silent(Take(o, m).entries[i].instances, k, reports)
  {
    hide Do, Can, Take, CanTake, Silent, Deliberate;
    if m.Local? && m.i == i {
      LocalTurn(o, m);
      DoSilent(o.entries[i], ContextDone(o.phase), m.a, k, reports);
    } else {
      OtherTurnsKeep(o, m, i);
    }
  }

  /** Nobody hears of a crash while the service is deliberately taken down: as long as the entry is claimed for
      removal or for a stop, or its teardown context is cancelled, or the whole orchestrator stops, no instance
      reports anything, whatever Start returns, unless it had found nothing of the kind before. */
  lemma {:induction false} DeliberateIsSilent(run: seq<Orch>, turns: seq<Turn>, m: nat, n: nat, i: nat, k: nat,
      reports: nat)
    requires Execution(run, turns) && m <= n < |run| && i < |run[m].entries|
    requires Silent(run[m].entries[i].instances, k, reports)
    requires forall j :: m <= j < n ==>
               i < |run[j].entries| && Deliberate(run[j].entries[i], ContextDone(run[j].phase))
    ensures i < |run[n].entries| && Silent(run[n].entries[i].instances, k, reports)
  {
    hide CanTake, Take, Silent, Deliberate;
    if m < n {
      DeliberateIsSilent(run, turns, m, n - 1, i, k, reports);
      TurnSilent(run[n - 1], turns[n - 1], i, k, reports);
    }
  }

  /** Nobody is taking the service down, and it is still registered. */
  predicate Undisturbed(o: Orch, i: nat) {
    && i < |o.entries| && !ContextDone(o.phase) && !o.entries[i].removing && !Cut(o.entries[i])
    && !o.entries[i].removed && !o.entries[i].raced
  }

  predicate Unyielded(instances: seq<Instance>, k: nat) {
    k < |instances| && !instances[k].yielded
  }

  lemma UnyieldedNext(e: Entry, x: Instance, c: Choice)
    requires !e.removing && !Cut(e) && (x.at.Backoff? ==> x.held.Some? && x.held.value !in e.cancelled)
    ensures NextInstance(e, x, false, c).yielded == x.yielded
  {
  }

  /** A restart that waits remembers the teardown context of now. */
  lemma WaitsOnTeardown(e: Entry, k: nat)
    requires Shaped(e) && !e.removed && !Cut(e) && k < |e.instances| && e.instances[k].at.Backoff?
    ensures e.instances[k].held.Some? && e.instances[k].held.value !in e.cancelled
  {
    hide Fits, Latest;
  }

  lemma DoUnyielded(e: Entry, a: Action, k: nat)
    requires Shaped(e) && Can(e, a) && !e.removing && !Cut(e) && !e.removed && Unyielded(e.instances, k)
    ensures Unyielded(Do(e, false, a).instances, k)
  {
    hide NextInstance, NextJob, CanReserve, CanRelease, StatusByJob, StatusByInstance, Cut, AtRest, OwnersByJob,
         OwnersByInstance, Through, LatchReset, Counts, Shaped;
    if a.Advancing? && a.k == k {
      if e.instances[k].at.Backoff? { WaitsOnTeardown(e, k); }
      UnyieldedNext(e, e.instances[k], a.c);
    }
  }

  lemma TurnUnyielded(o: Orch, m: Turn, i: nat, k: nat)
    requires Inv(o) && CanTake(o, m) && Undisturbed(o, i) && Unyielded(o.entries[i].instances, k)
    ensures i < |Take(o, m).entries| && Unyielded(Take(o, m).entries[i].instances, k)
  {
    hide Keeps, Do, Can, Take, CanTake, Unyielded, Cut, Inv, Shaped, Sound, Reserved;
    if m.Local? && m.i == i {
      LocalTurn(o, m);
      assert EntryInv(o, i) by { EntryAt(o, i); }
      KeepsSound(o.phase, FoundAt(o, i), o.entries[i]);
      DoUnyielded(o.entries[i], m.a, k);
    } else {
      OtherTurnsKeep(o, m, i);
    }
  }

  /** This turn launches instance k of the entry. */
  predicate Launches(o: Orch, u: Turn, i: nat, k: nat) {
    i < |o.entries| && u.Local? && u.i == i && var e := o.entries[i];
      || (u.a.Working? && u.a.t in e.jobs && e.jobs[u.a.t].stage.Launch? && e.jobs[u.a.t].channel == Some(k))
      || (u.a.Advancing? && u.a.k < |e.instances| && e.instances[u.a.k].at.Respawn? && e.instances[u.a.k].heir == k)
  }

  /** This turn is a step of an operation that writes the status of the entry. */
  predicate Rewrites(o: Orch, u: Turn, i: nat) {
    i < |o.entries| && u.Local? && u.i == i && u.a.Working? && u.a.t in o.entries[i].jobs &&
    var stage := o.entries[i].jobs[u.a.t].stage;
    stage.Hook? || stage.Run? || stage.Schedule? || stage.Settle? || stage.Bless? || stage.Mark? || stage.Commit? ||
    stage.Remove?
  }

  predicate OwnStatus(e: Entry, k: nat) {
    Unyielded(e.instances, k) && !e.overruled
  }

  lemma LaunchOwns(e: Entry, a: Action, k: nat)
    requires Trials(e) && Linked(e.jobs, e.instances) && Can(e, a) && !e.raced
    requires || (a.Working? && a.t in e.jobs && e.jobs[a.t].stage.Launch? && e.jobs[a.t].channel == Some(k))
             || (a.Advancing? && a.k < |e.instances| && e.instances[a.k].at.Respawn? && e.instances[a.k].heir == k)
    ensures OwnStatus(Do(e, false, a), k)
  {
    hide NextJob, NextInstance, StatusByJob, StatusByInstance, OwnersByJob, OwnersByInstance, AllJudged, HeirsLater,
         Untethers, Steadied, LatchReset, Counts;
    if a.Working? {
      assert PendingAt(e.instances, e.jobs[a.t].channel);
    } else {
      assert PendingAt(e.instances, Some(e.instances[a.k].heir));
    }
  }

  lemma DoOwn(e: Entry, a: Action)
    requires Can(e, a) && !e.overruled && !e.raced
    requires a.Working? ==> a.t in e.jobs && !WritesStatus(e.jobs[a.t], a.c)
    ensures !Do(e, false, a).overruled
  {
    hide NextJob, NextInstance, StatusByJob, StatusByInstance, InstancesByJob, InstancesByInstance, OwnersByJob,
         OwnersByInstance, Untethers, Steadied, LatchReset, Counts, AtRest, CanReserve, CanRelease, Through;
  }

  lemma TurnOwn(o: Orch, m: Turn, i: nat)
    requires CanTake(o, m) && Undisturbed(o, i) && !o.entries[i].overruled && !Rewrites(o, m, i)
    ensures i < |Take(o, m).entries| && !Take(o, m).entries[i].overruled
  {
    hide Do, Can, Cut, CanReserve, CanRelease, StopsAt, StopFailed, AtRest;
    if m.Local? && m.i == i {
      LocalTurn(o, m);
      DoOwn(o.entries[i], m.a);
    }
  }

  lemma {:induction false} StaysOwn(run: seq<Orch>, turns: seq<Turn>, m: nat, n: nat, i: nat, k: nat)
    requires Execution(run, turns) && m <= n < |run| && i < |run[m].entries| && OwnStatus(run[m].entries[i], k)
    requires forall j :: m <= j < n ==> Undisturbed(run[j], i) && !Rewrites(run[j], turns[j], i)
    ensures i < |run[n].entries| && OwnStatus(run[n].entries[i], k)
  {
    hide Inv, CanTake, Take, Unyielded, Undisturbed, Rewrites;
    if m < n {
      StaysOwn(run, turns, m, n - 1, i, k);
      RunInv(run, turns, n - 1);
      TurnUnyielded(run[n - 1], turns[n - 1], i, k);
      TurnOwn(run[n - 1], turns[n - 1], i);
    }
  }

  lemma TurnLaunches(o: Orch, m: Turn, i: nat, k: nat)
    requires Inv(o) && CanTake(o, m) && Launches(o, m, i, k) && Undisturbed(o, i)
    ensures i < |Take(o, m).entries| && OwnStatus(Take(o, m).entries[i], k)
  {
    hide Reserved, Sound, Kept, AllReportOnce, Trials, Departs, IdsOk, OwnersHeld, SinceOk, CalmOk, UpOk, JobsOwned,
         Inv, Do, Can, Cut, OwnStatus;
    assert EntryInv(o, i) by { EntryAt(o, i); }
    SoundLinked(o.entries[i]);
    LaunchOwns(o.entries[i], m.a, k);
  }

  lemma SoundLinked(e: Entry)
    requires Sound(e)
    ensures Linked(e.jobs, e.instances)
  {
    hide Staged, Pointed, Linked, Tallied, Covered, Moored;
  }

  /** The converse: an instance is launched at turn m, and until it has exited, and still is the newest, nobody takes
      the service down, stops the orchestrator or writes its status. Then the exit is judged: an error is reported,
      once, and leaves the service Crashed, and any other exit of a service without a factory leaves it Stopped. */
  lemma UndisturbedExitDecides(run: seq<Orch>, turns: seq<Turn>, m: nat, n: nat, i: nat, k: nat)
    requires Execution(run, turns) && m < n < |run| && Launches(run[m], turns[m], i, k)
    requires forall j :: m <= j <= n ==> Undisturbed(run[j], i)
    requires forall j :: m < j < n ==> !Rewrites(run[j], turns[j], i)
    requires i < |run[n].entries|
    requires |run[n].entries[i].instances| == k + 1 && run[n].entries[i].instances[k].at == Closed
    ensures var e := run[n].entries[i]; var x := e.instances[k];
      if e.policy.factory || x.exit.Crash? then x.reports == 1 && e.status == Crashed
      else x.reports == 0 && e.status == Stopped
  {
    hide Inv, CanTake, Take, Launches, Rewrites, Cut;
    RunInv(run, turns, m);
    assert Undisturbed(run[m], i) && CanTake(run[m], turns[m]) && run[m + 1] == Take(run[m], turns[m]);
    TurnLaunches(run[m], turns[m], i, k);
    StaysOwn(run, turns, m + 1, n, i, k);
    assert Undisturbed(run[n], i);
    ExitDecides(run, turns, n, i);
  }

  /** Points at which an instance is past a check of the teardown, or has its heir to install: it may still write the
      status. */
  predicate Judging(at: Point) {
    at.SeeTeardown? || at.SetStopped? || at.SetCrashed? || at.TellCrash? || at.QuitTeardown? || at.QuitStopped? ||
    at.QuitCrashed? || at.SetIdle? || at.AbortStopped? || at.Rearm? || at.NewOwner? || at.Install? || at.Revive?
  }

  predicate NoneJudging(instances: seq<Instance>) {
    forall k :: 0 <= k < |instances| ==> !Judging(instances[k].at)
  }

  /** An operation takes the service down; of a self-healing one it has cancelled the teardown context. */
  predicate Taken(o: Orch, i: nat) {
    i < |o.entries| && var e := o.entries[i];
      e.removing && !e.removed && !e.raced && (e.policy.factory ==> Cut(e))
  }

  lemma TakenNext(e: Entry, x: Instance, ctxDone: bool, c: Choice)
    requires e.removing && !Judging(x.at) && !x.at.Pending? && (e.policy.factory ==> Cut(e))
    requires x.at.Backoff? ==> x.held.Some? && x.held.value in e.cancelled
    ensures !Judging(NextInstance(e, x, ctxDone, c).at) && !x.at.Install?
    ensures StatusByInstance(e.status, x.at) == e.status
  {
    hide NextExit, NextDecision, NextRestart, NextTail;
    if IsExit(x.at) {
      TakenExit(e, x, ctxDone, c);
    } else if IsDecision(x.at) {
      TakenDecision(e, x, ctxDone);
    } else if IsRestart(x.at) {
      TakenRestart(e, x, ctxDone, c);
    } else {
      TakenTail(e, x);
    }
  }

  lemma TakenExit(e: Entry, x: Instance, ctxDone: bool, c: Choice)
    requires e.removing && !Judging(x.at) && IsExit(x.at)
    ensures !Judging(NextExit(e, x, ctxDone, c).at)
  {
  }

  lemma TakenDecision(e: Entry, x: Instance, ctxDone: bool)
    requires e.removing && !Judging(x.at) && IsDecision(x.at)
    ensures !Judging(NextDecision(e, x, ctxDone).at)
  {
  }

  lemma TakenRestart(e: Entry, x: Instance, ctxDone: bool, c: Choice)
    requires e.removing && !Judging(x.at) && IsRestart(x.at)
    requires x.at.Backoff? ==> x.held.Some? && x.held.value in e.cancelled
    ensures !Judging(NextRestart(e, x, ctxDone, c).at)
  {
  }

  lemma TakenTail(e: Entry, x: Instance)
    ensures !Judging(NextTail(e, x).at)
  {
  }

  lemma WaitsOnCut(e: Entry, k: nat)
    requires Shaped(e) && !e.removed && k < |e.instances| && e.instances[k].at.Backoff?
    requires e.policy.factory ==> Cut(e)
    ensures e.instances[k].held.Some? && e.instances[k].held.value in e.cancelled
  {
    hide Fits, Latest;
  }

  lemma DoTaken(e: Entry, ctxDone: bool, a: Action)
    requires Shaped(e) && Can(e, a) && e.removing && !e.removed && (e.policy.factory ==> Cut(e))
    requires NoneJudging(e.instances)
    ensures NoneJudging(Do(e, ctxDone, a).instances)
    ensures a.Advancing? ==> Do(e, ctxDone, a).status == e.status
  {
    hide NextInstance, NextJob, CanReserve, CanRelease, StatusByJob, StatusByInstance, Cut, AtRest, OwnersByJob,
         OwnersByInstance, Through, LatchReset, Counts, Shaped, Judging, Untethers, Steadied;
    LiveJudgesNot();
    if a.Advancing? {
      if e.instances[a.k].at.Backoff? { WaitsOnCut(e, a.k); }
      TakenNext(e, e.instances[a.k], ctxDone, a.c);
    }
  }

  lemma LiveJudgesNot()
    ensures !Judging(Live) && !Judging(Pending)
  {
  }

  lemma TurnTaken(o: Orch, m: Turn, i: nat)
    requires Inv(o) && CanTake(o, m) && Taken(o, i) && NoneJudging(o.entries[i].instances)
    ensures i < |Take(o, m).entries| && NoneJudging(Take(o, m).entries[i].instances)
    ensures m.Local? && m.i == i && m.a.Advancing? ==> Take(o, m).entries[i].status == o.entries[i].status
  {
    hide Keeps, Do, Can, Take, CanTake, NoneJudging, Cut, Inv, Shaped, Sound, Reserved;
    if m.Local? && m.i == i {
      LocalTurn(o, m);
      assert EntryInv(o, i) by { EntryAt(o, i); }
      KeepsSound(o.phase, FoundAt(o, i), o.entries[i]);
      DoTaken(o.entries[i], ContextDone(o.phase), m.a);
    } else {
      OtherTurnsKeep(o, m, i);
    }
  }

  /** Who takes a service down owns its status: as long as the entry is claimed, and of a self-healing one the teardown
      context cancelled, no instance writes it that was not past its check before, whatever Start returns. */
  lemma {:induction false} TakerOwnsStatus(run: seq<Orch>, turns: seq<Turn>, m: nat, n: nat, i: nat)
    requires Execution(run, turns) && m <= n < |turns| && i < |run[m].entries|
    requires NoneJudging(run[m].entries[i].instances) && forall j :: m <= j <= n ==> Taken(run[j], i)
    ensures i < |run[n].entries| && NoneJudging(run[n].entries[i].instances)
    ensures turns[n].Local? && turns[n].i == i && turns[n].a.Advancing? ==>
              i < |run[n + 1].entries| && run[n + 1].entries[i].status == run[n].entries[i].status
  {
    hide Inv, CanTake, Take, NoneJudging, Taken;
    if m < n {
      TakerOwnsStatus(run, turns, m, n - 1, i);
      RunInv(run, turns, n - 1);
      assert Taken(run[n - 1], i) && run[n] == Take(run[n - 1], turns[n - 1]);
      TurnTaken(run[n - 1], turns[n - 1], i);
    }
    RunInv(run, turns, n);
    assert Taken(run[n], i) && run[n + 1] == Take(run[n], turns[n]);
    TurnTaken(run[n], turns[n], i);
  }

  /** A restart that was aborted, or a service that gave up under a teardown, is about to leave the entry Stopped, or
      has. */
  predicate Excused(e: Entry, k: nat) {
    k < |e.instances| && var at := e.instances[k].at;
    at.AbortRemoving? || at.AbortStopped? || at.QuitStopped? || (Gone(at) && e.status == Stopped)
  }

  /** Nobody holds the entry to take it down, and the instance is still the newest. */
  predicate LeftAlone(o: Orch, i: nat, k: nat) {
    && i < |o.entries| && !o.entries[i].removing && !o.entries[i].removed && !o.entries[i].raced
    && |o.entries[i].instances| == k + 1
  }

  lemma ExcusedNext(e: Entry, x: Instance, ctxDone: bool, c: Choice)
    requires !e.removing && !x.at.Closed?
    requires x.at.AbortRemoving? || x.at.AbortStopped? || x.at.QuitStopped? || (Gone(x.at) && e.status == Stopped)
    ensures var at := NextInstance(e, x, ctxDone, c).at;
      at.AbortStopped? || (Gone(at) && StatusByInstance(e.status, x.at) == Stopped)
  {
  }

  lemma OthersSettled(e: Entry, k: nat, l: nat)
    requires Shaped(e) && k == |e.instances| - 1 && l < k && Excused(e, k)
    ensures Settled(e.instances[l].at)
  {
    hide PointsFit, Fits, Latest, Tethered;
  }

  lemma WorkExcused(e: Entry, t: nat, c: Choice, k: nat)
    requires Shaped(e) && CanWork(e, t, c) && Excused(e, k) && k == |e.instances| - 1 && !WritesStatus(e.jobs[t], c)
    requires |Work(e, t, c).instances| == k + 1
    ensures Excused(Work(e, t, c), k)
  {
    hide NextJob, StatusByJob, OwnersByJob, Through, LatchReset, Counts, Shaped, Gone, WritesStatus;
    NotGoneYet();
    WritesOrKeeps(e.status, e.jobs[t], c);
    if e.jobs[t].stage.Launch? { LaunchesPending(e, t); }
  }

  lemma MoveExcused(e: Entry, l: nat, y: Instance, status: Status, k: nat)
    requires CanAdvance(e, l) && Excused(e, k) && k == |e.instances| - 1
    requires l != k ==> Settled(e.instances[l].at) && status == e.status
    requires l == k ==> y.at.AbortStopped? || (Gone(y.at) && status == Stopped)
    ensures Excused(e.(instances := InstancesByInstance(e.instances, l, y, e.instances[l].at), status := status), k)
  {
    hide Gone;
    NotGoneYet();
  }

  lemma AdvanceExcused(e: Entry, l: nat, ctxDone: bool, c: Choice, k: nat)
    requires Shaped(e) && CanAdvance(e, l) && !e.removing && Excused(e, k) && k == |e.instances| - 1
    ensures Excused(Advance(e, l, ctxDone, c), k)
  {
    hide NextInstance, StatusByInstance, OwnersByInstance, Untethers, Steadied, Shaped, Gone, InstancesByInstance;
    if l == k {
      ExcusedNext(e, e.instances[k], ctxDone, c);
    } else {
      OthersSettled(e, k, l);
      SettledWritesNothing(e.status, e.instances[l].at);
    }
    MoveExcused(e, l, NextInstance(e, e.instances[l], ctxDone, c), StatusByInstance(e.status, e.instances[l].at), k);
  }

  lemma DoExcused(e: Entry, ctxDone: bool, a: Action, k: nat)
    requires Shaped(e) && Can(e, a) && !e.removing && Excused(e, k) && k == |e.instances| - 1
    requires a.Working? ==> a.t in e.jobs && !WritesStatus(e.jobs[a.t], a.c)
    requires |Do(e, ctxDone, a).instances| == k + 1
    ensures Excused(Do(e, ctxDone, a), k)
  {
    hide Work, Advance, CanReserve, CanRelease, CanWork, CanAdvance, AtRest, Shaped, Gone, WritesStatus;
    match a
    case Reserving(t, op) =>
    case Releasing(t) =>
    case Working(t, c) => WorkExcused(e, t, c, k);
    case Advancing(l, c) => AdvanceExcused(e, l, ctxDone, c, k);
  }

  lemma NotGoneYet()
    ensures !Gone(Pending) && !Gone(Install) && !Gone(Respawn)
  {
  }

  lemma SettledWritesNothing(status: Status, at: Point)
    requires Settled(at)
    ensures StatusByInstance(status, at) == status
  {
  }

  lemma LaunchesPending(e: Entry, t: nat)
    requires Shaped(e) && t in e.jobs && e.jobs[t].stage.Launch?
    ensures LastPending(e.instances)
  {
    hide PointsFit, OneActs, Latest, Tethered, Stops;
    assert Fits(e, e.jobs[t]);
  }

  lemma TurnExcused(o: Orch, m: Turn, i: nat, k: nat)
    requires Inv(o) && CanTake(o, m) && LeftAlone(o, i, k) && LeftAlone(Take(o, m), i, k) && !Rewrites(o, m, i)
    requires Excused(o.entries[i], k)
    ensures Excused(Take(o, m).entries[i], k)
  {
    hide Keeps, Do, Can, Take, CanTake, Inv, Shaped, Sound, Reserved, Gone;
    if m.Local? && m.i == i {
      LocalTurn(o, m);
      assert EntryInv(o, i) by { EntryAt(o, i); }
      KeepsSound(o.phase, FoundAt(o, i), o.entries[i]);
      DoExcused(o.entries[i], ContextDone(o.phase), m.a, k);
    } else {
      OtherTurnsKeep(o, m, i);
    }
  }

  /** A restart aborted by a shutdown, or by a stop that has let go of the entry since, ends Stopped, and so does a
      service that gave up under one, as long as nobody else claims the entry or writes its status. */
  lemma {:induction false} AbortEndsStopped(run: seq<Orch>, turns: seq<Turn>, m: nat, n: nat, i: nat, k: nat)
    requires Execution(run, turns) && m <= n < |run| && forall j :: m <= j <= n ==> LeftAlone(run[j], i, k)
    requires forall j :: m <= j < n ==> !Rewrites(run[j], turns[j], i)
    requires i < |run[m].entries| && Excused(run[m].entries[i], k)
    ensures i < |run[n].entries| && Excused(run[n].entries[i], k)
  {
    hide Inv, CanTake, Take, Excused, LeftAlone, Rewrites;
    if m < n {
      AbortEndsStopped(run, turns, m, n - 1, i, k);
      RunInv(run, turns, n - 1);
      assert LeftAlone(run[n - 1], i, k) && LeftAlone(run[n], i, k) && run[n] == Take(run[n - 1], turns[n - 1]);
      TurnExcused(run[n - 1], turns[n - 1], i, k);
    }
    assert LeftAlone(run[n], i, k);
    AloneIsThere(run[n], i, k);
  }

  lemma AloneIsThere(o: Orch, i: nat, k: nat)
    requires LeftAlone(o, i, k)
    ensures i < |o.entries|
  {
  }
}
