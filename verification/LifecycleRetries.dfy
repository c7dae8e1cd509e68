/** Crash loops end and report each crash once; a satisfied gate stays satisfied. */
module LifecycleRetries {
  import opened Services
  import opened Registry
  import opened Lifecycle
  import opened LifecycleFlow
  import opened LifecycleSafety
  import opened LifecycleSound

  /** A retry was counted and its restart has not happened yet. */
  predicate RestartDue(at: Point) {
    at.SeeIdle? || at.SetIdle? || at.DropOwner? || at.SampleBackoff? || at.Backoff? || at.Rearm? || at.NewOwner? ||
        at.Install?
  }

  predicate RestartOpen(instances: seq<Instance>) {
    || (|instances| > 0 && RestartDue(instances[|instances| - 1].at))
    || (|instances| > 1 && HandsOver(instances[|instances| - 2].at))
  }

  predicate Limited(policy: Policy) {
    policy.factory && policy.maxRetries > 0 && !policy.resetAfter
  }

  /** The retries are a budget: every restart has used one of them up. */
  predicate WithinBudget(e: Entry) {
    && e.retryCount <= e.policy.maxRetries
    && (|e.instances| > 0 && e.instances[|e.instances| - 1].at.Retry? ==> e.retryCount < e.policy.maxRetries)
    && e.relaunched + B(RestartOpen(e.instances)) <= e.retryCount
  }

  predicate Budgeted(e: Entry) {
    Limited(e.policy) && !e.removed ==> WithinBudget(e)
  }

  /** The limit is checked right before a retry is counted, and only a counted retry restarts. */
  predicate RetryFollows(e: Entry, x: Instance, y: Instance) {
    && (y.at.Retry? ==> x.at.SeeRetries? && (e.policy.maxRetries > 0 ==> e.retryCount < e.policy.maxRetries))
    && (RestartDue(y.at) ==> RestartDue(x.at) || x.at.Retry?)
  }

  lemma NextOfRetry(e: Entry, x: Instance, ctxDone: bool, c: Choice)
    requires !x.at.Pending? && !x.at.Closed?
    ensures RetryFollows(e, x, NextInstance(e, x, ctxDone, c))
  {
    hide NextExit, NextDecision, NextRestart, NextTail, RetryFollows;
    if IsExit(x.at) {
      ExitRetries(e, x, ctxDone, c);
    } else if IsDecision(x.at) {
      DecisionRetries(e, x, ctxDone);
    } else if IsRestart(x.at) {
      RestartRetries(e, x, ctxDone, c);
    } else {
      TailRetries(e, x);
    }
  }

  lemma ExitRetries(e: Entry, x: Instance, ctxDone: bool, c: Choice)
    requires IsExit(x.at)
    ensures RetryFollows(e, x, NextExit(e, x, ctxDone, c))
  {
  }

  lemma DecisionRetries(e: Entry, x: Instance, ctxDone: bool)
    requires IsDecision(x.at)
    ensures RetryFollows(e, x, NextDecision(e, x, ctxDone))
  {
  }

  lemma RestartRetries(e: Entry, x: Instance, ctxDone: bool, c: Choice)
    requires IsRestart(x.at)
    ensures RetryFollows(e, x, NextRestart(e, x, ctxDone, c))
  {
  }

  lemma TailRetries(e: Entry, x: Instance)
    requires !IsExit(x.at) && !IsDecision(x.at) && !IsRestart(x.at)
    ensures RetryFollows(e, x, NextTail(e, x))
  {
  }

  lemma AdvanceRestartOpen(e: Entry, k: nat, y: Instance)
    requires CanAdvance(e, k) && PointsFit(e.policy, e.instances) && OneActs(e.policy.factory, e.instances)
    requires Follows(e, e.instances[k], y) && RetryFollows(e, e.instances[k], y)
    ensures OpensOn(e, k, y)
  {
    hide Follows, RetryFollows, OneActs, PointsFit, OpensOn, InstancesByInstance;
    if e.instances[k].at.Install? {
      InstallOpens(e, k, y);
    } else if e.instances[k].at.Respawn? {
      RespawnOpens(e, k, y);
    } else {
      MoveOpens(e, k, y);
    }
  }

  /** How a step of instance k changes the restart under way. */
  predicate OpensOn(e: Entry, k: nat, y: Instance)
    requires k < |e.instances|
  {
    var x, after := e.instances[k], InstancesByInstance(e.instances, k, y, e.instances[k].at);
    && B(RestartOpen(after)) <= B(RestartOpen(e.instances)) + B(x.at.Retry?) - B(x.at.Respawn?)
    && (x.at.Retry? ==> k == |e.instances| - 1 && !RestartOpen(e.instances))
    && (|after| > 0 && after[|after| - 1].at.Retry? ==> y.at.Retry? || e.instances[|e.instances| - 1].at.Retry?)
    && (x.at.Retry? ==> !after[|after| - 1].at.Retry?)
  }

  lemma InstallOpens(e: Entry, k: nat, y: Instance)
    requires CanAdvance(e, k) && PointsFit(e.policy, e.instances) && OneActs(e.policy.factory, e.instances)
    requires Follows(e, e.instances[k], y) && RetryFollows(e, e.instances[k], y) && e.instances[k].at.Install?
    ensures OpensOn(e, k, y)
  {
  }

  lemma RespawnOpens(e: Entry, k: nat, y: Instance)
    requires CanAdvance(e, k) && PointsFit(e.policy, e.instances) && OneActs(e.policy.factory, e.instances)
    requires Follows(e, e.instances[k], y) && RetryFollows(e, e.instances[k], y) && e.instances[k].at.Respawn?
    ensures OpensOn(e, k, y)
  {
  }

  lemma MoveOpens(e: Entry, k: nat, y: Instance)
    requires CanAdvance(e, k) && PointsFit(e.policy, e.instances) && OneActs(e.policy.factory, e.instances)
    requires Follows(e, e.instances[k], y) && RetryFollows(e, e.instances[k], y)
    requires !e.instances[k].at.Install? && !e.instances[k].at.Respawn?
    ensures OpensOn(e, k, y)
  {
  }

  lemma AdvanceBudgeted(e: Entry, k: nat, ctxDone: bool, c: Choice)
    requires Shaped(e) && Budgeted(e) && CanAdvance(e, k)
    ensures Budgeted(Advance(e, k, ctxDone, c))
  {
    hide NextInstance, OneActs, Fits, PointsFit, RestartOpen, RestartDue, InstancesByInstance;
    if Limited(e.policy) {
      var x, y := e.instances[k], NextInstance(e, e.instances[k], ctxDone, c);
      assert PointFits(e.policy.factory, x.at) by { PointOf(e, k); }
      InstanceFollows(e, x, ctxDone, c);
      NextOfRetry(e, x, ctxDone, c);
      AdvanceRestartOpen(e, k, y);
    }
  }

  lemma WorkRestartOpen(e: Entry, j: Job)
    requires OneActs(e.policy.factory, e.instances)
    requires j.stage.Fit? || j.stage.Launch? ==> StartFits(e.policy, e.removed, e.instances, j)
    ensures var after := InstancesByJob(e.instances, j);
      && B(RestartOpen(after)) <= B(RestartOpen(e.instances))
      && (|after| > 0 && after[|after| - 1].at.Retry? ==> |e.instances| > 0 && e.instances[|e.instances| - 1].at.Retry?)
  {
  }

  lemma ClosedIsNotDue(e: Entry)
    requires OneActs(e.policy.factory, e.instances) && NoneOrClosed(e.instances)
    ensures !RestartOpen(e.instances)
  {
  }

  lemma WorkBudgeted(e: Entry, t: nat, c: Choice)
    requires Shaped(e) && Budgeted(e) && CanWork(e, t, c)
    ensures Budgeted(Work(e, t, c))
  {
    hide NextJob, OneActs, PointsFit, RestartOpen, InstancesByJob, StartFits, Tethered, Cut;
    assert Fits(e, e.jobs[t]);
    WorkRestartOpen(e, e.jobs[t]);
    if NoneOrClosed(e.instances) { ClosedIsNotDue(e); }
  }

  /** Every step keeps to the budget. */
  lemma StepBudgeted(e: Entry, ctxDone: bool, a: Action)
    requires Shaped(e) && Budgeted(e) && Can(e, a)
    ensures Budgeted(Do(e, ctxDone, a))
  {
    hide Shaped, Work, Advance, CanReserve, CanRelease, CanWork, CanAdvance, RestartOpen;
    match a
    case Reserving(t, op) =>
    case Working(t, c) => hide Budgeted; WorkBudgeted(e, t, c);
    case Releasing(t) =>
    case Advancing(k, c) => hide Budgeted; AdvanceBudgeted(e, k, ctxDone, c);
  }

  predicate Unreported(at: Point) {
    at.Pending? || at.Live? || at.Sample? || at.SeeShutdown? || at.SeeRemoving? || at.SeeTeardown? || at.SetStopped? ||
        at.CountStop? ||
    at.SetCrashed? ||    at.SeeStable? || at.SeeCrash? || at.TellCrash? || at.QuitCrashed?
  }

  /** An instance reports at most one crash; one that gives up at its retry limit reports exactly one,
      unless a check of it found a teardown or a shutdown. */
  predicate ReportsOnce(x: Instance) {
    && x.reports <= 1 && (Unreported(x.at) ==> x.reports == 0)
    && (x.at.SeeRetries? || x.at.QuitRemoving? || x.at.QuitTeardown? ==>
         if x.exit.Crash? then x.reports == 1 || x.yielded else x.reports == 0)
    && (x.at.QuitStopped? || x.at.AbortRemoving? || x.at.AbortStopped? ==> x.yielded)
    && (x.at.QuitCrashed? ==> !x.exit.Crash? && x.gaveUp) && (x.at.TellCrash? ==> x.exit.Crash?)
    && (x.gaveUp ==>
          x.at.QuitCrashed? || ((x.at.Latch? || x.at.Release? || Settled(x.at)) && (x.reports == 1 || x.yielded)))
    && (x.at.SetIdle? ==> !x.exit.Crash?)
  }

  lemma ExitReports(e: Entry, x: Instance, ctxDone: bool, c: Choice)
    requires IsExit(x.at) && ReportsOnce(x)
    ensures ReportsOnce(NextExit(e, x, ctxDone, c))
  {
  }

  lemma DecisionReports(e: Entry, x: Instance, ctxDone: bool)
    requires IsDecision(x.at) && ReportsOnce(x)
    ensures ReportsOnce(NextDecision(e, x, ctxDone))
  {
  }

  lemma RestartReports(e: Entry, x: Instance, ctxDone: bool, c: Choice)
    requires IsRestart(x.at) && ReportsOnce(x)
    ensures ReportsOnce(NextRestart(e, x, ctxDone, c))
  {
  }

  lemma TailReports(e: Entry, x: Instance)
    requires !x.at.Pending? && !IsExit(x.at) && !IsDecision(x.at) && !IsRestart(x.at) && ReportsOnce(x)
    ensures ReportsOnce(NextTail(e, x))
  {
  }

  lemma NextReports(e: Entry, x: Instance, ctxDone: bool, c: Choice)
    requires !x.at.Pending? && ReportsOnce(x)
    ensures ReportsOnce(NextInstance(e, x, ctxDone, c))
  {
    hide ReportsOnce, NextExit, NextDecision, NextRestart, NextTail;
    if IsExit(x.at) {
      ExitReports(e, x, ctxDone, c);
    } else if IsDecision(x.at) {
      DecisionReports(e, x, ctxDone);
    } else if IsRestart(x.at) {
      RestartReports(e, x, ctxDone, c);
    } else {
      TailReports(e, x);
    }
  }

  predicate AllReportOnce(e: Entry) {
    forall k :: 0 <= k < |e.instances| ==> ReportsOnce(e.instances[k])
  }

  lemma LaunchReports(x: Instance)
    requires ReportsOnce(x) && x.at.Pending?
    ensures ReportsOnce(x.(at := Live))
  {
  }

  /** Every step, also of an entry that was replaced too late, keeps to one report. */
  lemma StepReports(e: Entry, ctxDone: bool, a: Action)
    requires Sound(e) && AllReportOnce(e) && Can(e, a)
    ensures AllReportOnce(Do(e, ctxDone, a))
  {
    hide NextInstance, NextJob, ReportsOnce, CanReserve, CanRelease, StatusByJob, StatusByInstance, Staged, Tallied,
         Covered, Moored, PointFits, InstancesByJob, InstancesByInstance;
    match a
    case Reserving(t, op) =>
    case Releasing(t) =>
    case Working(t, c) => JobReports(e, e.jobs[t]);
    case Advancing(k, c) =>
      var x, y := e.instances[k], NextInstance(e, e.instances[k], ctxDone, c);
      InstanceFollows(e, x, ctxDone, c);
      NextReports(e, x, ctxDone, c);
      MoveLinks(e.jobs, e, k, y);
      InstanceReports(e, k, y);
  }

  lemma JobReports(e: Entry, j: Job)
    requires AllReportOnce(e) && (j.stage.Launch? ==> PendingAt(e.instances, j.channel))
    ensures var after := InstancesByJob(e.instances, j); forall k :: 0 <= k < |after| ==> ReportsOnce(after[k])
  {
    if j.stage.Launch? { LaunchReports(e.instances[j.channel.value]); }
  }

  lemma InstanceReports(e: Entry, k: nat, y: Instance)
    requires AllReportOnce(e) && CanAdvance(e, k) && ReportsOnce(y)
    requires e.instances[k].at.Respawn? ==> y.heir < |e.instances| && y.heir != k && e.instances[y.heir].at.Pending?
    ensures var after := InstancesByInstance(e.instances, k, y, e.instances[k].at);
      forall i :: 0 <= i < |after| ==> ReportsOnce(after[i])
  {
    if e.instances[k].at.Respawn? { LaunchReports(e.instances[y.heir]); }
  }

  /** From its last look at the retries on, an instance that does not restart only leaves. */
  predicate Leaving(at: Point) {
    at.SeeRetries? || at.QuitRemoving? || at.QuitTeardown? || at.Latch? || at.Release? || Settled(at)
  }

  /** It is about to wait for its restart, or does. */
  predicate Waiting(at: Point) {
    at.DropOwner? || at.SampleBackoff? || at.Backoff? || at.Rearm? || at.NewOwner? || at.Install?
  }

  predicate AfterReport(at: Point) {
    at.Retry? || at.SeeIdle? || Waiting(at)
  }

  /** What the instance has made of its exit, if it has been left to: a crash it reported, or a quiet end. */
  function Verdict(x: Instance): Option<Status> {
    if x.yielded then None
    else if x.reports == 1 && (Leaving(x.at) || (x.exit.Crash? && AfterReport(x.at))) then Some(Crashed)
    else if x.reports == 0 && (x.at.CountStop? || x.at.Latch? || x.at.Release? || Settled(x.at)) then Some(Stopped)
    else if x.reports == 0 && !x.exit.Crash? && Waiting(x.at) then Some(Stopped)
    else None
  }

  function LastVerdict(instances: seq<Instance>): Option<Status> {
    if |instances| > 0 then Verdict(instances[|instances| - 1]) else None
  }

  /** The entry of a newest instance that leaves shows its verdict, until an operation writes the status. */
  predicate ShowsExit(e: Entry) {
    LastVerdict(e.instances).Some? && !e.overruled && !e.removed ==> e.status == LastVerdict(e.instances).value
  }

  /** Who has judged keeps the status, and who judges sets it. */
  predicate TellsOn(status: Status, x: Instance, y: Instance) {
    Verdict(y).Some? ==>
      || StatusByInstance(status, x.at) == Verdict(y).value
      || (Verdict(x) == Verdict(y) && StatusByInstance(status, x.at) == status)
  }

  lemma ExitTells(e: Entry, x: Instance, ctxDone: bool, c: Choice)
    requires IsExit(x.at) && ReportsOnce(x)
    ensures TellsOn(e.status, x, NextExit(e, x, ctxDone, c))
  {
  }

  lemma DecisionTells(e: Entry, x: Instance, ctxDone: bool)
    requires IsDecision(x.at) && ReportsOnce(x)
    ensures TellsOn(e.status, x, NextDecision(e, x, ctxDone))
  {
  }

  lemma RestartTells(e: Entry, x: Instance, ctxDone: bool, c: Choice)
    requires IsRestart(x.at) && ReportsOnce(x) && !HandsOver(x.at)
    ensures TellsOn(e.status, x, NextRestart(e, x, ctxDone, c))
  {
  }

  lemma TailTells(e: Entry, x: Instance)
    requires !IsExit(x.at) && !IsDecision(x.at) && !IsRestart(x.at) && !x.at.Pending?
    ensures TellsOn(e.status, x, NextTail(e, x))
  {
  }

  lemma NextTells(e: Entry, x: Instance, ctxDone: bool, c: Choice)
    requires !x.at.Pending? && !HandsOver(x.at) && ReportsOnce(x)
    ensures TellsOn(e.status, x, NextInstance(e, x, ctxDone, c))
  {
    hide ReportsOnce, NextExit, NextDecision, NextRestart, NextTail, TellsOn;
    if IsExit(x.at) {
      ExitTells(e, x, ctxDone, c);
    } else if IsDecision(x.at) {
      DecisionTells(e, x, ctxDone);
    } else if IsRestart(x.at) {
      RestartTells(e, x, ctxDone, c);
    } else {
      TailTells(e, x);
    }
  }

  /** Only the newest instance writes the status, or one whose heir has not been up yet. */
  lemma OthersTellNothing(e: Entry, k: nat, y: Instance)
    requires CanAdvance(e, k) && k < |e.instances| - 1 && OneActs(e.policy.factory, e.instances)
    requires Follows(e, e.instances[k], y)
    ensures var after := LastVerdict(InstancesByInstance(e.instances, k, y, e.instances[k].at));
      after.Some? ==> LastVerdict(e.instances) == after && !e.instances[k].at.Respawn? &&
                      StatusByInstance(e.status, e.instances[k].at) == e.status
  {
  }

  lemma LastTells(e: Entry, k: nat, y: Instance)
    requires k == |e.instances| - 1 && !e.instances[k].at.Respawn?
    ensures var after := LastVerdict(InstancesByInstance(e.instances, k, y, e.instances[k].at));
      after.Some? ==> after == Verdict(y) && !e.instances[k].at.Install?
  {
  }

  lemma AdvanceTells(e: Entry, k: nat, ctxDone: bool, c: Choice)
    requires Shaped(e) && AllReportOnce(e) && ShowsExit(e) && CanAdvance(e, k)
    ensures ShowsExit(Advance(e, k, ctxDone, c))
  {
    hide NextInstance, OneActs, PointFits, Fits, Latest, Tethered, InstancesByInstance, ReportsOnce, StatusByInstance,
         Verdict, Follows;
    var x, y := e.instances[k], NextInstance(e, e.instances[k], ctxDone, c);
    PointOf(e, k);
    InstanceFollows(e, x, ctxDone, c);
    if k < |e.instances| - 1 {
      OthersTellNothing(e, k, y);
    } else {
      NextTells(e, x, ctxDone, c);
      LastTells(e, k, y);
    }
  }

  lemma WritesOrKeeps(status: Status, j: Job, c: Choice)
    ensures WritesStatus(j, c) || StatusByJob(status, j, c) == status
  {
  }

  lemma WorkTells(e: Entry, t: nat, c: Choice)
    requires Shaped(e) && ShowsExit(e) && CanWork(e, t, c)
    ensures ShowsExit(Work(e, t, c))
  {
    hide NextJob, OneActs, PointsFit, StopFlags, StopSees, Tethered, Latest, StatusByJob, WritesStatus, Verdict;
    assert Fits(e, e.jobs[t]);
    WritesOrKeeps(e.status, e.jobs[t], c);
    NewIsUntold(e, e.jobs[t]);
  }

  lemma NewIsUntold(e: Entry, j: Job)
    requires j.stage.Launch? ==> StartFits(e.policy, e.removed, e.instances, j)
    ensures var after := LastVerdict(InstancesByJob(e.instances, j));
      after.Some? ==> after == LastVerdict(e.instances) && !j.stage.Launch?
  {
  }

  /** Every step leaves the verdict of the newest instance on display until an operation writes the status. */
  lemma StepTells(e: Entry, ctxDone: bool, a: Action)
    requires Shaped(e) && AllReportOnce(e) && ShowsExit(e) && Can(e, a)
    ensures ShowsExit(Do(e, ctxDone, a))
  {
    hide Shaped, Work, Advance, CanReserve, CanRelease, CanWork, CanAdvance, LastVerdict, AllReportOnce;
    match a
    case Reserving(t, op) =>
    case Working(t, c) => hide ShowsExit; WorkTells(e, t, c);
    case Releasing(t) =>
    case Advancing(k, c) => hide ShowsExit; AdvanceTells(e, k, ctxDone, c);
  }
}
