/** What becomes of an exit: the report and the status that the error of a service's Start leads to. */
module LifecycleVerdicts {
  import opened Lifecycle
  import opened LifecycleFlow
  import opened LifecycleSafety
  import opened LifecycleSound

  /** A retry was decided: the goroutine is on its way to its heir, or has launched it. */
  predicate Retries(at: Point) {
    at.Retry? || at.SeeIdle? || at.SetIdle? || at.DropOwner? || IsRestart(at) || at.Tally?
  }

  /** The goroutine is past everything that could tell anybody of its exit. */
  predicate Gone(at: Point) {
    at.Latch? || at.Release? || at.Untether? || at.Disown? || at.Closing? || at.Closed?
  }

  /** An instance that no check kept from it has judged its exit by its error: a crash is reported once, a quiet
      end not at all, unless it is the one that uses up the retries; and a self-healing one has given up or has
      an heir. */
  predicate Judged(factory: bool, x: Instance) {
    && (x.gaveUp ==> factory && (x.at.QuitCrashed? || Gone(x.at)))
    && (x.at.Revive? || x.at.Respawn? || x.at.Tally? ==> x.heir > 0)
    && (!x.yielded ==>
          && (x.at.SetStopped? || x.at.CountStop? ==> !x.exit.Crash?) && (x.at.SetCrashed? ==> x.exit.Crash?)
          && (x.at.SeeStable? || x.at.SeeCrash? || x.at.TellCrash? || x.at.QuitCrashed? || IsExit(x.at) ==>
               x.reports == 0)
          && (x.at.TellCrash? ==> x.exit.Crash?) && (x.at.QuitCrashed? ==> !x.exit.Crash? && x.gaveUp)
          && (x.at.SeeRetries? || x.at.QuitRemoving? || x.at.QuitTeardown? || Retries(x.at) ==>
                x.reports == B(x.exit.Crash?))
          && !x.at.QuitStopped? && !x.at.AbortRemoving? && !x.at.AbortStopped?
          && (Gone(x.at) ==> x.reports == B(x.exit.Crash? || x.gaveUp) && (factory ==> x.gaveUp || x.heir > 0)))
  }

  lemma ExitJudged(e: Entry, x: Instance, ctxDone: bool, c: Choice)
    requires IsExit(x.at) && Judged(e.policy.factory, x) && PointFits(e.policy.factory, x.at)
    ensures Judged(e.policy.factory, NextExit(e, x, ctxDone, c))
  {
    hide Judged, NextExit, PointFits;
    if x.at.Live? || x.at.Sample? || x.at.SeeShutdown? {
      ReturnJudged(e, x, ctxDone, c);
    } else {
      VerdictJudged(e, x, ctxDone, c);
    }
  }

  lemma ReturnJudged(e: Entry, x: Instance, ctxDone: bool, c: Choice)
    requires (x.at.Live? || x.at.Sample? || x.at.SeeShutdown?) && Judged(e.policy.factory, x)
    ensures Judged(e.policy.factory, NextExit(e, x, ctxDone, c))
  {
  }

  lemma VerdictJudged(e: Entry, x: Instance, ctxDone: bool, c: Choice)
    requires IsExit(x.at) && !x.at.Live? && !x.at.Sample? && !x.at.SeeShutdown?
    requires Judged(e.policy.factory, x) && PointFits(e.policy.factory, x.at)
    ensures Judged(e.policy.factory, NextExit(e, x, ctxDone, c))
  {
  }

  lemma DecisionJudged(e: Entry, x: Instance, ctxDone: bool)
    requires IsDecision(x.at) && Judged(e.policy.factory, x) && PointFits(e.policy.factory, x.at)
    ensures Judged(e.policy.factory, NextDecision(e, x, ctxDone))
  {
    hide Judged, NextDecision;
    if x.at.SeeStable? || x.at.SeeCrash? || x.at.TellCrash? || x.at.SeeRetries? {
      LookJudged(e, x, ctxDone);
    } else {
      QuitJudged(e, x, ctxDone);
    }
  }

  lemma LookJudged(e: Entry, x: Instance, ctxDone: bool)
    requires x.at.SeeStable? || x.at.SeeCrash? || x.at.TellCrash? || x.at.SeeRetries?
    requires Judged(e.policy.factory, x)
    ensures Judged(e.policy.factory, NextDecision(e, x, ctxDone))
  {
  }

  lemma QuitJudged(e: Entry, x: Instance, ctxDone: bool)
    requires IsDecision(x.at) && !x.at.SeeStable? && !x.at.SeeCrash? && !x.at.TellCrash? && !x.at.SeeRetries?
    requires Judged(e.policy.factory, x) && PointFits(e.policy.factory, x.at)
    ensures Judged(e.policy.factory, NextDecision(e, x, ctxDone))
  {
  }

  lemma RestartJudged(e: Entry, x: Instance, ctxDone: bool, c: Choice)
    requires IsRestart(x.at) && Judged(e.policy.factory, x) && (x.at.Install? ==> e.instances != [])
    ensures Judged(e.policy.factory, NextRestart(e, x, ctxDone, c))
  {
  }

  lemma TailJudged(e: Entry, x: Instance)
    requires !x.at.Pending? && !IsExit(x.at) && !IsDecision(x.at) && !IsRestart(x.at) && Judged(e.policy.factory, x)
    ensures Judged(e.policy.factory, NextTail(e, x))
  {
  }

  lemma NextJudged(e: Entry, x: Instance, ctxDone: bool, c: Choice)
    requires !x.at.Pending? && Judged(e.policy.factory, x) && PointFits(e.policy.factory, x.at) && e.instances != []
    ensures Judged(e.policy.factory, NextInstance(e, x, ctxDone, c))
  {
    hide Judged, PointFits, NextExit, NextDecision, NextRestart, NextTail;
    if IsExit(x.at) {
      ExitJudged(e, x, ctxDone, c);
    } else if IsDecision(x.at) {
      DecisionJudged(e, x, ctxDone);
    } else if IsRestart(x.at) {
      RestartJudged(e, x, ctxDone, c);
    } else {
      TailJudged(e, x);
    }
  }

  predicate AllJudged(factory: bool, instances: seq<Instance>) {
    forall k :: 0 <= k < |instances| ==> Judged(factory, instances[k])
  }

  /** An heir comes after the one it takes over from. */
  predicate HeirsLater(instances: seq<Instance>) {
    forall k :: 0 <= k < |instances| ==> instances[k].heir == 0 || k < instances[k].heir < |instances|
  }

  lemma NewIsJudged(factory: bool, owner: nat)
    ensures Judged(factory, NewInstance(owner)) && Judged(factory, NewInstance(owner).(at := Live))
  {
  }

  lemma LaunchJudged(factory: bool, x: Instance)
    requires Judged(factory, x) && x.at.Pending? && x.reports == 0
    ensures Judged(factory, x.(at := Live))
  {
  }

  predicate PendingUnreported(instances: seq<Instance>) {
    forall k :: 0 <= k < |instances| && instances[k].at.Pending? ==> instances[k].reports == 0 && !instances[k].yielded
  }

  /** Every exit so far has been judged by its error. */
  predicate Trials(e: Entry) {
    AllJudged(e.policy.factory, e.instances) && HeirsLater(e.instances) && PendingUnreported(e.instances)
  }

  lemma JobJudged(factory: bool, instances: seq<Instance>, j: Job)
    requires AllJudged(factory, instances) && HeirsLater(instances) && PendingUnreported(instances)
    requires j.stage.Launch? ==> PendingAt(instances, j.channel)
    ensures var after := InstancesByJob(instances, j);
      AllJudged(factory, after) && HeirsLater(after) && PendingUnreported(after)
  {
    hide Judged;
    if j.stage.Fit? { NewIsJudged(factory, j.owner); }
    if j.stage.Launch? { LaunchJudged(factory, instances[j.channel.value]); }
  }

  lemma MoveJudged(e: Entry, k: nat, y: Instance)
    requires Trials(e) && CanAdvance(e, k) && Judged(e.policy.factory, y) && !y.at.Pending?
    requires y.heir == if e.instances[k].at.Install? then |e.instances| else e.instances[k].heir
    requires e.instances[k].at.Respawn? ==> y.heir < |e.instances| && y.heir != k && e.instances[y.heir].at.Pending?
    ensures var after := InstancesByInstance(e.instances, k, y, e.instances[k].at);
      AllJudged(e.policy.factory, after) && HeirsLater(after) && PendingUnreported(after)
  {
    hide Judged;
    if e.instances[k].at.Install? { NewIsJudged(e.policy.factory, y.heirOwner); }
    if e.instances[k].at.Respawn? { LaunchJudged(e.policy.factory, e.instances[y.heir]); }
  }

  /** Every step, also of an entry that was replaced too late, judges an exit by its error. */
  lemma StepJudged(e: Entry, ctxDone: bool, a: Action)
    requires Sound(e) && Trials(e) && Can(e, a)
    ensures Trials(Do(e, ctxDone, a))
  {
    hide NextInstance, NextJob, Judged, CanReserve, CanRelease, StatusByJob, StatusByInstance, Staged, Tallied,
         Covered, Moored, PointFits, InstancesByJob, InstancesByInstance;
    match a
    case Reserving(t, op) =>
    case Releasing(t) =>
    case Working(t, c) => JobJudged(e.policy.factory, e.instances, e.jobs[t]);
    case Advancing(k, c) =>
      var x, y := e.instances[k], NextInstance(e, e.instances[k], ctxDone, c);
      InstanceFollows(e, x, ctxDone, c);
      NextJudged(e, x, ctxDone, c);
      MoveLinks(e.jobs, e, k, y);
      MoveJudged(e, k, y);
  }
}
