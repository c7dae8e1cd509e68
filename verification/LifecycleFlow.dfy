/** The control flow of instance goroutines, and the shape it keeps their sequence in. */
module LifecycleFlow {
  import opened Registry
  import opened Lifecycle

  /** The goroutine will neither write the status nor touch the wait group again. */
  predicate Settled(at: Point) {
    at.Tally? || at.Untether? || at.Disown? || at.Closing? || at.Closed?
  }

  predicate HandsOver(at: Point) {
    at.Revive? || at.Respawn?
  }

  /** The goroutine carries the wait-group share of its era. An heir gets it with its channel. */
  predicate HoldsShare(at: Point) {
    !Settled(at) && !HandsOver(at)
  }

  /** Points that only one kind of service reaches. */
  predicate PointFits(factory: bool, at: Point) {
    && (IsDecision(at) || IsRestart(at) || at.Tally? ==> factory)
    && (at.Sample? || at.SeeRemoving? || at.SeeTeardown? || at.SetStopped? ==> !factory)
    && (at.CountStop? || at.SetCrashed? || at.Untether? ==> !factory)
  }

  /** How an instance may change in one step of its own. */
  predicate Follows(e: Entry, x: Instance, y: Instance) {
    && !y.at.Pending? && PointFits(e.policy.factory, y.at) && (Settled(x.at) || x.at.Release? ==> Settled(y.at))
    && (y.at.Revive? <==> x.at.Install?) && (y.at.Respawn? <==> x.at.Revive?) && (y.at.Tally? <==> x.at.Respawn?)
    && (y.at.Release? <==> x.at.Latch? && !e.wgDone)
    && (HoldsShare(x.at) && !HoldsShare(y.at) ==> x.at.Release? || x.at.Install? || (x.at.Latch? && e.wgDone))
    && y.heir == if x.at.Install? then |e.instances| else x.heir
  }

  lemma ExitFollows(e: Entry, x: Instance, ctxDone: bool, c: Choice)
    requires IsExit(x.at) && PointFits(e.policy.factory, x.at)
    ensures Follows(e, x, NextExit(e, x, ctxDone, c))
  {
    hide Follows, PointFits, NextExit;
    if x.at.Live? || x.at.Sample? || x.at.SeeShutdown? {
      ReturnFollows(e, x, ctxDone, c);
    } else {
      VerdictFollows(e, x, ctxDone, c);
    }
  }

  lemma ReturnFollows(e: Entry, x: Instance, ctxDone: bool, c: Choice)
    requires (x.at.Live? || x.at.Sample? || x.at.SeeShutdown?) && PointFits(e.policy.factory, x.at)
    ensures Follows(e, x, NextExit(e, x, ctxDone, c))
  {
  }

  lemma VerdictFollows(e: Entry, x: Instance, ctxDone: bool, c: Choice)
    requires IsExit(x.at) && !x.at.Live? && !x.at.Sample? && !x.at.SeeShutdown? && PointFits(e.policy.factory, x.at)
    ensures Follows(e, x, NextExit(e, x, ctxDone, c))
  {
  }

  lemma DecisionFollows(e: Entry, x: Instance, ctxDone: bool)
    requires IsDecision(x.at) && PointFits(e.policy.factory, x.at)
    ensures Follows(e, x, NextDecision(e, x, ctxDone))
  {
  }

  lemma RestartFollows(e: Entry, x: Instance, ctxDone: bool, c: Choice)
    requires IsRestart(x.at) && PointFits(e.policy.factory, x.at)
    ensures Follows(e, x, NextRestart(e, x, ctxDone, c))
  {
  }

  lemma TailFollows(e: Entry, x: Instance)
    requires !x.at.Pending? && !x.at.Closed? && !IsExit(x.at) && !IsDecision(x.at) && !IsRestart(x.at)
    requires PointFits(e.policy.factory, x.at)
    ensures Follows(e, x, NextTail(e, x))
  {
  }

  lemma InstanceFollows(e: Entry, x: Instance, ctxDone: bool, c: Choice)
    requires !x.at.Pending? && !x.at.Closed? && PointFits(e.policy.factory, x.at)
    ensures Follows(e, x, NextInstance(e, x, ctxDone, c))
  {
    hide Follows, PointFits, NextExit, NextDecision, NextRestart, NextTail;
    if IsExit(x.at) {
      ExitFollows(e, x, ctxDone, c);
    } else if IsDecision(x.at) {
      DecisionFollows(e, x, ctxDone);
    } else if IsRestart(x.at) {
      RestartFollows(e, x, ctxDone, c);
    } else {
      TailFollows(e, x);
    }
  }

  predicate NoneOrClosed(instances: seq<Instance>) {
    |instances| == 0 || instances[|instances| - 1].at == Closed
  }

  predicate LastPending(instances: seq<Instance>) {
    |instances| > 0 && instances[|instances| - 1].at == Pending
  }

  /** Every instance but the last is done with the entry, or is just about to launch its heir. */
  ghost predicate OneActs(factory: bool, instances: seq<Instance>) {
    forall k :: 0 <= k < |instances| - 1 ==>
      if HandsOver(instances[k].at)
      then factory && k == |instances| - 2 && instances[k].heir == k + 1 && LastPending(instances)
      else Settled(instances[k].at) && (!factory ==> instances[k].at == Closed)
  }

  /** The last instance is not past the launch of an heir, and each point belongs to its kind of exit. */
  ghost predicate PointsFit(policy: Policy, instances: seq<Instance>) {
    && (policy.factory ==> policy.kind.Persistent?) && (|instances| > 0 ==> policy.kind.Persistent?)
    && (|instances| > 0 ==> !HandsOver(instances[|instances| - 1].at) && !instances[|instances| - 1].at.Tally?)
    && forall k :: 0 <= k < |instances| ==> PointFits(policy.factory, instances[k].at)
  }

  predicate Latest(channel: Option<nat>, instances: seq<Instance>) {
    channel == if |instances| == 0 then None else Some(|instances| - 1)
  }

  lemma MoveShapes(e: Entry, k: nat, y: Instance)
    requires CanAdvance(e, k) && PointsFit(e.policy, e.instances) && OneActs(e.policy.factory, e.instances)
    requires Follows(e, e.instances[k], y) && !e.instances[k].at.Install? && !e.instances[k].at.Respawn?
    ensures var after := e.instances[k := y]; PointsFit(e.policy, after) && OneActs(e.policy.factory, after)
  {
    hide OneActs, PointFits;
    MoveFits(e, k, y);
    MoveActs(e, k, y);
  }

  lemma MoveFits(e: Entry, k: nat, y: Instance)
    requires CanAdvance(e, k) && PointsFit(e.policy, e.instances) && Follows(e, e.instances[k], y)
    requires !e.instances[k].at.Install? && !e.instances[k].at.Respawn?
    ensures PointsFit(e.policy, e.instances[k := y])
  {
  }

  lemma MoveActs(e: Entry, k: nat, y: Instance)
    requires CanAdvance(e, k) && OneActs(e.policy.factory, e.instances) && Follows(e, e.instances[k], y)
    requires !e.instances[k].at.Install? && !e.instances[k].at.Respawn?
    requires k == |e.instances| - 1 ==> !HandsOver(e.instances[k].at)
    ensures OneActs(e.policy.factory, e.instances[k := y])
  {
    hide PointFits;
  }

  lemma InstallShapes(e: Entry, k: nat, y: Instance)
    requires CanAdvance(e, k) && PointsFit(e.policy, e.instances) && OneActs(e.policy.factory, e.instances)
    requires Follows(e, e.instances[k], y) && e.instances[k].at.Install?
    ensures k == |e.instances| - 1
    ensures var after := e.instances[k := y] + [NewInstance(y.heirOwner)];
      PointsFit(e.policy, after) && OneActs(e.policy.factory, after)
  {
  }

  lemma RespawnShapes(e: Entry, k: nat, y: Instance)
    requires CanAdvance(e, k) && PointsFit(e.policy, e.instances) && OneActs(e.policy.factory, e.instances)
    requires Follows(e, e.instances[k], y) && e.instances[k].at.Respawn?
    ensures k == |e.instances| - 2 && y.heir == k + 1 && LastPending(e.instances)
    ensures var after := Spawn(e.instances[k := y], Some(y.heir));
      PointsFit(e.policy, after) && OneActs(e.policy.factory, after)
  {
  }

  lemma AdvanceShapes(e: Entry, k: nat, ctxDone: bool, c: Choice)
    requires CanAdvance(e, k) && PointsFit(e.policy, e.instances) && OneActs(e.policy.factory, e.instances)
    ensures var f := Advance(e, k, ctxDone, c);
            PointsFit(f.policy, f.instances) && OneActs(f.policy.factory, f.instances)
  {
    hide NextInstance, Follows, OneActs, PointsFit;
    PointOf(e, k);
    InstanceFollows(e, e.instances[k], ctxDone, c);
    var y := NextInstance(e, e.instances[k], ctxDone, c);
    if e.instances[k].at.Install? {
      InstallShapes(e, k, y);
    } else if e.instances[k].at.Respawn? {
      RespawnShapes(e, k, y);
    } else {
      MoveShapes(e, k, y);
    }
  }

  lemma PointOf(e: Entry, k: nat)
    requires PointsFit(e.policy, e.instances) && k < |e.instances|
    ensures PointFits(e.policy.factory, e.instances[k].at)
  {
  }

  /** How an instance's step treats the check. */
  predicate ChecksOn(e: Entry, x: Instance, y: Instance, ctxDone: bool) {
    && (y.at.Backoff? ==> x.at.SampleBackoff? && y.held == e.teardown)
    && (y.at.Rearm? ==> x.at.Backoff? && !ctxDone && (x.held.Some? ==> x.held.value !in e.cancelled))
    && (y.at.NewOwner? ==> x.at.Rearm?) && (y.at.Install? ==> x.at.NewOwner?)
  }

  lemma NextChecks(e: Entry, x: Instance, ctxDone: bool, c: Choice)
    requires !x.at.Pending? && !x.at.Closed?
    ensures ChecksOn(e, x, NextInstance(e, x, ctxDone, c), ctxDone)
  {
    hide NextExit, NextDecision, NextRestart, NextTail, ChecksOn;
    if IsExit(x.at) {
      ExitChecks(e, x, ctxDone, c);
    } else if IsDecision(x.at) {
      DecisionChecks(e, x, ctxDone);
    } else if IsRestart(x.at) {
      RestartChecks(e, x, ctxDone, c);
    } else {
      TailChecks(e, x, ctxDone);
    }
  }

  lemma ExitChecks(e: Entry, x: Instance, ctxDone: bool, c: Choice)
    requires IsExit(x.at)
    ensures ChecksOn(e, x, NextExit(e, x, ctxDone, c), ctxDone)
  {
  }

  lemma DecisionChecks(e: Entry, x: Instance, ctxDone: bool)
    requires IsDecision(x.at)
    ensures ChecksOn(e, x, NextDecision(e, x, ctxDone), ctxDone)
  {
  }

  lemma RestartChecks(e: Entry, x: Instance, ctxDone: bool, c: Choice)
    requires IsRestart(x.at)
    ensures ChecksOn(e, x, NextRestart(e, x, ctxDone, c), ctxDone)
  {
  }

  lemma TailChecks(e: Entry, x: Instance, ctxDone: bool)
    requires !IsExit(x.at) && !IsDecision(x.at) && !IsRestart(x.at)
    ensures ChecksOn(e, x, NextTail(e, x), ctxDone)
  {
  }

  /** What the last instance looks like to the check after a step of instance k. */
  lemma LastChecks(e: Entry, k: nat, y: Instance, ctxDone: bool)
    requires CanAdvance(e, k) && PointsFit(e.policy, e.instances) && OneActs(e.policy.factory, e.instances)
    requires Follows(e, e.instances[k], y) && ChecksOn(e, e.instances[k], y, ctxDone)
    ensures var x, after := e.instances[k], InstancesByInstance(e.instances, k, y, e.instances[k].at);
      var last := after[|after| - 1];
      && |after| == |e.instances| + B(x.at.Install?) && (x.at.Install? ==> Through(e.instances) && !Through(after))
      && (last.at.Backoff? ==>
            last.held == e.teardown || (k < |e.instances| - 1 && last == e.instances[|e.instances| - 1]))
      && (Through(after) ==>
            || Through(e.instances)
            || (k == |e.instances| - 1 && x.at.Backoff? && (x.held.Some? ==> x.held.value !in e.cancelled)))
  {
  }
}
