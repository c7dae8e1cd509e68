/** The start, exit, restart and stop of one registered entry, as a transition system. Every critical
    section, atomic load or store of the source is one step; whatever user code, a timer or the
    scheduler decides arrives as the Choice of the step. Jobs and instances interleave freely. */
module Lifecycle {
  import opened Services
  import opened Registry

  datatype Kind = Persistent | RunOnce | Scheduled

  /** The registered options that the protocol reads. Only a persistent service has a factory. */
  datatype Policy = Policy(kind: Kind, factory: bool, maxRetries: nat, resetAfter: bool)

  datatype Exit = Clean | Canceled | Crash

  /** What the environment decides about one step. */
  datatype Choice = Choice(ok: bool, err: bool, exit: Exit)

  /** Where the goroutine of an instance stands: spawnInstance around handleServiceDone. */
  datatype Point =
    | Pending | Live
    // Exit of an instance without a factory.
    | Sample | SeeShutdown | SeeRemoving | SeeTeardown | SetStopped | CountStop | SetCrashed
    // Exit of a self-healing instance: decide, then give up, abort or restart.
    | SeeStable | SeeCrash | TellCrash | SeeRetries
    | QuitRemoving | QuitTeardown | QuitStopped | QuitCrashed
    | Retry | SeeIdle | SetIdle | DropOwner | SampleBackoff | Backoff | AbortRemoving | AbortStopped
    | Rearm | NewOwner | Install | Revive | Respawn
    // The wait group, then what the deferred calls do.
    | Latch | Release | Tally | Untether | Disown | Closing | Closed

  /** held is the teardown context the goroutine remembers; heir and heirOwner describe the instance
      it restarts into; reports counts the crashes it reported; gaveUp says it ended at the retry
      limit; yielded says one of its checks found a teardown or a shutdown. */
  datatype Instance = Instance(
    at: Point, exit: Exit, held: Option<nat>, owner: nat, heir: nat, heirOwner: nat,
    reports: nat, gaveUp: bool, yielded: bool)

  /** StopService, Unregister and UnregisterGroup are TearDown; target is false where an entry that
      is Stopping already is skipped. Shutdown is the whole-orchestrator Stop. */
  datatype Op = StartOp | ReplaceOp | TearDownOp(remove: bool, target: bool) | GroupStopOp | ShutdownOp

  /** Where an operation stands on one entry. */
  datatype Stage =
    | Guard | Hook | Own | Arm | Run | Count | Unlatch | Enroll | Fit | Launch
    | Gate | Ungate | Settle | Bless | Free
    | Schedule
    | Validate | Wipe | Rewind
    | Skip | Cancel | Watch | Begin | Mark | Sequence | Await | Hold | Read | Commit | Account | Remove | Drain
    | Return

  /** channel is the exit channel a stop awaits or a start installed; sampled is the status a stop saw
      when it began; completed and failed are the two results of a stop sequence. late is history: a
      restart was past its check of the teardown when the stop chose its channel. */
  datatype Job = Job(
    op: Op, stage: Stage, owner: nat, channel: Option<nat>, sampled: Status, completed: bool, failed: bool, late: bool)

  /** An exit channel is named by the instance that closes it. The last nine fields are history:
      share is what the entry has added to the wait group and not taken off again, launched counts
      instances put up, relaunched the restarts since retryCount was last zero. raced says that a
      replacement was late since the entry was last claimed at rest; overruled that an operation wrote the
      status since the newest instance went up, or that the entry was raced. */
  datatype Entry = Entry(
    policy: Policy, status: Status, starting: bool, removing: bool, removed: bool,
    done: Option<nat>, instances: seq<Instance>,
    teardown: Option<nat>, cancelled: set<nat>, contextSeq: nat,
    wgDone: bool, stopsCounted: bool, retryCount: nat,
    owners: set<nat>, ownerSeq: nat, jobs: map<nat, Job>,
    starts: nat, restarts: nat, launched: nat, stops: nat, share: int, sequences: nat, relaunched: nat,
    raced: bool, overruled: bool)

  function Fresh(policy: Policy): Entry {
    Entry(policy, Registered, false, false, false, None, [], None, {}, 0, false, false, 0, {}, 0, map[],
          0, 0, 0, 0, 0, 0, 0, false, false)
  }

  /** A restart is past its one check of the teardown, its heir not installed yet. */
  predicate Through(instances: seq<Instance>) {
    |instances| > 0 && (instances[|instances| - 1].at.Rearm? || instances[|instances| - 1].at.NewOwner? ||
        instances[|instances| - 1].at.Install?)
  }

  predicate TeardownActive(e: Entry, ctxDone: bool) {
    e.removing || (e.teardown.Some? && (ctxDone || e.teardown.value in e.cancelled))
  }

  predicate ClosedAt(instances: seq<Instance>, k: nat) {
    k < |instances| && instances[k].at == Closed
  }

  /** A receive on the channel would not block: there is none, or its instance has exited. */
  predicate ChannelClosed(e: Entry, channel: Option<nat>) {
    channel.None? || ClosedAt(e.instances, channel.value)
  }

  predicate Active(status: Status) {
    status == Running || status == Starting
  }

  predicate HoldsStarting(op: Op) {
    op.StartOp? || op.ReplaceOp?
  }

  predicate HoldsRemoving(op: Op) {
    op.TearDownOp? || op.GroupStopOp?
  }

  predicate Holds(op: Op) {
    HoldsStarting(op) || HoldsRemoving(op)
  }

  function FirstStart(policy: Policy): Stage {
    if policy.kind.Scheduled? then Schedule else Guard
  }

  function FirstStage(policy: Policy, op: Op): Stage {
    match op
    case StartOp => FirstStart(policy)
    case ReplaceOp => Validate
    case TearDownOp(_, _) => Skip
    case GroupStopOp => Begin
    case ShutdownOp => Begin
  }

  /** The checks an operation makes on this entry before it claims it (membership.go:86-138, 290-316, 419-446,
      groups.go:161-173). */
  predicate CanReserve(e: Entry, op: Op) {
    && !e.removed
    && (Holds(op) ==> !e.starting && !e.removing)
    && (op.StartOp? ==> e.status != Running && ChannelClosed(e, e.done))
    && (op.GroupStopOp? ==> e.policy.kind.Persistent?)
  }

  /** Nothing is left of what was done to the entry: no operation, no instance, no share of the wait group, and
      its retries are within the limit. */
  predicate AtRest(e: Entry) {
    && e.jobs == map[] && e.share == 0 && (forall k :: 0 <= k < |e.instances| ==> e.instances[k].at == Closed)
    && (e.policy.maxRetries > 0 ==> e.relaunched <= e.retryCount <= e.policy.maxRetries)
  }

  function Reserve(e: Entry, t: nat, op: Op): Entry {
    e.(starting := e.starting || HoldsStarting(op), removing := e.removing || HoldsRemoving(op),
       jobs := e.jobs[t := Job(op, FirstStage(e.policy, op), 0, None, Registered, false, false, false)],
       raced := e.raced && !(Holds(op) && AtRest(e)), overruled := e.overruled || e.raced)
  }

  /** An operation lets go when it is done; a whole Stop also when it finds the entry gone. */
  predicate CanRelease(e: Entry, t: nat) {
    t in e.jobs && (e.jobs[t].stage == Return || (e.jobs[t].op.ShutdownOp? && e.jobs[t].stage.Begin? && e.removed))
  }

  function ReleaseJob(e: Entry, t: nat): Entry
    requires t in e.jobs
  {
    e.(starting := e.starting && !HoldsStarting(e.jobs[t].op), removing := e.removing && !HoldsRemoving(e.jobs[t].op),
       jobs := e.jobs - {t})
  }

  predicate IsStart(stage: Stage) {
    stage.Guard? || stage.Hook? || stage.Own? || stage.Arm? || stage.Run? || stage.Count? || stage.Unlatch? ||
        stage.Enroll? ||
    stage.Fit? || stage.Launch? || stage.Gate? || stage.Ungate? || stage.Settle? || stage.Bless? || stage.Free? ||
        stage.Schedule?
  }

  /** What follows the stop of the entry itself. */
  function AfterStop(op: Op): Stage {
    match op
    case TearDownOp(remove, _) => if remove then Remove else Drain
    case ReplaceOp => Drain
    case _ => Return
  }

  function AfterSequence(op: Op, completed: bool): Stage {
    match op
    case GroupStopOp => if completed then Read else Return
    case ShutdownOp => Hold
    case _ => Await
  }

  /** A wait succeeds only on a closed channel; it can time out only on one that is open, or on a cron
      schedule, whose drain latch is not part of this state. */
  predicate CanWork(e: Entry, t: nat, c: Choice) {
    && t in e.jobs && !e.jobs[t].stage.Return? && !e.jobs[t].stage.Hold?
    && (e.jobs[t].stage.Await? ==>
          if c.ok then ChannelClosed(e, e.jobs[t].channel) else e.jobs[t].channel.Some? || e.policy.kind.Scheduled?)
  }

  /** startOneService and startCronEntry: where a start goes next (lifecycle.go:19-198, membership.go:713-726). */
  function NextStart(e: Entry, j: Job, c: Choice): Job {
    match j.stage
    case Guard => if e.removed || e.removing then j.(stage := Return, failed := true) else j.(stage := Hook)
    case Hook => if c.ok then j.(stage := Own) else j.(stage := Return, failed := c.err)
    case Own => j.(stage := Arm, owner := e.ownerSeq)
    case Arm => j.(stage := Run)
    case Run => j.(stage := Count)
    case Schedule => if c.ok then j.(stage := Count) else j.(stage := Return, failed := true)
    case Count => j.(stage := if e.policy.kind.Persistent? then Unlatch else if e.policy.kind.RunOnce? then Gate
        else Return, failed := false)
    case Unlatch => j.(stage := Enroll)
    case Enroll => j.(stage := Fit)
    case Fit => j.(stage := Launch, channel := Some(|e.instances|))
    case Launch => j.(stage := Return, failed := c.err)
    case Gate => j.(stage := Ungate, failed := c.exit.Crash?)
    case Ungate => j.(stage := Settle)
    case Settle => j.(stage := if j.failed then Free else Bless)
    case Bless => j.(stage := Free)
    case _ => j.(stage := Return)
  }

  /** stopEntry, tearDown, StopGroup, ReplaceService and the per-entry part of Stop: Cancel to Watch is
      membership.go:578-600, Begin and Mark lifecycle.go:355-365, Sequence 320-328, Await membership.go:617-633,
      Read to Account lifecycle.go:441-449 and 528-532, Remove membership.go:643-654, Drain 697-701, and
      Validate, Wipe and Rewind are membership.go:318-348. */
  function NextStop(e: Entry, j: Job, c: Choice): Job {
    match j.stage
    case Validate => if c.ok then j.(stage := Cancel) else j.(stage := Return, failed := true)
    case Skip => j.(stage := if j.op.TearDownOp? && !j.op.target &&
        e.status == Stopping then AfterStop(j.op) else Cancel)
    case Cancel => j.(stage := Watch)
    case Watch => j.(stage := Begin, channel := e.done, late := Through(e.instances))
    case Begin => j.(stage := Mark, sampled := e.status)
    case Mark => j.(stage := Sequence)
    case Sequence => j.(stage := AfterSequence(j.op, c.ok), completed := c.ok, failed := c.err || !c.ok)
    case Await =>
      j.(stage := if j.completed &&
          c.ok then Read else AfterStop(j.op), completed := j.completed && c.ok, failed := j.failed || !c.ok)
    case Read => j.(stage := if e.status == Succeeded then AfterStop(j.op) else Commit)
    case Commit => j.(stage := Account)
    case Account => j.(stage := AfterStop(j.op))
    case Remove => j.(stage := Drain)
    case Drain => j.(stage := if j.op.ReplaceOp? && !j.failed then Wipe else Return)
    case Wipe => j.(stage := Rewind)
    case _ => j.(stage := FirstStart(e.policy))
  }

  function NextJob(e: Entry, j: Job, c: Choice): Job {
    if IsStart(j.stage) then NextStart(e, j, c) else NextStop(e, j, c)
  }

  /** The status an operation's step leaves. A satisfied gate stays Succeeded through a stop. */
  function StatusByJob(status: Status, j: Job, c: Choice): Status {
    match j.stage
    case Hook => if c.ok then Status.Starting else Stopped
    case Run => Running
    case Schedule => if c.ok then Running else status
    case Settle => if j.failed then Crashed else status
    case Bless => Succeeded
    case Mark => if j.sampled == Succeeded then status else Stopping
    case Commit => Stopped
    case Remove => Registered
    case _ => status
  }

  /** This step writes the status. */
  predicate WritesStatus(j: Job, c: Choice) {
    || j.stage.Hook? || j.stage.Run? || (j.stage.Schedule? && c.ok) || (j.stage.Settle? && j.failed) || j.stage.Bless?
    || (j.stage.Mark? && j.sampled != Succeeded) || j.stage.Commit? || j.stage.Remove?
  }

  function WithMember(s: set<nat>, x: Option<nat>): set<nat> {
    if x.Some? then s + {x.value} else s
  }

  /** This step wins the latch that lets one stop be counted. */
  predicate Counts(e: Entry, j: Job) {
    j.stage.Account? && Active(j.sampled) && !e.stopsCounted
  }

  /** The instance behind the channel starts to run. */
  function Spawn(instances: seq<Instance>, channel: Option<nat>): seq<Instance> {
    if channel.Some? && channel.value < |instances|
    then instances[channel.value := instances[channel.value].(at := Live)]
    else instances
  }

  function NewInstance(owner: nat): Instance {
    Instance(Pending, Clean, None, owner, 0, 0, 0, false, false)
  }

  function InstancesByJob(instances: seq<Instance>, j: Job): seq<Instance> {
    if j.stage.Fit? then instances + [NewInstance(j.owner)]
    else if j.stage.Launch? then Spawn(instances, j.channel)
    else instances
  }

  function OwnersByJob(e: Entry, j: Job): set<nat> {
    match j.stage
    case Own => e.owners + {e.ownerSeq}
    case Free => e.owners - {j.owner}
    case Drain => {}
    case _ => e.owners
  }

  function B(b: bool): nat {
    if b then 1 else 0
  }

  /** One step of an operation: each field with the stages that write it. */
  function Work(e: Entry, t: nat, c: Choice): Entry
    requires t in e.jobs
  {
    var j := e.jobs[t];
    e.(jobs := e.jobs[t := NextJob(e, j, c)],
       instances := InstancesByJob(e.instances, j),
       status := StatusByJob(e.status, j, c),
       removed := e.removed || j.stage.Remove?,
       done := if j.stage.Fit? then Some(|e.instances|) else if j.stage.Remove? then None else e.done,
       teardown := if j.stage.Arm? then Some(e.contextSeq) else if j.stage.Ungate? || j.stage.Remove? then None
           else e.teardown,
       contextSeq := e.contextSeq + B(j.stage.Arm?),
       cancelled := if j.stage.Cancel? then WithMember(e.cancelled, e.teardown) else e.cancelled,
       wgDone := (e.wgDone && !j.stage.Unlatch? && !j.stage.Remove?) || (j.stage.Settle? && !j.failed),
       stopsCounted := (e.stopsCounted && !LatchReset(e, j)) || Counts(e, j),
       retryCount := if j.stage.Remove? || j.stage.Wipe? then 0 else e.retryCount,
       owners := OwnersByJob(e, j),
       ownerSeq := e.ownerSeq + B(j.stage.Own?),
       starts := e.starts + B(j.stage.Count?), launched := e.launched + B(j.stage.Count?),
       stops := e.stops + B(Counts(e, j)),
       share := e.share + B(j.stage.Enroll?),
       sequences := e.sequences + B(j.stage.Sequence?),
       relaunched := if j.stage.Remove? || j.stage.Wipe? then 0 else e.relaunched,
       raced := e.raced || (j.stage.Watch? && j.op.ReplaceOp? && Through(e.instances)),
       overruled := !j.stage.Launch? && (e.overruled || WritesStatus(j, c)))
  }

  /** A fresh instance, a replacement and a removal get a fresh stop latch. */
  predicate LatchReset(e: Entry, j: Job) {
    j.stage.Remove? || j.stage.Rewind? || (j.stage.Guard? && !e.removed && !e.removing)
  }

  predicate IsExit(at: Point) {
    at.Live? || at.Sample? || at.SeeShutdown? || at.SeeRemoving? || at.SeeTeardown? || at.SetStopped? ||
        at.CountStop? || at.SetCrashed?
  }

  predicate IsDecision(at: Point) {
    at.SeeStable? || at.SeeCrash? || at.TellCrash? || at.SeeRetries? || at.QuitRemoving? || at.QuitTeardown? ||
        at.QuitStopped? ||
    at.QuitCrashed? || at.Retry? || at.SeeIdle? || at.SetIdle? || at.DropOwner?
  }

  predicate IsRestart(at: Point) {
    at.SampleBackoff? || at.Backoff? || at.AbortRemoving? || at.AbortStopped? || at.Rearm? || at.NewOwner? ||
        at.Install? ||
    at.Revive? || at.Respawn?
  }

  /** Move on because somebody else owns how the entry ends. */
  function Yield(x: Instance, at: Point): Instance {
    x.(at := at, yielded := true)
  }

  /** The instance returns; without a factory, its exit decides the status (lifecycle.go:629-660, 678-724). */
  function NextExit(e: Entry, x: Instance, ctxDone: bool, c: Choice): Instance {
    match x.at
    case Live => x.(at := if e.policy.factory then SeeShutdown else Sample, exit := c.exit)
    case Sample => x.(at := SeeShutdown, held := e.teardown)
    case SeeShutdown => if ctxDone then Yield(x, Latch)
        else x.(at := if e.policy.factory then SeeStable else SeeRemoving)
    case SeeRemoving => if e.removing then Yield(x, Latch) else x.(at := SeeTeardown)
    case SeeTeardown =>
      if TeardownActive(e, ctxDone) then Yield(x, SetStopped)
          else x.(at := if x.exit.Crash? then SetCrashed else SetStopped)
    case SetStopped => x.(at := CountStop)
    case CountStop => x.(at := Latch)
    case _ => x.(at := Latch, reports := x.reports + 1)
  }

  /** A self-healing exit: report a crash, then give up at the retry limit or count a retry
      (lifecycle.go:743-828). */
  function NextDecision(e: Entry, x: Instance, ctxDone: bool): Instance {
    match x.at
    case SeeStable => x.(at := SeeCrash)
    case SeeCrash =>
      if !x.exit.Crash? then x.(at := SeeRetries)
      else if TeardownActive(e, ctxDone) then Yield(x, SeeRetries)
      else x.(at := TellCrash)
    case TellCrash => x.(at := SeeRetries, reports := x.reports + 1)
    case SeeRetries => x.(at := if e.policy.maxRetries > 0 &&
        e.retryCount >= e.policy.maxRetries then QuitRemoving else Retry)
    case QuitRemoving => if e.removing then Yield(x, Latch) else x.(at := QuitTeardown)
    case QuitTeardown =>
      if TeardownActive(e, ctxDone) then Yield(x, QuitStopped)
      else x.(at := if x.exit.Crash? then Latch else QuitCrashed, gaveUp := true)
    case QuitStopped => x.(at := Latch)
    case QuitCrashed => x.(at := Latch, reports := x.reports + 1)
    case Retry => x.(at := SeeIdle)
    case SeeIdle =>
      if x.exit.Crash? then x.(at := DropOwner)
      else if TeardownActive(e, ctxDone) then Yield(x, DropOwner)
      else x.(at := SetIdle)
    case SetIdle => x.(at := DropOwner)
    case _ => x.(at := SampleBackoff)
  }

  /** The wait is over with the remembered context dead; without one, the instance's own may be. */
  predicate Aborted(e: Entry, x: Instance, ctxDone: bool, c: Choice) {
    ctxDone || if x.held.Some? then x.held.value in e.cancelled else c.ok
  }

  /** The backoff, then the restart: the only check of the teardown comes before the cleanup
      (lifecycle.go:830-923). */
  function NextRestart(e: Entry, x: Instance, ctxDone: bool, c: Choice): Instance {
    match x.at
    case SampleBackoff => x.(at := Backoff, held := e.teardown)
    case Backoff => if Aborted(e, x, ctxDone, c) then Yield(x, AbortRemoving) else x.(at := Rearm)
    case AbortRemoving => x.(at := if e.removing then Latch else AbortStopped)
    case AbortStopped => x.(at := Latch)
    case Rearm => x.(at := NewOwner)
    case NewOwner => x.(at := Install, heirOwner := e.ownerSeq)
    case Install => x.(at := Revive, heir := |e.instances|)
    case Revive => x.(at := Respawn)
    case _ => x.(at := Tally)
  }

  /** The wait group and the deferred calls (lifecycle.go:679-689, 725-733, entry.go:352-365). */
  function NextTail(e: Entry, x: Instance): Instance {
    var after := if e.policy.factory then Disown else Untether;
    match x.at
    case Latch => x.(at := if e.wgDone then after else Release)
    case Release => x.(at := after)
    case Tally => x.(at := Disown)
    case Untether => x.(at := Disown)
    case Disown => x.(at := Closing)
    case _ => x.(at := Closed)
  }

  function NextInstance(e: Entry, x: Instance, ctxDone: bool, c: Choice): Instance {
    if IsExit(x.at) then NextExit(e, x, ctxDone, c)
    else if IsDecision(x.at) then NextDecision(e, x, ctxDone)
    else if IsRestart(x.at) then NextRestart(e, x, ctxDone, c)
    else NextTail(e, x)
  }

  /** The status an instance's step leaves. */
  function StatusByInstance(status: Status, at: Point): Status {
    if at.SetStopped? || at.QuitStopped? || at.SetIdle? || at.AbortStopped? then Stopped
    else if at.SetCrashed? || at.TellCrash? || at.QuitCrashed? then Crashed
    else if at.Revive? then Running
    else status
  }

  function InstancesByInstance(instances: seq<Instance>, k: nat, y: Instance, at: Point): seq<Instance>
    requires k < |instances|
  {
    if at.Install? then instances[k := y] + [NewInstance(y.heirOwner)]
    else if at.Respawn? then Spawn(instances[k := y], Some(y.heir))
    else instances[k := y]
  }

  function OwnersByInstance(e: Entry, x: Instance): set<nat> {
    if x.at.NewOwner? then e.owners + {e.ownerSeq}
    else if x.at.Disown? || x.at.DropOwner? then e.owners - {x.owner}
    else e.owners
  }

  /** The teardown context is still the one this instance remembers, and goes with it. */
  predicate Untethers(e: Entry, x: Instance) {
    x.at.Untether? && e.teardown == x.held
  }

  /** A self-healing service that was stable long enough has its retries back. */
  predicate Steadied(e: Entry, x: Instance, c: Choice) {
    x.at.SeeStable? && e.policy.resetAfter && c.ok
  }

  predicate CanAdvance(e: Entry, k: nat) {
    k < |e.instances| && !e.instances[k].at.Pending? && !e.instances[k].at.Closed?
  }

  /** One step of an instance goroutine: each field with the points that write it. */
  function Advance(e: Entry, k: nat, ctxDone: bool, c: Choice): Entry
    requires k < |e.instances|
  {
    var x := e.instances[k];
    e.(instances := InstancesByInstance(e.instances, k, NextInstance(e, x, ctxDone, c), x.at),
       status := StatusByInstance(e.status, x.at),
       done := if x.at.Install? then Some(|e.instances|) else e.done,
       teardown := if Untethers(e, x) then None else e.teardown,
       cancelled := if Untethers(e, x) then WithMember(e.cancelled, x.held) else e.cancelled,
       wgDone := e.wgDone || x.at.Latch?,
       stopsCounted := (e.stopsCounted && !x.at.Rearm?) || x.at.CountStop?,
       retryCount := if Steadied(e, x, c) then 0 else e.retryCount + B(x.at.Retry?),
       owners := OwnersByInstance(e, x),
       ownerSeq := e.ownerSeq + B(x.at.NewOwner?),
       restarts := e.restarts + B(x.at.Tally?),
       launched := e.launched + B(x.at.Respawn?),
       stops := e.stops + B(x.at.CountStop? && !e.stopsCounted),
       share := e.share - B(x.at.Release?),
       relaunched := if Steadied(e, x, c) then 0 else e.relaunched + B(x.at.Respawn?),
       overruled := e.overruled && !x.at.Respawn?)
  }

  /** Who moves next on one entry. */
  datatype Action =
    | Reserving(t: nat, op: Op)
    | Working(t: nat, c: Choice)
    | Releasing(t: nat)
    | Advancing(k: nat, c: Choice)

  predicate Can(e: Entry, a: Action) {
    match a
    case Reserving(t, op) => t !in e.jobs && CanReserve(e, op)
    case Working(t, c) => CanWork(e, t, c)
    case Releasing(t) => CanRelease(e, t)
    case Advancing(k, _) => CanAdvance(e, k)
  }

  function Do(e: Entry, ctxDone: bool, a: Action): Entry
    requires Can(e, a)
  {
    match a
    case Reserving(t, op) => Reserve(e, t, op)
    case Working(t, c) => Work(e, t, c)
    case Releasing(t) => ReleaseJob(e, t)
    case Advancing(k, c) => Advance(e, k, ctxDone, c)
  }
}
