# gorch, verified

This project models the supervision logic of gorch in Dafny and proves what that logic promises. gorch
runs long-lived goroutines ("services") behind a mutable registry: services name hard and soft
dependencies on each other, are started, stopped, replaced, restarted after a crash and removed by
many goroutines at once, may run on a cron schedule, and talk through a messenger that tags every
subscription with the instance that made it. Five parts are modelled.

**Dependency graph and registry** (`Digraph`, `Services`, `Registry`, `NameOrder`, `Levelling`,
`Dependents`, `Teardown`). `Digraph` is the graph theory everything else stands on: walks,
reachability, acyclicity, the pigeonhole argument that a finite graph whose every node has a successor
has a cycle, and the exact condition under which a new node closes a cycle. `Registry.Orchestrator` is
the slice of entries with its name index; its methods are the depth-first cycle check with its shared
visited map and depth cap, the validation of a registration fault by fault, static registration, the
two halves of a hot add, and removal. `Levelling` is Kahn levelling of an arbitrary subset with its
mutated in-degree and child maps, and the reversed order used for stopping. `Dependents` and
`Teardown` are the post-order closure of hard dependents, the refusal of a plain stop, the reservation
of the selected entries, and their removal.

**Lifecycle protocol** (`Lifecycle`, `LifecycleFlow`, `LifecycleSafety`, `LifecycleShares`, `LifecycleRemovals`,
`LifecycleIds`, `LifecycleSound`, `LifecycleEnds`, `LifecycleStops`, `LifecycleCredits`, `LifecycleRetries`,
`LifecycleVerdicts`, `LifecycleLimits`, `LifecycleGates`, `LifecycleStatus`, `LifecycleExits`, `LifecycleAccounts`,
`LifecycleAborts`, `Shutdown`, `StopCredits`, `Winddown`, `Runs`, `Guarantees`, `Outcomes`, `StartOutcomes`,
`StopOutcomes`, `Failures`, `Races`, `StopRaces`, `GateRaces`, `StopUndoing`). `Lifecycle` describes one entry as a
transition system. An operation (StartService, ReplaceService, StopService, Unregister, UnregisterGroup, StopGroup,
the per-entry part of Stop) is a job that stands at one of 33 stages; an instance goroutine stands at one of 37 points
of spawnInstance and handleServiceDone. Every critical section, atomic load and atomic store is one step. `NextStart`,
`NextStop` and `NextInstance` say where a job or an instance goes next; `Work` and `Advance` say, field by field,
which stages and points write it. What user code, timers and schedulers decide arrives as the `Choice` of a step.
`Shutdown` puts entries together: claims and returns that cover several entries at once, the shared wait group, and
the phases of Stop. `Runs` proves the invariant, `Guarantees` says what is always true, and `Outcomes`,
`StartOutcomes`, `StopOutcomes` and `Failures` say what an exit, a start and a stop lead to: the report and the status
that an exit decides, the one instance, gate or schedule that a start puts up, the sequence that a stop runs once and
the Stop it counts once, and when an operation reports a failure. Each of these theorems quantifies over every
execution, that is, over any number of entries, operations, instances and steps in any interleaving, and none
restricts what an execution may do. `LifecycleSound` is what holds of an entry whatever was done to it; it is enough
for a Stop that reports success to leave nothing alive. Where a property depends on more, the condition is about the
one entry concerned (for the exact value of the wait group and for what a Stop leaves alive anywhere, about each):
`raced` (a replacement chose its exit channel while a restart was past its check of the teardown; forgotten when the
entry is next claimed at rest), `late` (the same of a stop), and what Stop found on the entry when it cancelled the
context (`found`): whether an operation could still write another status than Stopped or Succeeded (`AllSpent`), add
to the wait group (`AllBarren`), bring a gate up (`AllFruitless`) or renew the stop latch (`NoneUndone`). `Races`,
`StopRaces`, `GateRaces` and `StopUndoing` show of each condition that without it the property fails, from every
reachable state of the kind they name or from the empty orchestrator, by executions of the same transition system.

**Order of a whole Stop** (`StopPasses`). The two passes over the registry, with their two complementary filters: what
is visited, how often, and in which order.

**Cron ticks** (`CronTicks`). The generation counter, the active counter, the draining flag and the
drain latch of one cron entry, against the set of ticks that are actually in flight. Every method is a
critical section, so every interleaving of ticks, drains, reschedules and resets is a sequence of calls; every
method keeps a generation that is over (`Over`) over, and all but a new schedule keep a swept entry (`Swept`) swept.
For a cron entry this is what "nothing is left after a stop" means: it has ticks where other services have an
instance.

**Messenger and budgets** (`Channels`, `Messaging`, `Owners`, `StopBudget`). `Messaging.Messenger` is
the topic, owner and channel-list registry on the heap, with unsubscribe in place, per-owner drain and
global drain; `Channels.Channel` is a buffered channel on which a send or a close after a close would
panic. `Owners` splits newOwner, releaseOwner and drainService into their separately locked steps.
`StopBudget` is the deadline arithmetic of a teardown in whole nanoseconds.

## Findings

Some claims that look true are false of the code. Each has a proved execution that breaks it and the condition under
which it holds.

- A hot add releases the lock between validation and commit, and the commit checks only the shutdown
  gate and the name (register.go:208-224). Two hot adds that softly depend on each other are both
  admitted and close a cycle (`Registry.HotAddGapClosesCycle`), and a service is committed after its hard dependency
  was removed (`Registry.HotAddGapMissesRemoval`). `Registry.Orchestrator.CommitDynamic` states both exact conditions:
  the registry stays acyclic if and only if the configuration closes no cycle in the graph as it is at the commit, and
  keeps every hard dependency registered if and only if those of the configuration are registered then.
- ReplaceService and StopService on a self-healing service sample the exit channel (membership.go:335, 592-597) while
  a restart may already be past its one check of the teardown (lifecycle.go:846-922). With a restart past that check
  at that moment, and only then, a replacement can end with two live instances behind one latch
  (`Races.LateReplaceDoubles`), and a stop can report success over a service that lives on (`Races.LateStopLeavesOne`),
  from every reachable state. Without it, an entry has at most one live instance and the right share of the wait group
  (`Guarantees.OneInstance`), and a stop that reports success leaves nothing (`Guarantees.TimelyStopLeavesNothing`).
- A whole Stop that samples the status of a runOnce gate while something in flight can still bring the gate up can mark
  it Stopping after it succeeded (lifecycle.go:355-365): `GateRaces.StopLosesGate`, from every reachable state in which
  Stop is about to cancel and such an operation is in flight. In every other case the gate survives:
  `Guarantees.GateStaysSucceeded`.
- A whole Stop that reports success does not mean that every registered entry is Stopped or Succeeded
  (lifecycle.go:1356-1400): a teardown that has not yet written its Stopping (355-365) writes it after Stop has
  returned, and a start in flight can bring its service up. An entry ends Stopped or Succeeded if every operation that
  Stop found on it was past its last other status (`AllSpent`), or it is a succeeded gate that nothing could start
  (`Guarantees.StopEndsEntries`); nothing is left alive anywhere if no operation that Stop found could still add to
  the wait group (`Guarantees.StopLeavesNothing`). Both conditions are exact: where one fails, Stop reports success and
  the entry is left otherwise, or its service comes up, in some execution, from every reachable state in which Stop is
  about to cancel, nothing is alive any more and what the operation waits for has exited
  (`StopUndoing.StopEndsOnlyThese`, `StopUndoing.FoundUnbarrenOutlivesStop`), and from every such state past its wait
  in which no stop has failed (`StopUndoing.UnspentUndoesStop`, `StopUndoing.UnbarrenOutlivesStop`).
- A replacement that Stop finds before its own stop is done renews the stop latch under Stop, which then counts the
  same instance again (lifecycle.go:441-449): two more Stops and no Start or Restart, from every reachable state past
  the wait in which both have seen the entry active (`StopUndoing.ReplaceCountsAgain`), so that Stops exceed Starts
  plus Restarts (`StopRaces.ReplaceCountsTwice`). Otherwise they never do (`Guarantees.StopsNeverExceedLaunches`).
- A reset of a cron entry clears the gate of CronSkip under whoever is inside, and a new schedule lets a second tick in
  (`CronTicks.ResetLetsTwoIn`); `CronTicks.CronEntry.SerialTicks` holds until that happens.

The comment on newOwner that the two owner maps cannot diverge (membership.go:663-667) is correct:
`Owners.ListedIsLive` and `Owners.RestIsExact`.

## Model

| member | source | states |
|---|---|---|
| Digraph.InsertAcyclic | register.go:150-191 | adding a node with its edges to an acyclic graph keeps it acyclic if and only if the node is not its own dependency and no dependency reaches it, also when it revives edges that dangled before |
| Digraph.NoSinkCycle | graph.go:127-142 | a finite set of nodes in which each has a successor in the set contains a cycle: why a round without a zero in-degree means a cycle |
| Registry.Orchestrator.LookupEntry | graph.go:11-21 | finds the registered entry of that name if there is one, even when the index is incomplete |
| Registry.Orchestrator.DependsOnRecursive | graph.go:39-75 | a hit means the target is reachable; a miss leaves every node visited since the call fully explored without the target, although the walk is cut at visited and at open nodes; a depth error exhibits a walk of 10001 distinct registered names |
| Registry.Orchestrator.DependsOn | graph.go:39-75 | from a fresh visited map the answer is exactly reachability, and a depth error implies more than 10000 entries |
| Registry.TooDeepNeedsEntries | graph.go:30-44 | a walk beyond the cap needs more than 10000 entries, so 10000 or fewer never fail with a depth error |
| Registry.FaultFree | register.go:150-191 | no hard or soft dependency has a fault exactly when the configuration is admissible: hard dependencies registered and staying, and no cycle closed |
| Registry.FaultIsReal | register.go:150-189 | an error that is reported names a dependency of the configuration and is true of it: not registered, being removed, or a dependency from which the new name is reachable; the absence of a soft one is never an error |
| Registry.Orchestrator.CheckHard | register.go:150-171 | reports the first faulty hard dependency in order with its error, by reachability instead of search |
| Registry.Orchestrator.CheckSoft | register.go:173-189 | the same for soft dependencies, where an absent one is no fault |
| Registry.Orchestrator.ValidateRegisterConfig | register.go:120-192 | answers the specified verdict on options, cron spec, name and dependencies, and draws an automatic number exactly past the option checks; as long as every dollar name was drawn, an unnamed configuration is never refused as a duplicate |
| Registry.Orchestrator.Append | register.go:92-96 | slice, index and graph gain one entry; the registry stays valid if and only if the entry closes no cycle |
| Registry.Orchestrator.Register | register.go:34-88 | one critical section: names stay unique, index and slice agree, the graph stays acyclic; a refusal changes nothing, and the error is the specified one, never a duplicate for an unnamed service as long as every dollar name was drawn, which registering services that are unnamed or named otherwise keeps so |
| Registry.DigitsValue | register.go:140-143 | the numeral of an automatic name reads as its number, in decimal digits without a leading zero |
| Registry.AutoNameInjective | register.go:140-143 | two automatic names are equal only for the same number |
| Registry.UnnamedNeverCollides | register.go:140-148 | over every run of registrations, hot adds and removals in which nobody registers a name that starts with a dollar, the next automatic name is free at validation, and that of every pending hot add still at its commit |
| Registry.Orchestrator.ValidateDynamic | register.go:202-213 | refused during and after shutdown, else validated against the registry of that moment |
| Registry.Orchestrator.MembershipGate | register.go:202-206 | closed exactly while a shutdown is running or done, with the error of the one or of the other |
| Registry.Orchestrator.CommitDynamic | register.go:232-253 | refused exactly by the gate or a duplicate name, each with its own error; afterwards the registry is acyclic if and only if the entry closes no cycle now, and keeps its hard dependencies registered if and only if those of the entry are registered now |
| Registry.HotAddGapClosesCycle | register.go:202-225 | validating two mutually soft-dependent services and then committing both leaves a cycle |
| Registry.HotAddGapMissesRemoval | register.go:202-225 | validating a service, removing its hard dependency and committing the service leaves a registry with a missing hard dependency |
| Registry.Orchestrator.RemoveEntry | membership.go:643-654 | takes exactly this entry out of slice, index and graph, marks it removed for good, resets its status, and keeps the registry valid |
| Registry.WithoutGraph | membership.go:648-653 | filtering the slice removes one name and one node and nothing else |
| Registry.RunsStayAcyclic | register.go:45-62 | over every run of atomic registrations and removals from the empty registry the hard and soft graph stays acyclic |
| NameOrder.SortedUnique | graph.go:143-144 | two sorted lists without repeats and with the same names are equal |
| NameOrder.NameLeqIsLexicographic | graph.go:143-144 | the order is the lexicographic one, upward: a proper prefix first, else the smaller character at the first difference |
| Levelling.Count | graph.go:88-122 | the in-degree of each name counts its pending edges, repeats and hard-soft duplicates included, and the child lists hold the same edges |
| Levelling.PendingDrop | graph.go:150-152 | decrementing once per listed child is exactly the loss of one finished dependency |
| Levelling.Retire | graph.go:147-153 | after a name is done, every in-degree again counts the edges from what is not |
| Levelling.Kahn | graph.go:124-158 | the rounds end with every name ranked by its longest chain, or with a cycle or a repeated name |
| Levelling.TopoSort | graph.go:83-158 | reports a cycle if and only if names repeat or the induced subgraph has one; otherwise each entry is in exactly one level, whose number is the length of its longest dependency chain in the subset |
| Levelling.RankIsLongestChain | graph.go:127-155 | the round in which a name is placed is the length of its longest chain |
| Levelling.LevelsDeterministic | graph.go:130-144 | the levels do not depend on the order in which maps are walked |
| Levelling.SubsetOfRegistrySorts | graph.go:83-158 | no subset of an acyclic registry ever reports a cycle |
| Levelling.StopOrder | graph.go:165-171 | every entry once, each before all it transitively depends on inside the subset; a cyclic subset falls back to registration order |
| StopPasses.StopAll | lifecycle.go:1335-1350 | the two passes visit every entry exactly once, the persistent ones first; among those every dependent before what it depends on, unless they contain a cycle, which an acyclic registry never does |
| StopPasses.DirectDependencyReaches | lifecycle.go:1335-1350 | a direct hard or soft dependency between two registered persistent services is an edge of what the first pass sorts |
| StopPasses.PassesAreDisjoint | lifecycle.go:596-609 | the complementary filters never let an entry into both passes |
| Dependents.HardDependentsOrder | membership.go:499-519 | exactly the target and its transitive hard dependents, once each, target last, in an acyclic graph every dependent before what it depends on |
| Dependents.ExternalDependents | membership.go:528-552 | exactly the transitive hard dependents of the members that are not members, once each, dependents first |
| Dependents.UpClosedReaches | membership.go:502-516 | a set closed under direct dependents holds every transitive dependent |
| Dependents.PostOrderReaches | membership.go:502-516 | in a post-order every transitive dependent of a finished name finished before it |
| Teardown.ActiveDependents | membership.go:560-571 | the names of the closure other than the target that are Running or Starting |
| Teardown.Reserve | membership.go:419-446 | reserves all or none; a re-entry is reported before contention, each exactly when some entry causes it, with one that does |
| Teardown.SelectTearDown | membership.go:363-446 | every answer with its exact condition, in the order of the checks: a plain stop is refused exactly when another member of the closure is active, naming all of them; then re-entrant exactly when the caller owns the lifecycle of some entry concerned, busy exactly when nobody of them is so owned and some is starting or removing, and selected exactly when neither holds, with exactly the closure, or the target alone, reserved |
| Teardown.RemoveAll | membership.go:475-481 | exactly the selected entries leave the registry, which stays valid |
| Teardown.ClosureIsClosed | membership.go:499-519 | whoever hard-depends on a member of the closure is in it |
| Teardown.RemovalKeepsHardDeps | membership.go:475-481 | a removal keeps every remaining hard dependency registered if and only if what it takes out is closed under hard dependents |
| Teardown.RemoveClosure | membership.go:397-414 | however others changed the registry between the reservation of the closure and its removal, commits of hot adds included, a cascade removal from a registry with all hard dependencies registered leaves one if and only if no entry that came meanwhile names a reserved one |
| Teardown.FrozenSetStaysClosed | membership.go:433-441 | the removing flags keep a reserved set closed: no admissible registration adds a dependent to it |
| Teardown.CommitKeepsClosed | register.go:232-253 | a commit, which does not check the flags, keeps a reserved set closed if and only if no hard dependency of the entry is in it |
| Teardown.ReservedStaysClosed | membership.go:419-446 | through any sequence of registrations, commits and removals by others the reserved entries stay, and they stay closed under dependents if and only if no entry that came meanwhile names one of them |
| Teardown.GroupMembers | groups.go:260-267 | exactly the entries of the group, and exactly their names |
| Teardown.GroupRefusals | groups.go:279-298 | one refusal for each member that an active entry outside the group depends on, in the order of the members, naming exactly those |
| Teardown.RefusedIsBlocked | groups.go:283-295 | no refusals exactly when no member has an active dependent outside the group |
| Teardown.SelectGroupRemoval | groups.go:238-332 | refused for dependents exactly when some active outsider would break; else re-entrant, busy or selected under the same exact conditions as a single removal, on the members and under cascade exactly their closure |
| LifecycleSafety.StepReserved | membership.go:83-138 | every step of every actor keeps the reservation exclusive and the flags truthful |
| LifecycleSafety.StepShaped | lifecycle.go:629-660 | every step, short of a replacement that chooses its channel too late, keeps the entry in shape: one acting instance, the exit channel the newest one, starts only behind a closed instance, stops in time on the instance that will not restart |
| LifecycleSafety.StepRaced | membership.go:331-356 | only a self-healing service can be replaced too late |
| LifecycleSafety.AdvanceThrough | lifecycle.go:830-846 | once the teardown context is cancelled, no restart gets past its check any more |
| LifecycleSafety.AdvanceShaped | lifecycle.go:678-924 | every step of an instance goroutine, restarts included, keeps the shape that the operations in flight rely on |
| LifecycleSafety.WorkShaped | lifecycle.go:19-198 | every step of a start, stop or replacement keeps the shape |
| LifecycleSafety.ReserveReserved | membership.go:86-138 | claiming an entry keeps at most one holder and the two flags truthful |
| LifecycleSafety.ReleaseReserved | membership.go:447-453 | a holder that releases leaves both flags clear |
| LifecycleShares.StepShares | lifecycle.go:707-733 | every step keeps the wait-group share equal to the live era or the start about to have one, and the latch open for whoever still owes the release |
| LifecycleShares.ShareIsLiveEras | lifecycle.go:154-161 | the share of an entry is the number of its live eras plus a start in between, at most one era |
| LifecycleRemovals.StepDeparts | membership.go:475-481 | every step keeps an entry that an operation holds registered, until the Remove of an Unregister, and removed after it |
| LifecycleIds.StepIds | membership.go:656-685 | whatever was done to an entry, every step keeps its owners and contexts among those drawn before, an instance that waits or has exited without its owner, and a removed entry without a context |
| LifecycleSound.StepSound | lifecycle.go:629-924 | whatever was done to an entry, late replacements included, every step keeps each launch paired with an instance of its own, every launch accounted for, and the share of the wait group at least the live eras plus the start about to have one |
| LifecycleSound.ShareZeroSettles | lifecycle.go:679-733 | an entry with nothing in the wait group has no goroutine that will write a status or touch the wait group again, and no start about to install one |
| LifecycleEnds.StepDrained | membership.go:687-701 | every step, also under a whole Stop, keeps the owner set empty behind a stop that went well |
| LifecycleEnds.StepEnds | membership.go:578-612 | short of a whole Stop, which writes the status as well, no step undoes the status that a stop that went well has left |
| LifecycleEnds.StoppedMeansGone | membership.go:460-493 | behind a stop that reported success and was not late no owner is left and no goroutine will act again |
| LifecycleStops.StepCounted | lifecycle.go:528-532 | every step short of a removal keeps the stops of a service, plus its open latch, within the launches, under a whole Stop too as long as no replacement renews the latch under it |
| LifecycleStops.StepCooled | membership.go:343-348 | a replacement whose own stop was done when Stop came never renews the latch under a stop that saw the entry active |
| LifecycleStops.StopsWithinLaunches | lifecycle.go:441-449 | Stops are at most Starts plus Restarts plus launches not counted yet or under way |
| LifecycleCredits.StepPaid | lifecycle.go:441-449 | for a self-healing service, late replacements included, every step short of a whole Stop keeps the stops, and the one an operation may still count, within the launches made and under way |
| LifecycleCredits.StepLatched | lifecycle.go:528-532 | and as long as nobody starts it every step, also under a whole Stop, keeps stops plus what the open latch still allows within them |
| StopCredits.StepShared | lifecycle.go:1356-1400 | under a whole Stop that found a start at work every step keeps what the start and Stop have counted and may still count within the launches made and under way |
| LifecycleRetries.StepBudgeted | lifecycle.go:757-808 | every step keeps retryCount within maxRetries and the restarts since it was zero within retryCount |
| LifecycleRetries.StepReports | lifecycle.go:770-795 | every step keeps the crash reports of each instance at one or none, and at one where it gave up undisturbed |
| LifecycleRetries.StepTells | lifecycle.go:779-808 | every step leaves an entry at Crashed once its newest instance has reported its crash and leaves, and at Stopped once that leaves without a report, until an operation writes the status |
| LifecycleVerdicts.StepJudged | lifecycle.go:707-724 | every step keeps what an exit that found no teardown comes to: without a factory one report exactly for an error, for a self-healing service one report at the end of its retries and no way to leave before |
| LifecycleLimits.StepLimits | lifecycle.go:770-795 | every step keeps a newest instance that gives up at a used-up retry limit, until an operation writes the status: a replacement forgets the retries only once it has |
| LifecycleGates.StepSees | lifecycle.go:355-365 | whoever stops a Succeeded gate leaves it so; only a new start or the removal ends it |
| LifecycleGates.StepFruitless | lifecycle.go:19-198 | what cannot bring a gate up now cannot do so later, as long as nobody starts it |
| LifecycleStatus.StepHonest | lifecycle.go:707-724 | short of a shutdown, every step keeps somebody behind a status that says a service without a factory is up: an instance still to decide, a start, or a stop still to mark it |
| LifecycleStatus.StepOwns | membership.go:656-685 | every step leaves each owner an entry lists with a start or an instance that will release it |
| LifecycleStatus.AdvanceOwns | lifecycle.go:679-681 | a goroutine that moves keeps its owner, releases it before it closes, or hands a new one to its heir |
| LifecycleExits.StepCountsExit | lifecycle.go:707-724 | every step leaves an exit that ended Stopped counted, until an operation writes the status or a start renews the latch |
| LifecycleExits.StepUnties | entry.go:352-365 | every step keeps the teardown context of a service without a factory with its newest instance, which remembers it and gives it back when it exits, and that of a gate within its run |
| LifecycleAccounts.StepAccounted | lifecycle.go:441-449 | every step leaves the stop of an entry that was found active, past its account, with the latch taken: it was counted by the operation or by the exit before it |
| LifecycleAborts.StepHoldsBack | lifecycle.go:830-846 | once the teardown context is cancelled, instances plus the restart already past its check do not grow until a start |
| Shutdown.DoOk | lifecycle.go:678-924 | on every entry the reservation, soundness, crash reports and owners survive every step, and on one that is not raced all other invariants |
| Shutdown.Recovers | membership.go:83-138 | an entry replaced too late that is claimed with no operation on it, every instance closed and nothing in the wait group has all invariants back |
| Winddown.NextSpent | lifecycle.go:320-365 | a spent operation stays so and, short of a removal, writes no status but Stopped or Succeeded |
| Winddown.NextBarren | lifecycle.go:19-198 | an operation that cannot add to the wait group any more stays so |
| Winddown.DoSince | lifecycle.go:1269-1411 | what held on an entry when Stop cancelled goes on, as far as nothing in flight then stood against it |
| Runs.TurnInv | lifecycle.go:1269-1411 | every claim, return, local step and phase of Stop, an entry found gone included, keeps the invariant of the orchestrator |
| Runs.RunInv | lifecycle.go:1269-1411 | the invariant holds in every state of every execution |
| Guarantees.OneHolder | membership.go:83-138 | in every execution an entry has at most one reservation holder, is never starting and removing together, and its flags say which |
| Guarantees.OneInstance | membership.go:331-356 | in every execution an entry no replacement was late on has at most one live instance and exactly its share of the wait group |
| Guarantees.RestRecovers | membership.go:83-138 | in every execution, an entry claimed with no operation on it, every instance closed and nothing in the wait group is not raced from then on |
| Guarantees.ReturnReleases | groups.go:328-340 | an operation that returned holds no entry any more, its flags are clear, and other entries are untouched |
| Guarantees.OnlyUnregisterRemoves | membership.go:475-481 | an operation that returned leaves the entry removed if and only if it was an Unregister |
| Guarantees.RestIsHonest | lifecycle.go:678-733 | in every execution an entry without an operation, all instances closed, lists no owner; and before a Stop a service without a factory that shows Running or Starting has an instance that will still decide its status |
| Guarantees.TeardownLetsOneThrough | lifecycle.go:830-876 | in every execution, once the teardown of a self-healing service is cancelled and until it is started again, no instance comes up but the one whose restart was already past its check |
| Guarantees.WaitGroupIsLiveEras | lifecycle.go:154-161 | in every execution the wait group is never negative and covers the live eras and the health loop; with no entry raced it equals them |
| Guarantees.StopServiceLeavesNothing | membership.go:460-493 | StopService or Unregister returned nil and was not late, which without a factory it never is: no live instance and the owner set empty; a stopped service is Stopped or Succeeded unless a whole Stop writes the status too; without a factory every instance has exited |
| Guarantees.TearDownDrains | membership.go:480-493 | in every execution, a StopService or Unregister of a service without a factory, one it skipped included, leaves its owner set empty even when it failed |
| Guarantees.TimelyStopLeavesNothing | membership.go:585-605 | the same in terms of the one moment that decides: no restart past its check when the stop chose its exit channel |
| Guarantees.StopsNeverExceedLaunches | lifecycle.go:528-532 | in every execution, to the end of a whole Stop, Stops do not exceed Starts and Restarts once no launch is under way, unless Stop found a replacement before its own stop was done; a late replacement of a self-healing service makes no difference |
| Guarantees.CrashLoopsEnd | lifecycle.go:779-808 | no instance reports more than one crash, and one that gave up undisturbed reported exactly one; with a retry limit and no reset, restarts since zero are within retryCount, which is within maxRetries; a last instance that has reported its crash undisturbed and exited left the entry Crashed, until an operation writes the status |
| Guarantees.GateStaysSucceeded | lifecycle.go:441-449 | a Succeeded gate stays so through every stop until a new start or its removal; under a whole Stop, if nothing that could still bring this gate up was in flight when it cancelled |
| Guarantees.FoundIsSnapshot | lifecycle.go:1300-1335 | what Stop found is the state of the entries when it cancelled the context |
| Guarantees.StopLeavesNothing | lifecycle.go:1356-1400 | a whole Stop that returned nil and found nothing that could still add to the wait group: no live era anywhere and an empty wait group, whatever else it raced and whatever was done before |
| Guarantees.StopEndsEntries | lifecycle.go:1356-1400 | a whole Stop that returned nil: a registered entry is Stopped or Succeeded if every operation Stop found on it was past its last other status, or it is a succeeded gate that nothing could start |
| Guarantees.StopCommitsCompleted | lifecycle.go:1395-1401 | in every execution, a whole Stop commits Stopped and counts only an entry whose stop sequence was completed, after the wait group has run empty |
| Guarantees.StopStopsOnce | lifecycle.go:1329-1334 | and if Stop found no operation on it, its stop sequence ran exactly once |
| Outcomes.ExitDecides | lifecycle.go:707-724 | in every execution, when the newest instance of a registered entry has exited without finding a teardown and no operation has written the status since its launch: without a factory an error has left it Crashed with one report, any other exit Stopped with none and its stop counted; a self-healing service has given up with its retries used up, Crashed, with one report |
| Outcomes.ExitIsWhatStartReturned | lifecycle.go:629-660 | and the exit that decides is what Start returned |
| Outcomes.WaitingShowsExit | lifecycle.go:810-818 | in every execution, while an undisturbed self-healing service waits for its restart, it is Crashed after an error and Stopped after any other exit |
| Outcomes.ExitDropsTeardown | entry.go:352-365 | in every execution, a registered service without a factory has no teardown context before its first instance and once the newest one has exited, unless a start has armed one, and a gate has none unless it runs |
| Outcomes.StartIsFresh | lifecycle.go:63-74 | in every execution, a start gets an owner that no instance has or had and a teardown context that is not cancelled |
| Outcomes.RestartIsFresh | lifecycle.go:880-924 | and the heir of an instance that restarts such an owner |
| Outcomes.DeadOwnsNothing | lifecycle.go:820-828 | in every execution, an instance that waits for its restart or has exited owns no subscription |
| Outcomes.DeliberateIsSilent | entry.go:240-248 | in every execution, while an entry is claimed for removal or a stop, its teardown context is cancelled or the orchestrator stops, no instance reports a crash that was not judged before |
| Outcomes.TakerOwnsStatus | lifecycle.go:708-713 | in every execution, as long as an entry is claimed for a removal or a stop, and of a self-healing one the teardown context cancelled, no instance writes the status that was not past its check before |
| Outcomes.UndisturbedExitDecides | lifecycle.go:678-724 | and if nobody takes the service down and the orchestrator does not stop from the launch of an instance until it has exited, and still is the newest, and no operation writes the status, the exit is judged: one report and Crashed for an error or a self-healing service that gave up, else Stopped without a report |
| Outcomes.AbortEndsStopped | lifecycle.go:843-860 | in every execution, a restart aborted by a shutdown or by a stop that has let go since, and a service that gave up under one, ends Stopped as long as nobody claims the entry, starts it or writes its status |
| StartOutcomes.StartPutsUp | lifecycle.go:19-198 | in every execution, a start or replacement that asked its hook and returned before any shutdown has started the entry exactly once, with its one new instance launched, its gate decided by what Start returned, or its schedule running; if the hook failed or the start condition did not hold, nothing was started and the service is Stopped |
| StartOutcomes.SuccessMeetsHook | lifecycle.go:19-60 | a start or replacement that returned without failure has asked its hook, or launched its schedule, since it claimed the entry |
| StartOutcomes.ReplacementIsAnew | membership.go:336-348 | in every execution, from the reset of ReplaceService until it returns, before any shutdown, its start finds no retry counted and the stop latch open |
| Failures.FailureHasCause | membership.go:249-356 | in every execution an operation reports a failure of an entry if and only if a step of its own went wrong: the entry gone or being taken down, its hook, start condition, schedule, Start, the validation of a replacement, its stop sequence or the wait for its exit; and a stop is completed if and only if its sequence ran and neither that nor the wait was cut short |
| StopOutcomes.StopIsCountedOnce | lifecycle.go:441-449 | in every execution, a StopService or StopGroup that found a service active and returned with its stop completed has it counted exactly once, by itself or by the exit that won the latch; for a self-healing service if StopService awaited it in time |
| StopOutcomes.GroupStopEnds | groups.go:187-190 | in every execution, a StopGroup that returned before any shutdown with its sequence completed, as it was if nothing failed, leaves a service without a factory Stopped or Succeeded, unless an instance had its verdict in hand when the entry was claimed |
| StopOutcomes.StopSequenceRunsOnce | lifecycle.go:307-365 | in every execution, whoever stops an entry runs its stop sequence exactly once between the moment it began and its return, before any shutdown |
| Races.LateReplaceDoubles | membership.go:331-356 | from every reachable state with a replacement about to choose its channel and a restart past its check, an execution leads to two live instances with two wait-group shares |
| Races.LateStopLeavesOne | membership.go:585-605 | from every such state of a StopService an execution leads to its successful return over a live instance |
| Races.ReplaceCanDouble | membership.go:331-356 | the first of these happens from the empty orchestrator |
| Races.StopCanMissOne | membership.go:585-605 | and the second |
| StopRaces.TeardownLeavesStopping | lifecycle.go:1356-1400 | an execution in which Stop reports success and a teardown it raced then leaves the entry Stopping |
| StopRaces.StartOutlivesStop | lifecycle.go:1356-1400 | an execution in which Stop reports success and a start it raced then brings the service up |
| StopRaces.ReplaceCountsTwice | lifecycle.go:441-449 | an execution in which a replacement and Stop count the same instance: two Stops, one Start |
| StopUndoing.Reports | lifecycle.go:1387-1400 | from every reachable state past the wait in which no stop has failed, Stop can report success before anything else moves |
| StopUndoing.UnspentUndoesStop | lifecycle.go:355-365 | from every such state, an operation on a registered entry that is not spent and that nothing hinders leads past Stop's success to a status that is neither Stopped nor Succeeded, a stop to Stopping |
| StopUndoing.FoundUnspentUndoesStop | lifecycle.go:355-365 | the same from every reachable state in which Stop is about to cancel and nothing is alive any more, of what Stop then finds |
| StopUndoing.StopEndsOnlyThese | lifecycle.go:1356-1400 | the condition of StopEndsEntries is exact: from every such state in which no operation waits for what has not exited, a registered entry that fails it can end neither Stopped nor Succeeded under a Stop that returns nil |
| StopUndoing.UnbarrenOutlivesStop | lifecycle.go:19-198 | from every such state past the wait, a start or replacement that can still add to the wait group, and does not wait for anything that lives, leads past Stop's success to a live era |
| StopUndoing.FoundUnbarrenOutlivesStop | lifecycle.go:19-198 | the same of what Stop finds when nothing is alive any more |
| StopUndoing.ReplaceCountsAgain | lifecycle.go:441-449 | from every reachable state past the wait in which a replacement not done with its stop and Stop have both seen the entry active, an execution counts two more Stops and no Start or Restart |
| GateRaces.StopLosesGate | lifecycle.go:355-365 | from every reachable state in which Stop is about to cancel and an operation can still bring a gate up, an execution in which the gate succeeds and Stop then marks it Stopping |
| GateRaces.RacingStopLosesGate | lifecycle.go:355-365 | this happens from the empty orchestrator |
| CronTicks.CronEntry.StartCronSchedule | entry.go:372-386 | a new generation that no tick belongs to, under a fresh context, the earlier context cancelled; earlier generations stay sealed |
| CronTicks.CronEntry.CronBegin | entry.go:392-400 | admits a tick exactly in the current, undrained, uncancelled generation, and counts it |
| CronTicks.CronEntry.CronEnd | entry.go:405-416 | counts down in the current generation only, and closes the latch exactly when the last drained tick goes |
| CronTicks.CronEntry.CronDrain | entry.go:422-436 | cancels the context and seals the generation; nothing to wait for exactly when no tick of it is in flight, else an open latch of it; calling it again gives the same latch |
| CronTicks.CronEntry.ResetCronAccounting | entry.go:285-297 | cancels the context and forgets the schedule; ticks in flight become stale and can no longer move the counter |
| CronTicks.CronEntry.EnterGate | cron.go:22-33 | CronSkip passes exactly when nobody runs, and a refused tick had somebody inside the gate |
| CronTicks.CronEntry.LeaveGate | cron.go:22-33 | leaves the gate after the owner is gone and before the tick is counted off |
| CronTicks.CountEnd | entry.go:405-416 | ending a tick takes it out of the count of its own generation and of no other |
| CronTicks.CronEntry.DrainedIsQuiet | entry.go:418-436 | behind a closed latch the generation is over: no tick of it is in flight and none can begin |
| CronTicks.CronEntry.OverOwnsNothing | membership.go:687-701 | once the current generation is over, every owner left belongs to a tick that outlived an earlier schedule, and the entry is swept exactly when there is no such tick |
| CronTicks.CronEntry.OpenLatchIsAwaited | entry.go:418-436 | an open latch of the current generation has a live tick to close it |
| CronTicks.CronEntry.SerialTicks | cron.go:22-33 | outside CronParallel no two ticks are in user code together, unless the entry was reset under a tick inside its gate |
| CronTicks.CronEntry.ResetEntry | entry.go:261-279 | the accounting starts afresh, what was over stays over, and the gate counts as reset exactly when a tick was inside |
| CronTicks.ResetLetsTwoIn | entry.go:261-279 | after such a reset and a new schedule two ticks of CronSkip are in user code together |
| Channels.Channel.TrySend | messenger.go:180-193 | a message is lost exactly when the buffer is full and nobody waits, else handed over or buffered |
| Channels.Channel.DeliveryInOrder | messenger.go:170-197 | received plus buffered messages are an in-order part of what was addressed, all of it unless a buffer was full |
| Channels.TakenInOrder | messenger.go:170-197 | what non-blocking sends deliver is a subsequence of what was sent |
| Messaging.Messenger.RegisterOwner | messenger.go:65-78 | one live state for each live id; a dead state is never handed out |
| Messaging.Messenger.Subscribe | messenger.go:119-141 | a dead owner gets a closed channel and leaves no trace; otherwise exactly one slot is added |
| Messaging.Messenger.Unsubscribe | messenger.go:142-165 | takes exactly this channel out of its bucket without closing it, drops empty buckets, and does nothing the second time or after a drain |
| Messaging.Messenger.Publish | messenger.go:170-197 | each registered channel gets one send for every time its topic is named, counted as in the multiset of the topics, or one when none is, and every channel sent to is open |
| Messaging.Messenger.DrainOwner | messenger.go:302-321 | closes and removes exactly this owner's channels, each once, and kills its state; nothing of other owners changes |
| Messaging.Messenger.Drain | messenger.go:282-296 | closes every registered channel once and retires every owner |
| Messaging.PutCuts | messenger.go:147-161 | removal in place keeps every other channel in its one slot and leaves no empty bucket or topic |
| Owners.StepInv | membership.go:668-701 | every separately locked step keeps listed ids live and drained ids out of the lists |
| Owners.ListedIsLive | membership.go:658-673 | in every execution what an entry lists is live in the root map and listed by no other entry |
| Owners.DrainedStaysDead | messenger.go:302-321 | a drained id never becomes live or listed again |
| Owners.NewOwnerIsListed | membership.go:668-673 | in every execution newOwner returns an id that nobody ever had, live and listed by its entry |
| Owners.ReleaseRetires | membership.go:679-701 | in every execution, what releaseOwner or drainService takes leaves the entry at once and is dead in the root map, for good, when the call returns |
| Owners.NobodyWaits | membership.go:668-701 | no thread in these calls waits for another |
| Owners.RestIsExact | membership.go:687-701 | with no thread in between, the root map holds exactly what the entries list |
| StopBudget.RunSequence | lifecycle.go:390-426 | the sequence ends when hook, Stop and after-hook are over, each cut off at its bound, and at the timer if that comes first; it is completed exactly if nothing was cut off |
| StopBudget.AwaitDone | membership.go:617-633 | a wait for the exit ends at the exit, at once if that has passed, and at the deadline at the latest; it succeeds exactly if the exit came by then |
| StopBudget.StopEntry | lifecycle.go:390-426 | the exact end of an entry, also when something hangs: its sequence is cut off at what is left of the deadline and its exit awaited until then; Stop is invoked after at most half of it, strictly before the timer; without a deadline it ends exactly if nothing hangs, when all that is awaited is over; it is verified exactly when its own durations and cap allow it and, with a deadline, hook, Stop and exit keep to their shares of it |
| StopBudget.VerifiedIsPrompt | lifecycle.go:404-411 | a verified stop ends when its hook, Stop and after-hook are over, or at its exit if that is later, whatever the deadline |
| StopBudget.SomeDeadlineSuffices | lifecycle.go:390-426 | a stop that is verified without a deadline is verified with some deadline |
| StopBudget.MoreTimeHelps | lifecycle.go:390-426 | and then with every later one |
| StopBudget.StopCascade | membership.go:454-473 | each entry of a cascade begins when the one before it ended and ends as StopEntry says; n entries end no later than the deadline plus n nanoseconds, whatever hooks and Stops do; without one the cascade ends exactly if none of them hangs |
| StopBudget.CascadeIsVerified | membership.go:454-473 | if no entry hangs and the deadline leaves more than twice what all sequences take, counted from the last exit, every entry that would be verified alone is verified |

## Left out

- Guarantees.StopsNeverExceedLaunches: covers entries that stay registered (and removed self-healing ones until a whole Stop), since removal and a failed whole Start reset the latch under an abandoned instance.
- Guarantees.CrashLoopsEnd: the bound covers entries that stay registered, since removal sets the counter back under an abandoned instance.
- Guarantees.StopServiceLeavesNothing: says nothing of the ticks of a cron entry, which has no instance; `CronTicks.CronEntry.OverOwnsNothing` does.
- StopUndoing.ReplaceCountsAgain: starts past Stop's wait, with what the replacement awaits gone; that it takes Stops past Starts plus Restarts is shown from the empty orchestrator (`StopRaces.ReplaceCountsTwice`), since earlier stops may have been left uncounted.
- StopUndoing.StopEndsOnlyThese: starts with nothing alive, as does `StopUndoing.FoundUnbarrenOutlivesStop`; from a state with live instances the converses apply once Stop has waited for them (`StopUndoing.UnspentUndoesStop`, `StopUndoing.UnbarrenOutlivesStop`).
- StopOutcomes.StopSequenceRunsOnce: counts the sequences that operations run, as does `Guarantees.StopStopsOnce`; the cleanup of a restart runs the same hooks (lifecycle.go:890) and is part of its step `Rearm`.
- Guarantees.ReturnReleases: the clear of `starting` in startOneService and the second one in its caller (lifecycle.go:27-28, membership.go:133-138) are one release step; with two, the later clear could drop the reservation of a third party.
- Guards that only reject are not part of the lifecycle steps (hard-dependency status, re-entry, which entries a cascade selects), so the theorems of `Guarantees` cover more executions than the code has; selection and refusal are in `Teardown`.
- The order in which one operation visits its entries is free in `Shutdown`; `StopPasses.StopAll` and `Dependents.HardDependentsOrder` give it.
- StartGroup with its end-of-group sweep by entry (groups.go:80, 135-139), whole Start with its unconditional flag (lifecycle.go:1010-1011) and its rollback: best effort by their own documentation; entries start one by one here.
- A whole Stop of an orchestrator that was never started, which does nothing.
- `teardownActive` and the check of `removed` and `removing` in startOneService each read two atomics in one step.
- In-place slice filtering is modelled by its value (`Registry.FilterOut`); aliasing of the old backing array is not.
- Publish is one step for each call although it holds only a read lock; its sends are atomic per channel, so interleaved publishes permute sends without changing what each channel records.
- Cron parsing and timing: the grammar is the parameter `cronParses`, a firing is a call of `CronBegin`. The cron wait inside the lifecycle succeeds or times out freely; what it waits for is `CronTicks`.
- Health loop and probes, readiness, backoff arithmetic, logging, metrics plumbing beyond the counters named above, reply topics, typed helpers, signal handling and panics: user code and goroutine ids are parameters or choices.
- An absolute bound on the time of a whole Stop, which waits for the health loop and the scheduler without a deadline.
- Counting stops of cron entries exactly once: their start does not renew the latch (membership.go:713-726), so at most once is what holds.
