# Verification of the sidecar supervisor

A Dafny model of `sidecar-core`, the library that runs helper processes ("sidecars") beside an
application: it orders them by dependency, starts them, checks their health, restarts them with
backoff, stops them in reverse order, and kills what a previous run left behind.
`dafny verify dfyconfig.toml` checks everything.

## How the model is built

**One supervisor** (`Lifecycle`). A supervisor waits at one of seven places (`Loc`) for the outside
world: a command, a port, the outcome of a spawn or of a probe, an exit, a timer. `Feed` gives its
reaction to one answer: a straight line of *effects* (a command consumed, an ack, a state given to the
sink, a state put on the watch channel, the port cell, spawn, kill, the pid map changed, the pid file
rewritten, ...), each of them visible to somebody else, in program order. The effects performed so far
form a `History`, and `ViewOf` says what a history amounts to: state published, state visible to
waiters, child, port, pid entry, open command, restarts used.
`Discipline` is the contract: for each effect, the situations in which it is in order. `LifecycleProofs`
shows that no reaction ever violates it; `LifecycleTheorems`, `Restarts` and `RedundantStart` read
the promises to the user off it, for all runs. `Answers` says the same machine in another way, without
locations, counters or a task: what comes next is a table over the log of what was done, and the two are
proved to have the same runs with the same logs. `AnswerLaws` has what a user sees of it: which states a
command or a failure publishes, with which delays and reasons, how many starts, and which port.

`SupervisorTask` is the same supervisor as a class with nested loops and fields that change, shaped
like `run`, `active_loop`, `spawn_once`, `wait_healthy`, `stop_process` and `backoff_or_fail`; it is
proved to perform exactly the effects that `Feed` plans, for every sequence of answers.

**The whole fleet** (`Fleet`). A manager call is a program of two operations: post a command and wait
for its ack, or await health. Calls, supervisors and the OS are interleaved one *effect* at a time:
between the two halves of `set_state`, or between changing the pid map and flushing it, anybody else may
move. Queues are FIFO with 8 places; a waiter sees only the latest value of a watch
channel; a child may die at any moment. `FleetInvariants` and `FleetRuns` prove an invariant of all
reachable worlds; `FleetTheorems`, `Recovery` and `Exceptions` draw the theorems from it. Calls may be
dropped half-way, and so may the manager. `Manager` has the calls themselves as methods with the loops of
the program, proved to issue exactly those programs and to report the right error.

**One `start_all`** (`StartAllTheorems`). If the manager is asked for one `start_all` and for nothing
else, how long does it take, where can it stop, and exactly when does every waiter return? `Reactions` and
`StartAllRuns` have what every step keeps, crashes included; `StartAll` the fuel and the worlds in which
nothing moves; `StartAllReturns` and `StartAllTheorems` the conditions and the theorems; `GivingUp` what
becomes of those who await a waiter that gave up. That a condition is exact takes runs that hang:
`StartAllPeace` and `StartAllBuilding` let runs go on to their end and bring sidecars up or down in them,
`StartAllHangs` builds the runs without a crash, `StartAllCrash` and `StartAllStuck` those with one.
`StaleFailure` is about `start`: when it fails on a failure that was there before.

**Algorithms and data.** `Graph` (walks, cycles, pigeonhole), `NameOrder` (sorted arrangements are
unique), `OrderRule` (which topological order, said without an algorithm), `Ordering` (`topo_sort` with its
maps, queue and multiplicities, and that it follows that rule), `Closure` (`collect_deps`
and the chain of `start`), `PidStore` (the store and the cleanup of orphans), `LogRing` (the log
buffer), `Launch` (validation, cleanup, registration).

What is asked of the outside world: a spawned pid is not the pid of a child that is still alive, a
child is reported as exited only when it has exited, `kill_tree` ends the child it is called on, and
writing the pid file succeeds. Everything else is arbitrary.

## Where the code says something else than its documentation

The model follows the code.

- `start` "waits for each dependency" (`manager.rs:104-107`, `README.md:68`), but `restart` waits for
  nothing: `Exceptions.RestartBypassesGate`. `FleetTheorems.GatedStartup` holds along whatever was not restarted
  before it was ever started, and `Exceptions.GatedExactlyWhen` gives the exact condition: if restart is
  called before a first Start only for certain names, every run is gated if and only if none of those
  has a dependency.
- `WaitingForDeps` (`state.rs:11-12`) is never published; `Starting` (`state.rs:14`) is published before
  the process is spawned.
- "Starting an already-running sidecar is a no-op" (`manager.rs:106-107`) holds when it is Healthy; in
  Backoff a Start respawns at once with a fresh schedule, and during the health wait it stays in the queue.
- A Shutdown taken during backoff publishes nothing; the last state stays Backoff. A Stop taken by an
  idle or failed supervisor leaves its state alone. A Stop taken while Healthy is acknowledged before
  `Stopped` is published.
- "Recycled pids are safe" (`README.md:63`): a recycled pid that runs an executable of the same name is
  killed. `PidStore.Store.CleanupStale` and `Recovery.CrashRecovery` say exactly what is killed.
- `DependencyCycle` names a sidecar that *reaches* a cycle, not necessarily one on it; with duplicate
  names in an otherwise acyclic list the name is empty. `Ordering.TopoSort` states both.
- `start_all` need not return: if a waiter gives up because its dependency failed, its own sidecar stays
  Idle, and whoever awaits that one waits forever (`GivingUp.GivingUpBlocks`). The configuration alone
  decides whether this can happen (`StartAllTheorems.StartAllReturnsExactlyWhen`, whatever fails and
  crashes): it can if and only if some sidecar k lists a dependency d that has dependencies itself and is
  neither listed by k before nor a direct or indirect dependency of something listed before, while all of
  those can pass their health check. So it always returns if no sidecar that has a dependency is depended
  on (`StartAllTheorems.FlatListsReturn`). As long as no child ends after it was Healthy, d must also
  depend on some x that is not among those (`StartAllTheorems.ReturnsWithoutCrashExactlyWhen`). A chain of
  three in which the last one names the first before the second shows the difference: it returns unless
  a child ends after it was Healthy (`StartAllTheorems.ListedFirstReturns`), and hangs if the first one
  does at the wrong moment (`StartAllTheorems.CrashHangsChain`).
- `start` gives `DependencyFailed` when the dependency has failed (`manager.rs:223-231`), but it may read
  a failure that was there before its own Start: the dependency acknowledges the Start first and shows
  Starting after that. `StaleFailure.NewUnlessShown` says that the dependency must have shown Failed as it
  consumed this Start, and `StaleFailure.LeftOverFails` that wherever it did, the call may fail while the
  dependency turns Healthy.

## Model

| member | source | states |
|---|---|---|
| Ordering.TopoSort | crates/sidecar-core/src/domain/ordering.rs:9-63 | Ok exactly when names are distinct, every dependency is registered and the graph is acyclic; then a permutation with every dependency before its dependents, in which each name is, of those that could come next, the one that became free last (ties: the last in the configuration, or the greatest name among those without dependencies); otherwise the first unknown dependency, or a name that reaches a cycle, or the empty name when only duplicates are to blame |
| Ordering.CheckKnown | crates/sidecar-core/src/domain/ordering.rs:10-20 | reports the first unknown dependency in list order, and none exactly when all are known |
| Ordering.CountEdges | crates/sidecar-core/src/domain/ordering.rs:22-30 | in-degrees count repeated dependencies by multiplicity; each list of dependents keeps the order of the configuration |
| Ordering.FirstQueue | crates/sidecar-core/src/domain/ordering.rs:32-37 | however the map is iterated, the first queue is the one sorted arrangement of the names of in-degree zero |
| Ordering.LowerDependents | crates/sidecar-core/src/domain/ordering.rs:42-51 | the decrement never underflows and every dependent is found in the map; a name is put at the end of the queue when its count reaches zero, as the rounds of `Ordering.RoundsFollow` do |
| Ordering.Drain | crates/sidecar-core/src/domain/ordering.rs:39-52 | the main loop ends, and keeps the invariant that the remaining counts are the unfinished dependencies |
| Ordering.RoundReady | crates/sidecar-core/src/domain/ordering.rs:42-47 | before each round every count is at least what the round takes away |
| Ordering.RoundKeeps | crates/sidecar-core/src/domain/ordering.rs:39-52 | one round keeps the invariant of the loop |
| Ordering.RoundsFollow | crates/sidecar-core/src/domain/ordering.rs:32-52 | after any number of rounds the order follows the rule, and the queue is a stack in which each name goes before those below it |
| Ordering.OnlyOneOrder | crates/sidecar-core/src/domain/ordering.rs:32-52 | two topological orders that follow the rule are the same: the rule leaves no choice |
| Ordering.StuckIsTrapped | crates/sidecar-core/src/domain/ordering.rs:54-60 | the names left over each depend on another left over, and are those of positive count |
| Ordering.Verdict | crates/sidecar-core/src/domain/ordering.rs:54-62 | the length test decides: equal lengths exactly when names are distinct and the graph is acyclic |
| Ordering.OrderIsTopological | crates/sidecar-core/src/domain/ordering.rs:39-62 | what the loop produced is topological when nothing is left over |
| Ordering.AnyStuck | crates/sidecar-core/src/domain/ordering.rs:55-59 | some name of positive count, or the empty name when there is none |
| Graph.TrappedReachesCycle | crates/sidecar-core/src/domain/ordering.rs:54-60 | from a finite set in which everything depends on something inside, a cycle is reachable (pigeonhole) |
| Graph.TopologicalIsAcyclic | crates/sidecar-core/src/domain/ordering.rs:54-62 | a topological order excludes cycles |
| NameOrder.SortedUnique | crates/sidecar-core/src/domain/ordering.rs:37 | two sorted arrangements of the same names are equal |
| Closure.CollectDeps | crates/sidecar-core/src/runtime/manager.rs:246-258 | ends on cyclic graphs too; adds only reachable names, and what it adds is closed under dependencies |
| Closure.Dependencies | crates/sidecar-core/src/runtime/manager.rs:113-115 | exactly the names reachable by one or more dependency edges |
| Closure.ChainFor | crates/sidecar-core/src/runtime/manager.rs:113-120 | the chain has the sidecar and everything it reaches, each once, each after its own dependencies, in the order in which the start order has them, the sidecar last |
| Closure.FilterIsChain | crates/sidecar-core/src/runtime/manager.rs:116-120 | filtering the start order by the closure gives such a chain |
| Launch.LaunchFleet | crates/sidecar-core/src/runtime/manager.rs:29-56 | no runtime or no valid order: error, nothing touched; the error says which dependency is unknown or which sidecar reaches a cycle; otherwise exactly the orphans of the file are killed, the store is empty on disk, and a valid fleet is returned, in the order of the rule, before anything is spawned |
| Launch.Register | crates/sidecar-core/src/runtime/manager.rs:45-50 | every configuration is registered under its own name |
| PidStore.ProcessTable.KillStale | crates/sidecar-core/src/platform/process.rs:162-195 | answers true exactly for a live process whose image has the expected name, letter by letter the same or an ASCII letter in its other case; that process and no other is gone |
| PidStore.SameExeIs | crates/sidecar-core/src/platform/process.rs:169-175 | comparing names in ASCII lower case is comparing them letter by letter, where a letter equals itself and its other case |
| PidStore.Store.Open | crates/sidecar-core/src/infra/pid_store.rs:31-41 | a missing or damaged file counts as empty |
| PidStore.Store.Record | crates/sidecar-core/src/infra/pid_store.rs:59-69 | sets one entry, and the file follows |
| PidStore.Store.Clear | crates/sidecar-core/src/infra/pid_store.rs:71-74 | removes one entry, and the file follows |
| PidStore.Store.CleanupStale | crates/sidecar-core/src/infra/pid_store.rs:45-57 | in whatever order the map is drained, a live process is killed exactly when some entry has its pid and the name of its image but for ASCII case, and every other process stays; the names returned are entries of the pids killed, one for each; the store is empty in memory and on disk |
| PidStore.DrainOne | crates/sidecar-core/src/infra/pid_store.rs:48-53 | one drained entry: killed and named exactly when stale and not yet killed through another entry |
| LogRing.TailIsSuffix | crates/sidecar-core/src/runtime/manager.rs:92-99 | reversing, taking and reversing back is taking a suffix in order |
| LogRing.Ring.Append | crates/sidecar-core/src/runtime/supervisor.rs:497-501 | the buffer is always what is kept of everything appended |
| LogRing.LatestKept | crates/sidecar-core/src/runtime/supervisor.rs:497-501 | what is kept is the last 500 lines, and the last n of these are the last lines of everything |
| LogRing.Ring.Logs | crates/sidecar-core/src/runtime/manager.rs:87-102 | the last `lines` of the last 500 lines, oldest first, each with its stream in brackets before it |
| LogRing.Ring.ReadBoth | crates/sidecar-core/src/runtime/supervisor.rs:307-339 | however the two readers interleave, each stream enters the history in its own order and nothing is lost or doubled |
| LogRing.SuffixPerStream | crates/sidecar-core/src/runtime/supervisor.rs:497-501 | of each stream the buffer keeps the latest lines, none skipped |
| LifecycleProofs.FeedOuterKeeps | crates/sidecar-core/src/runtime/supervisor.rs:123-146 | a reaction in `run` keeps the discipline and leaves a settled view |
| LifecycleProofs.FeedSpawnKeeps | crates/sidecar-core/src/runtime/supervisor.rs:156-172 | the same for port, spawn and record |
| LifecycleProofs.FeedHealthKeeps | crates/sidecar-core/src/runtime/supervisor.rs:175-190 | the same for the outcome of the health wait |
| LifecycleProofs.FeedMonitorKeeps | crates/sidecar-core/src/runtime/supervisor.rs:197-251 | the same for exit, every command and the closed channel while Healthy |
| LifecycleProofs.FeedWaitingKeeps | crates/sidecar-core/src/runtime/supervisor.rs:438-457 | the same for timer, every command and the closed channel during backoff |
| LifecycleProofs.TakeKeeps | crates/sidecar-core/src/runtime/supervisor.rs:126-137 | a command taken while nothing runs is acknowledged before the next, and a Start or Restart renews the schedule |
| LifecycleProofs.StopChildKeeps | crates/sidecar-core/src/runtime/supervisor.rs:388-409 | from a healthy child, stop_process takes the graceful step if there is one, changes the state to Stopping, leaves no child and no entry, on disk included, and changes nothing else |
| LifecycleProofs.FailKeeps | crates/sidecar-core/src/runtime/supervisor.rs:417-435 | a failure leads to the next numbered Backoff, or to Failed when the schedule is used up |
| Extension.FeedStarts | crates/sidecar-core/src/runtime/supervisor.rs:123-253 | every reaction does at least one thing; what it heard comes first and is heard once |
| SupervisorTask.Supervisor.SetState | crates/sidecar-core/src/runtime/supervisor.rs:117-121 | the sink hears the state before the watch channel shows it |
| SupervisorTask.Supervisor.StopProcess | crates/sidecar-core/src/runtime/supervisor.rs:388-409 | performs the effects of the machine's stop: Stopping, the graceful step if there is one, the kill, the entry cleared |
| SupervisorTask.Supervisor.BackoffOrFail | crates/sidecar-core/src/runtime/supervisor.rs:411-458 | first publishes the next delay of the policy, or Failed when there is none; under Never it gives up at once; its outcome and the attempt counter agree with the machine, whatever ends the wait |
| SupervisorTask.Supervisor.SpawnOnce | crates/sidecar-core/src/runtime/supervisor.rs:255-303 | sets the port cell, spawns and records as the machine does, or fails before; on success cell and child have the offered port if it is dynamic, the configured one if it is fixed, none otherwise |
| SupervisorTask.Supervisor.WaitHealthy | crates/sidecar-core/src/runtime/supervisor.rs:341-386 | on success nothing has happened; on failure the history grows by the kill of the child, after its reaping if it had ended, and by the clearing of its entry |
| SupervisorTask.Supervisor.MonitorChild | crates/sidecar-core/src/runtime/supervisor.rs:197-251 | the inner loop follows the machine through any number of redundant Starts |
| SupervisorTask.Supervisor.ActiveLoop | crates/sidecar-core/src/runtime/supervisor.rs:150-253 | the nested loops follow the machine |
| SupervisorTask.Supervisor.Run | crates/sidecar-core/src/runtime/supervisor.rs:123-146 | for every sequence of answers the task performs exactly the history of the machine, that history is disciplined, and its log is the one that `Answers` tells |
| Answers.LogDecides | crates/sidecar-core/src/runtime/supervisor.rs:123-458 | a sequence of answers is a run exactly when each answer is one that the log so far waits for, and the log of the run is told by a table over the log alone: every effect of every reaction, in order, with states, delays, reasons, ports and pids |
| Answers.OneMoreAnswer | crates/sidecar-core/src/runtime/supervisor.rs:123-458 | the same for one answer more, after any run |
| Answers.FeedAnswers | crates/sidecar-core/src/runtime/supervisor.rs:123-458 | each reaction of the machine adds to the log what the table says |
| AnswerLaws.CommandsPublish | crates/sidecar-core/src/runtime/supervisor.rs:218-247 | on the sink and on the watch channel: while Healthy a Stop or Shutdown publishes Stopping and Stopped, a Restart Stopping and Starting, a Start nothing; in Backoff a Stop publishes Stopped, a Start or Restart Starting, a Shutdown nothing; otherwise a Start or Restart publishes Starting and the rest nothing; a Shutdown and nothing else ends the task |
| AnswerLaws.ClosedPublishes | crates/sidecar-core/src/runtime/supervisor.rs:243-247 | the closed channel publishes Stopping while Healthy and nothing otherwise |
| AnswerLaws.FailuresPublish | crates/sidecar-core/src/runtime/supervisor.rs:411-435 | a failure publishes one state: under Never Failed, under OnCrash the next delay of the list, or Failed when as many Backoff states as there are delays came since the schedule began afresh; the reason tells a denied port, a failed spawn, a failed probe, a death during the health wait and an exit apart, with the exit code |
| LifecycleTheorems.AllRunsDisciplined | crates/sidecar-core/src/runtime/supervisor.rs:123-146 | every run keeps the discipline |
| LifecycleTheorems.PublishedIsAPath | crates/sidecar-core/src/runtime/supervisor.rs:117-253 | every published trace is a path of one lifecycle graph from Idle; each Healthy directly follows a Starting; Stopping goes to Starting only on a Restart consumed since the Healthy before; WaitingForDeps never appears |
| LifecycleTheorems.StopNeverRestarts | crates/sidecar-core/src/runtime/supervisor.rs:218-247 | between a consumed Stop and a later Starting lies a consumed Start or Restart; after a consumed Shutdown nothing is consumed, spawned or started |
| LifecycleTheorems.AcksInOrder | crates/sidecar-core/src/runtime/supervisor.rs:126-139 | commands are consumed in send order, each acknowledged exactly once before the next is consumed |
| LifecycleTheorems.AckMeaning | crates/sidecar-core/src/runtime/supervisor.rs:218-242 | at an ack there is no child and no entry, on disk included; except that a Start taken while Healthy finds its child running and recorded |
| LifecycleTheorems.OwnershipAlways | crates/sidecar-core/src/runtime/supervisor.rs:154-200 | at every moment child, entry, port and state go together; while waiting for health or monitoring the store maps the name to the current child and the shared port is the injected one; in the outer loop and in backoff there is neither child nor entry |
| LifecycleTheorems.FreshPortPerSpawn | crates/sidecar-core/src/runtime/supervisor.rs:256-278 | every child is given a port as its strategy says, chosen after the child before it was spawned and put in the shared cell first |
| AnswerLaws.PortIsInjected | crates/sidecar-core/src/runtime/supervisor.rs:265-278 | the port in the cell and in the child is the very one that was offered if the strategy is dynamic, the configured one if it is fixed, none otherwise |
| LifecycleTheorems.GraceBeforeKill | crates/sidecar-core/src/runtime/supervisor.rs:388-407 | on request a child is killed only after its graceful step, if it has one: a signal, or a request if it was given a port, and the grace wait |
| Restarts.RestartBudget | crates/sidecar-core/src/runtime/supervisor.rs:150-253 | at most L+1 Starting states per charged command and L more per crash after a long healthy run |
| Restarts.BudgetStep | crates/sidecar-core/src/runtime/supervisor.rs:150-253 | the potential behind that bound: no effect in order overdraws it |
| Restarts.BackoffNumbering | crates/sidecar-core/src/runtime/supervisor.rs:417-435 | Backoff states are numbered 1, 2, 3, ... with the delays of the schedule; Failed comes exactly when it is used up; at each Starting the time waited out is the sum of those delays |
| AnswerLaws.BackoffsFollowPolicy | crates/sidecar-core/src/runtime/supervisor.rs:417-435 | under Never no Backoff is ever published; under OnCrash the k-th Backoff since the schedule began afresh is Backoff(k, k-th delay), and Failed comes exactly when there were as many as there are delays |
| AnswerLaws.StartsBounded | crates/sidecar-core/src/runtime/supervisor.rs:150-253 | under Never at most one Starting for each charged command; under OnCrash with L delays at most L+1 for each and L more for each crash after a long healthy run |
| Restarts.SpawnLoopEnds | crates/sidecar-core/src/runtime/supervisor.rs:150-253 | left alone, the spawn loop takes no more steps than a rank fixed by schedule and attempt |
| Restarts.EpisodeFails | crates/sidecar-core/src/runtime/supervisor.rs:156-217 | every kind of failed attempt, from a denied port to an early crash, uses up exactly one restart |
| Restarts.PersistentFailure | crates/sidecar-core/src/runtime/supervisor.rs:411-458 | a sidecar that keeps failing is in Backoff after each of the next L - attempt failures and in Failed after exactly one more |
| RedundantStart.FeedAlike | crates/sidecar-core/src/runtime/supervisor.rs:193-197 | two tasks that agree but for Start traffic react alike to every input |
| RedundantStart.RedundantStartsInvisible | crates/sidecar-core/src/runtime/supervisor.rs:238-242 | deleting every Start taken by the monitor loop leaves a valid run with the same states, spawns, pids, ports, attempts and store changes |
| Manager.Session.Watch | crates/sidecar-core/src/runtime/manager.rs:152-168 | ends well exactly when a Healthy is seen before any Failed and before the sender is gone |
| Manager.SidecarManager.AwaitHealthyOf | crates/sidecar-core/src/runtime/manager.rs:213-242 | unknown dependency, failed dependency, or Ok when it turns healthy |
| Manager.SidecarManager.Start | crates/sidecar-core/src/runtime/manager.rs:108-132 | unknown name: error, nothing issued; otherwise follows the chain, in the start order, with a Start to each member and an await after each but the last; Ok exactly when every await turns out well, else it breaks off right after the first that does not and names it |
| Manager.SidecarManager.FollowChain | crates/sidecar-core/src/runtime/manager.rs:122-131 | the loop of `start` |
| Manager.SidecarManager.StartAll | crates/sidecar-core/src/runtime/manager.rs:136-153 | one waiter per sidecar, in start order, with all of its dependencies |
| Manager.SidecarManager.RunWaiter | crates/sidecar-core/src/runtime/manager.rs:151-172 | awaits the dependencies in their order and posts the Start exactly when every one turned healthy; otherwise gives up at the first that did not |
| Manager.SidecarManager.Stop | crates/sidecar-core/src/runtime/manager.rs:179-188 | unknown name: error, nothing issued; otherwise one Stop |
| Manager.SidecarManager.Restart | crates/sidecar-core/src/runtime/manager.rs:190-199 | unknown name: error, nothing issued; otherwise one Restart, and no await |
| Manager.SidecarManager.ShutdownAll | crates/sidecar-core/src/runtime/manager.rs:203-211 | one Shutdown to each sidecar, against the start order |
| FleetInvariants.AffectKeeps | crates/sidecar-core/src/runtime/supervisor.rs:117-253 | any effect of any supervisor in order keeps the invariant of the fleet |
| FleetInvariants.ReactKeeps | crates/sidecar-core/src/runtime/supervisor.rs:123-253 | so does any reaction to an answer of the outside world, the closed channel of a dropped manager included |
| FleetRuns.StepKeeps | crates/sidecar-core/src/runtime/manager.rs:108-242 | so does every step of callers, supervisors and children, a dropped call or manager included |
| FleetRuns.ReachedInv | crates/sidecar-core/src/runtime/manager.rs:29-242 | every reachable world satisfies the invariant |
| FleetTheorems.ProgramsGate | crates/sidecar-core/src/runtime/manager.rs:108-177 | every manager call that posts a Start has first awaited each direct dependency |
| FleetTheorems.ShutdownProgramOrder | crates/sidecar-core/src/runtime/manager.rs:203-211 | shutdown_all posts to everything that depends on a sidecar before it posts to it |
| FleetTheorems.GatedStartup | crates/sidecar-core/src/runtime/manager.rs:108-177 | in every interleaving every Starting is preceded by a Healthy of each transitive dependency, along any path on which nothing was restarted before it was ever started |
| FleetTheorems.ReverseShutdown | crates/sidecar-core/src/runtime/manager.rs:203-211 | when a supervisor consumes a Shutdown, every transitive dependent is shut, has no child and no entry, and never acts again |
| FleetTheorems.ShutIsFinal | crates/sidecar-core/src/runtime/supervisor.rs:232-237 | once shut, a supervisor consumes, spawns and starts nothing |
| FleetTheorems.ShutdownCompletes | crates/sidecar-core/src/runtime/manager.rs:203-211 | when shutdown_all returns no child is alive, the store is empty in memory and on disk, and nothing is ever spawned again |
| Recovery.FileMirrorsStore | crates/sidecar-core/src/infra/pid_store.rs:59-84 | in every interleaving of mutations and flushes the map holds what each supervisor last recorded and the file equals it but for names between mutation and flush |
| Recovery.OneLiveChild | crates/sidecar-core/src/runtime/supervisor.rs:193-197 | a sidecar never has two live direct children |
| Recovery.CrashRecovery | crates/sidecar-core/src/infra/pid_store.rs:45-69 | if the app dies, every live child whose supervisor is not between spawn and record is in the file, and the next cleanup kills it exactly when its image carries the recorded name but for ASCII case |
| Recovery.HealthyIsRecorded | crates/sidecar-core/src/runtime/supervisor.rs:171-190 | from Healthy to Stopped no child escapes the file |
| Exceptions.RestartBypassesGate | crates/sidecar-core/src/runtime/manager.rs:190-199 | in any fleet, a restart call alone makes any sidecar publish Starting while no other has done anything |
| Exceptions.GatedExactlyWhen | crates/sidecar-core/src/runtime/manager.rs:108-199 | if restart is called before a first Start only for given names, every run is gated exactly when none of those names has a dependency |
| FleetTheorems.FirstInFirstOut | crates/sidecar-core/src/runtime/supervisor.rs:80 | the commands sent to a sidecar are those it has consumed, in the same order, followed by those in its queue |
| FleetTheorems.EightPlaces | crates/sidecar-core/src/runtime/supervisor.rs:80 | a command queue never holds more than eight commands, and a send goes through exactly when there is a place or the task is gone |
| StartAllRuns.StepStartAll | crates/sidecar-core/src/runtime/manager.rs:136-177 | in a lone start_all every step keeps each waiter and its sidecar together: untouched until its Start is posted, then sent that one Start only; a waiter gives up only on a dependency that has published Failed |
| Reactions.FeedPublishes | crates/sidecar-core/src/runtime/supervisor.rs:150-217 | every answer but a command adds at most six effects and one state; Healthy is that state just on entering the monitor, Failed just on giving up for good |
| StartAll.FeedSteady | crates/sidecar-core/src/runtime/supervisor.rs:150-217 | before Healthy every answer keeps a sidecar on its way: Healthy is published only by the step into the monitor and never left, Failed comes last, and the attempt stays within the schedule |
| StartAll.StepBurns | crates/sidecar-core/src/runtime/manager.rs:136-177 | every step of a lone start_all but the notice that a healthy child has ended uses up fuel, whatever fails and is retried |
| StartAll.Halted | crates/sidecar-core/src/runtime/manager.rs:151-172 | in a lone start_all, where nothing is enabled but the end of a child and the notice of it, every supervisor rests in its outer loop or its monitor with an empty queue, and each waiter has returned or awaits an untouched sidecar |
| StartAll.StartAllProgress | crates/sidecar-core/src/runtime/manager.rs:136-177 | as long as no child ends once it was Healthy, and however often ports, spawns, probes and children fail before: a bound on the steps fixed by dependencies and schedules, at most one Start for each sidecar, and unless one has failed for good a step is enabled or every waiter has returned and every sidecar is up |
| StartAllReturns.SafeReturns | crates/sidecar-core/src/runtime/manager.rs:151-176 | crashes included: with no place to hang in the dependency lists, a lone start_all has all waiters returned wherever nothing is enabled but the end of a child and the notice of it |
| StartAllReturns.SafeReturnsWithoutCrash | crates/sidecar-core/src/runtime/manager.rs:151-176 | the same under the weaker condition on the lists, if no child has ended after it was Healthy |
| StartAllPeace.PeacefulEnd | crates/sidecar-core/src/runtime/manager.rs:136-177 | where every running child is alive, a lone start_all that can go no further leaves nothing enabled but the end of a child, and only of one whose sidecar is in its monitor |
| StartAllHangs.HangWithoutCrash | crates/sidecar-core/src/runtime/manager.rs:151-176 | where a listed dependency and one of its own are both not needed before it, and what is needed can be probed, some run in which no child ends leaves a waiter that never returns |
| StartAllStuck.HangByCrash | crates/sidecar-core/src/runtime/manager.rs:151-176 | where a listed dependency that has dependencies is not needed before it, all of those are, and what is needed can be probed, some run in which one of those crashes leaves a waiter that never returns |
| StartAllStuck.CorneredRun | crates/sidecar-core/src/runtime/manager.rs:151-172 | a waiter that awaits an untouched sidecar, whose own waiter is at one that has failed, stays there in every continuation |
| StartAllTheorems.StartAllReturnsExactlyWhen | crates/sidecar-core/src/runtime/manager.rs:136-177 | for every fleet, and with children ending at any time: all runs of a lone start_all that come to an end have all waiters returned if and only if the dependency lists have no place to hang |
| StartAllTheorems.ReturnsWithoutCrashExactlyWhen | crates/sidecar-core/src/runtime/manager.rs:136-177 | the same over the runs in which no child ends once it was Healthy, up to where no further such step is enabled: if and only if the lists have no place to hang of the narrower kind |
| StartAllTheorems.FlatListsReturn | crates/sidecar-core/src/runtime/manager.rs:136-177 | crashes included: in a fleet in which nothing that has a dependency is depended on, every run of a lone start_all that comes to an end has all waiters returned |
| StartAllTheorems.EndsUp | crates/sidecar-core/src/runtime/manager.rs:136-177 | crashes included: a lone start_all that comes to an end with no sidecar failed has every waiter returned and every sidecar up |
| StartAllTheorems.ListedFirstReturns | crates/sidecar-core/src/runtime/manager.rs:136-177 | a chain of three whose last member lists the first before the second: all waiters return in every run in which no child ends once it was Healthy |
| StartAllTheorems.CrashHangsChain | crates/sidecar-core/src/runtime/manager.rs:151-172 | the same chain has a run with a crash after Healthy that ends with a waiter that never returns |
| GivingUp.GivingUpBlocks | crates/sidecar-core/src/runtime/manager.rs:151-168 | once a waiter of a lone start_all gave up, its sidecar does nothing for ever, and whoever awaits it can neither go on nor give up |
| StaleFailure.NewUnlessShown | crates/sidecar-core/src/runtime/manager.rs:122-130 | when a start reads Failed at a dependency that has not returned, that one has consumed the Start of this very call, and has shown a new Failed since, unless it showed Failed just then and is still on its way to Starting; one that is at rest has shown a new Failed |
| StaleFailure.LeftOverFails | crates/sidecar-core/src/runtime/manager.rs:223-231 | from every reachable world in which a failed dependency has the Start of a call next in its queue, the call may give up on that failure while all that the dependency publishes from then on is Starting and Healthy |
| StaleFailure.StaleFailureHappens | crates/sidecar-core/src/runtime/manager.rs:108-132 | in every fleet such a world is reached for every start chain of two or more whose first member can be probed |

## Left out

- Processes, signals, Job Objects and `taskkill`: a process is an entry in a table; killing removes it. Only the direct child is followed, since an unexpected exit while Healthy does not kill the rest of its tree.
- Ports and probes: whether a port can be had, which one, and whether a probe passes or times out are inputs. A TCP or HTTP probe without a port never passes. The model also allows a probe failure where the check is immediate, which the program never reports.
- Matching of stdout markers, and the late reader of an old process that may set the marker again after its reset: both are covered by the probe outcome being arbitrary.
- Time: the seconds between Healthy and an exit are part of the input; a backoff delay counts as waited out when its timer fires. Grace periods and probe deadlines have no length.
- Integer widths: attempts, pids, ports and seconds are unbounded. The attempt never exceeds the length of the schedule, so its 32 bits overflow only for a schedule of more than 2^32 entries.
- Failures of the file system and of JSON: writes succeed; a file that cannot be read counts as empty.
- Fleet.WaiterProgram: each waiter of `start_all` is a caller of its own; that `start_all` itself then joins them adds nothing that others can observe.
- StartAll.StartAllProgress: does not bound the steps of a run in which a child ends after its sidecar was Healthy, because a crash after a long healthy run renews the schedule; `StartAllTheorems.EndsUp` and the exact condition for returning include such crashes.
- `names`, `state`, `port`, `auth_token` and the lookup by name in `logs`: reads of one field.
- Environment, working directory, arguments, token generation, tracing, and the flag that silences log events.
- Configuration builders, binary resolution, the Tauri plugin, its JavaScript bindings and permissions. `Config.exe` is the file name of the resolved binary.
