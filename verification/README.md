# Postjen: the job compiler, the run scheduler and its surroundings

Postjen runs jobs. A job is a definition with nodes that depend on one another; a run
executes the nodes on a built-in worker or on remote agents, stops launching after a failure
or a cancel request, waits for what is under way, and ends with a verdict. This project
models that behaviour and proves it correct.

| file | models |
|---|---|
| `JobTypes.dfy` | job definitions, before and after resolution |
| `Graph.dfy` | dependency graphs, and the specification `KahnOrder` of the execution order |
| `Kahn.dfy` | `topological_order`: Kahn's algorithm with counted edges and a FIFO queue |
| `Definition.dfy` | `validate` and `resolve`, and what the scheduler may rely on |
| `RunState.dfy` | the run protocol as a transition system (`Can`, `Do`, `Execution`) |
| `RunInvariant.dfy`, `RunSteps.dfy` | the invariant `Inv`, and its proof for every kind of step |
| `RunTheorems.dfy` | life cycle of rows, dependency safety, isolation and order of runs |
| `RunOutcomes.dfy` | verdicts, job rows, offline agents, draining, early cancel |
| `RunPlacement.dfy` | nodes are sent to the agents that their definitions ask for |
| `RunProgress.dfy` | scans are fixpoints, nothing gets stuck, outcomes are consumed once |
| `RunCancel.dfy` | what becomes of a cancel request, by the state that accepts it; runs that cannot be started |
| `RunReports.dfy` | what an accepted report does to the life cycle, and to the verdict on a run that is over |
| `RunLateReports.dfy` | what it does to a run in hand, and to the verdict at its end |
| `Server.dfy` | the handlers, workers, monitor and scheduler as a class that updates its tables in place |
| `Counterexamples.dfy` | inputs and executions that leave the documented or expected behaviour |
| `SkippedSuccess.dfy` | an execution in which the documented rule for success is not followed |
| `RunInputs.dfy` | parameters of a run, secrets, and the environment of a launched node |
| `Cron.dfy` | cron triggers: one pass over the jobs, and coverage of the schedule over many ticks |
| `Logs.dfy` | log numbering and paging with a cursor |

**The protocol.** The state holds the tables `job_runs`, `node_runs` and `agents`, the local
variables of `execute_run`, and five history variables (tasks in the hands of a worker, the
definition each run was started with, the nodes whose rows were inserted for a run that could not
be started, the runs in the order picked, the runs in which a cancel was observed). The scheduler, the built-in worker, the agents, the heartbeat monitor and the
users take steps in any order. `Inv` says that the scheduler's `results` and `running_nodes`
agree with the rows, that flags have causes, that launched nodes have only successful
dependencies, that no row is under way on an offline agent, and that a run that is over has
finished rows and the right verdict. It holds in every state of every execution.

**The program.** `Server.Server` is the imperative side: its fields are the tables, and each
method updates them as the code does. Its `Valid()` says that the history of the object is an
execution of the protocol, so the theorems about all executions hold of the program. Inside
`ExecuteRun` and `ProcessNextRun` arbitrary outside requests happen between any two steps of the
scheduler; they are given as a script.

**The order.** `KahnOrder` lists each node once, dependencies first, nodes in the order in which
their last dependency came out, ties in definition order. At most one order meets it. The
scheduler needs it: that a run never ends with an unresolved node, and that one pass over the
nodes is a fixpoint, hold for lists with dependencies first and are proved from what `Resolve`
ensures (`Definition.PlanOrdered`). Without the order they fail:
`Counterexamples.DisorderLeavesOrphans` is a list without a cycle, but with a node before its
dependency, that leaves a node unresolved.

**Runs that cannot be started.** The table `node_runs` refuses timeouts below 1 (db/schema.sql:89) and
above the range of its column, and rows are inserted one by one. A run whose definition resolves
to such a timeout fails, and the rows inserted before the refused one stay pending for ever.
`Definition.InsertableIff` says which definitions get past this point, `Definition.StubIsPrefix`
which rows are left otherwise, and `RunCancel.AbandonedForever` what becomes of them.

## Assumptions

- One HTTP handler, one worker pick or finish, one monitor pass, and the scheduler's look at one
  node together with assigning and queueing it are each one atomic step. The code is finer: it
  selects and then updates without a guard (crates/postjen-server/src/http.rs:439-467, 926-968,
  1023-1069 and 1164-1176, crates/postjen-server/src/runner.rs:248-250 and 530-547). In particular, a
  monitor pass between a heartbeat's authentication and its update would be undone, and one between
  a report's authentication and its update overwritten: `RunOutcomes.OfflineForever` and
  `RunTheorems.FinishedForever` rest on the assumption there.
- No database errors except the refusal of a row by the schema, no crashes, no agent is deleted during a run, and nobody acts over HTTP as
  the agent `local`.
- In the protocol an agent reports only tasks it was handed and has not reported. The handler does
  not enforce this; see the departures below.
- New runs get larger ids. Only `RunTheorems.PickedInOrder` assumes in addition that the clock does
  not go back.

## Departures of the code from its documentation

- crates/postjen-server/src/http.rs:1025 announces a check that the reported node is running. The
  code checks only the assignment. A second report, as sent after a lost response
  (crates/postjen-server/src/agent_worker.rs:16-29), turns a node of a successful run into a failure:
  `Counterexamples.SecondReportBreaksVerdict` when the run is over, and
  `Counterexamples.MidRunReportBreaksVerdict` when it is still in hand.
  `RunReports.ReportKeepsVerdictIff` says exactly which accepted reports leave the verdict of a run
  that is over right. For a run in hand, `RunLateReports.ReportKeepsInvIff` says exactly which ones keep
  the invariant, and `RunLateReports.ReportInHandVerdictIff` exactly when the verdict at the end is
  right. `RunReports.ReportKeepsLifeCycleIff` lists the accepted reports that respect the life cycle.
- docs/implementation-policy.md:492-503 lets a cancel request end only as canceled, failed or timed
  out. `Counterexamples.CancelCanComeTooLate` is an execution in which one ends in success.
  `RunCancel.CancelEndsInSuccessIff` says exactly when: the request is accepted after the scheduler has
  taken in the success of every node and looked at the flag for the last time.
- A run canceled before it is picked is never picked, and stays `cancel_requested` without rows
  (`RunCancel.QueuedCancelStays`). One canceled between the pick and the first look at the flag ends
  canceled with every node skipped, unless it cannot be started at all
  (`RunCancel.PickedCancelIsHeeded`).
- docs/implementation-policy.md:516 calls a run a success when every node succeeded or was skipped and
  at least one succeeded. The code does so only if no cancel was observed
  (`RunOutcomes.DocumentedSuccessIff`); `SkippedSuccess.SkippedRunIsCanceled` is a run to which
  the rule applies and that ends canceled.
- usage.md:392 promises a run when a scheduled time has come. A tick that fires and falls
  exactly on a scheduled instant loses that instant for good; `Cron.Coverage` says that an
  instant is covered if and only if this does not happen, and `Cron.LostInstant` is an instance.
- Validation checks each node's own timeout for zero, but not for size, and not the job's default.
  `Counterexamples.ZeroDefaultIsAccepted` is a definition that is accepted and resolves, but whose
  run fails when its rows are inserted; `Definition.InsertableIff` is the exact condition.
- While a cancel is requested and nodes are under way, waiting returns at once every time. These
  rounds are proved to change nothing (`RunProgress.WakeUpsChangeNothing`).

## Model

| member | source | states |
|---|---|---|
| Kahn.TopologicalOrder | crates/postjen-core/src/definition.rs:246-285 | on unique ids with known dependencies it succeeds if and only if no chain of `depends_on` entries leads back to its start; it then returns the one order that meets `KahnOrder`, with every id once and each entry of each `depends_on` before its node |
| Kahn.MentionCycleIff | crates/postjen-core/src/definition.rs:253-257 | the graph has a cycle if and only if the `depends_on` fields do |
| Kahn.OrderIsExecutable | crates/postjen-core/src/definition.rs:253-257 | an order that meets the specification has every entry of each `depends_on` field strictly before its node |
| Graph.KahnOrderUnique | crates/postjen-core/src/definition.rs:259-278 | the specification of the order has at most one solution, so any change of the queue discipline would break it |
| Graph.LevelOrder | crates/postjen-core/src/definition.rs:259-278 | the longest dependency path below a node never gets shorter along the order |
| Graph.RootsFirst | crates/postjen-core/src/definition.rs:259-263 | nodes without dependencies come before all others and keep their definition order |
| Graph.OrderedIsAcyclic | crates/postjen-core/src/definition.rs:280-284 | a list with dependencies first exists only for graphs without cycles |
| Graph.BlockingIsCyclic | crates/postjen-core/src/definition.rs:280-282 | nodes each waiting for another one among them contain a cycle, so an incomplete order is a cycle and never a false alarm |
| Kahn.BuildEdges | crates/postjen-core/src/definition.rs:247-257 | initial counters count edges with repeats; each adjacency list holds every dependent once per mention, in definition order |
| Kahn.InitialQueue | crates/postjen-core/src/definition.rs:259-263 | the queue starts with exactly the nodes without dependencies, in definition order, and the loop invariant holds |
| Kahn.EmitStep | crates/postjen-core/src/definition.rs:266-267 | popping the queue leaves exactly the popped node's edges to subtract; a pop happens at most once per node |
| Kahn.CountDown | crates/postjen-core/src/definition.rs:268-271 | each decrement starts from a positive counter, and the counters stay equal to the edges from nodes not yet popped |
| Kahn.Release | crates/postjen-core/src/definition.rs:268-276 | after a node's list is processed, exactly the nodes whose last edge it was have joined the queue, each once and in rank order |
| Kahn.MissingStep | crates/postjen-core/src/definition.rs:249-252 | emitting a node settles its repeats in a dependency list, no more and no less |
| Kahn.OutgoingCount | crates/postjen-core/src/definition.rs:253-257 | a node occurs in the adjacency list of a dependency as often as it mentions it |
| Kahn.Outcome | crates/postjen-core/src/definition.rs:280-284 | when the queue is empty, the length test tells a complete order from a cycle in both directions |
| Definition.CheckNode | crates/postjen-core/src/definition.rs:212-227 | accepts exactly the nodes with a valid id, a program, a non-zero own timeout and non-empty output paths, else names the first fault of the node |
| Definition.CheckNodes | crates/postjen-core/src/definition.rs:209-231 | accepts exactly when every node is acceptable and no id is used twice, else names the first fault of the first node at fault |
| Definition.CheckDependencies | crates/postjen-core/src/definition.rs:233-239 | accepts exactly when every dependency names a node, else names the first that does not |
| Definition.Validate | crates/postjen-core/src/definition.rs:196-243 | accepts exactly the definitions whose fields meet all requirements, acyclicity included; otherwise makes the first complaint in the order of the checks, which is true of the definition |
| Definition.WellFormedIff | crates/postjen-core/src/definition.rs:196-295 | the requirements, read off the fields with the characters of ids and white space spelled out, are what the checks establish |
| Definition.ProperIdIff | crates/postjen-core/src/definition.rs:287-295 | ids are a lower-case letter followed by lower-case letters, digits, hyphens and underscores, and nothing else |
| Definition.FirstComplaintUnique | crates/postjen-core/src/definition.rs:196-243 | a definition with faults has one first complaint, so validation's answer is determined |
| Definition.ResolveNode | crates/postjen-core/src/definition.rs:140-175 | fails exactly without any working directory; else each setting is the node's, then the job's, then the built-in default, and the node's environment overrides the job's |
| Definition.ResolveNodes | crates/postjen-core/src/definition.rs:133-176 | the resolved nodes are the definition's, in the order given, or the first node of the order without working directory is named |
| Definition.Resolve | crates/postjen-core/src/definition.rs:118-194 | succeeds if and only if the definition is well formed and all nodes have a working directory; after validation it can only name the first node of the Kahn order without one; each node is resolved once, in that order, and the plan made of them carries out each node with its own dependencies, target and timeout, or its job's |
| Definition.PlanOrdered | crates/postjen-core/src/definition.rs:133-135 | what `resolve` produces has unique non-empty ids and dependencies first, which the scheduler's theorems rest on |
| Definition.PlanOfMatches | crates/postjen-core/src/definition.rs:140-175 | the plan has one task for each node and no others; dependencies are the entries of the node's `depends_on`, target and timeout the node's or else the job's or else the built-in ones |
| Definition.AllResolved | crates/postjen-core/src/definition.rs:133-176 | every node is resolved exactly once |
| Definition.InsertableIff | crates/postjen-server/src/runner.rs:576-610 | the table takes all rows of a resolved definition if and only if no own timeout is too large and the default, where used, is in range |
| Definition.StubIsPrefix | crates/postjen-server/src/runner.rs:577-608 | when it does not, exactly the rows before the first refused one in the order are inserted |
| Definition.RowsOfResolved | crates/postjen-server/src/runner.rs:576-610 | both of these for whatever `resolve` returns |
| RunSteps.StepKeepsInv | crates/postjen-server/src/runner.rs:139-286 | every step of every participant keeps the agreement between the scheduler's variables and the tables, and moves rows only along their life cycle |
| RunSteps.VisitStep | crates/postjen-server/src/runner.rs:201-257 | leaving, skipping, failing or queueing the next node keeps the invariant, whatever agent is chosen |
| RunSteps.PrepareStep | crates/postjen-server/src/runner.rs:184-186 | inserting the pending rows and marking the run running keeps the invariant and touches no other run |
| RunSteps.InsertSomeStep | crates/postjen-server/src/runner.rs:577-608 | inserting only the first rows of a run that cannot be started keeps the invariant and touches nothing else |
| RunSteps.ResultStep | crates/postjen-server/src/runner.rs:268-280 | taking in an outcome, or the cancel wake-up under the empty key, keeps agreement, flags and skips consistent |
| RunSteps.WorkerStep | crates/postjen-server/src/http.rs:926-968 | picking, finishing, polling, reporting and the monitor keep the invariant, on the built-in worker and on agents |
| RunSteps.UserStep | crates/postjen-server/src/http.rs:435-504 | enqueueing, canceling, registering and heartbeats keep the invariant |
| RunSteps.MonitorKeepsTables | crates/postjen-server/src/runner.rs:507-555 | a monitor pass leaves no queued or running row on an offline agent and changes only rows under way |
| RunSteps.LaunchDeps | crates/postjen-server/src/runner.rs:206-236 | a node passes the dependency checks only when the rows of all its dependencies are successes |
| RunSteps.NoOrphans | crates/postjen-server/src/runner.rs:199-266 | with dependencies first, a scan that leaves nothing running leaves no node without a result |
| RunSteps.StatusIsVerdict | crates/postjen-server/src/runner.rs:283-298 | the status computed from the in-memory results is the verdict on the rows, the phantom key notwithstanding |
| RunSteps.FinalizeStep | crates/postjen-server/src/runner.rs:283-285 | finishing a run writes the verdict and leaves the run ended |
| RunInvariant.ChangeRow | crates/postjen-server/src/runner.rs:758-784 | changing one row along the life cycle keeps all table invariants |
| RunTheorems.AlwaysInv | crates/postjen-server/src/runner.rs:188-281 | the invariant holds in every state of every execution |
| RunTheorems.RowsForward | crates/postjen-server/src/runner.rs:465-483 | a node row never disappears, only moves forward, and keeps its agent |
| RunTheorems.NoReturn | crates/postjen-server/src/runner.rs:246-256 | no status is entered twice: a node is queued at most once and picked up at most once |
| RunTheorems.FinishedForever | crates/postjen-server/src/runner.rs:530-547 | finished rows never change again, whatever is reported later |
| RunTheorems.TransitiveSuccess | crates/postjen-server/src/runner.rs:201-236 | a node that ever got an agent has only successful transitive dependencies |
| RunTheorems.QueuedMeansDependenciesSucceeded | crates/postjen-server/src/runner.rs:201-251 | once a node has been queued, all its transitive dependencies are successes for the rest of time |
| RunTheorems.PlansStay | crates/postjen-server/src/runner.rs:139-156 | a run keeps the definition it was started with |
| RunPlacement.AssignedAsWanted | crates/postjen-server/src/runner.rs:613-660 | in every reachable state a node with an agent is on one of the name and with all the labels that its target asks for, and on the built-in worker without a target |
| RunPlacement.AssignedOnline | crates/postjen-server/src/runner.rs:613-660 | an agent is online when it is given a node |
| RunPlacement.FailedForWantOfAgent | crates/postjen-server/src/runner.rs:246-256 | a node fails without being sent anywhere only if it has a target and each agent is offline, or of another name, or lacks a label |
| RunPlacement.AgentsStay | crates/postjen-server/src/http.rs:1164-1176 | no step changes the name or the labels of an agent |
| RunTheorems.OneRunAtATime | crates/postjen-server/src/runner.rs:30-40 | whatever is queued or running belongs to the run in execution |
| RunTheorems.Isolation | crates/postjen-server/src/runner.rs:113-137 | two nodes under way at the same time belong to the same run |
| RunTheorems.PickedAtMostOnce | crates/postjen-server/src/runner.rs:114-124 | no run is picked twice, whatever the clock does |
| RunTheorems.PickedFirst | crates/postjen-server/src/runner.rs:114-124 | of two runs queued at the same time the one created first, or with the lower id, is picked first |
| RunTheorems.PickedInOrder | crates/postjen-server/src/runner.rs:114-124 | with a clock that does not go back, runs are picked in the order of creation and of their ids |
| RunOutcomes.VerdictCorrect | crates/postjen-server/src/runner.rs:283-298 | a run that is over has all nodes finished; it is a success if and only if every node is and no cancel was observed, and likewise for each other status |
| RunOutcomes.DocumentedSuccessIff | docs/implementation-policy.md:512-519 | a run that is over is a success if and only if the documented rule for success holds and no cancel was observed; with one, a run to which the rule applies is canceled |
| RunOutcomes.NoOrphansAtExit | crates/postjen-server/src/runner.rs:263-266 | whenever the main loop breaks, every node of the definition has a result |
| RunOutcomes.ObservedHasCause | crates/postjen-server/src/runner.rs:194-197 | the scheduler observes a cancel only if one was requested earlier or an agent reported a node canceled |
| RunOutcomes.StepJobMove | crates/postjen-server/src/runner.rs:701-748 | one step moves a job row only along the edges that occur; a cancel request is followed only by an end |
| RunOutcomes.JobsForward | crates/postjen-server/src/http.rs:455-502 | job rows only move forward: ends are final, and a cancel request is never overwritten by running |
| RunOutcomes.OfflineForever | crates/postjen-server/src/http.rs:856-873 | an agent once offline never comes back, none of its requests is accepted, and nothing under way is assigned to it |
| RunOutcomes.StepHaltedPending | crates/postjen-server/src/runner.rs:230-244 | in a halted run a pending node can only be skipped |
| RunOutcomes.HaltedMeansSkipped | crates/postjen-server/src/runner.rs:193-281 | once a failure, timeout or cancel is recorded, no further node of the run is ever launched, and the pending ones end up skipped |
| RunOutcomes.StopAndDrain | crates/postjen-server/src/runner.rs:268-280 | from the moment in which a failed, timed out or canceled outcome is among the results, or a cancel was seen, pending nodes of the run are never launched and end up skipped |
| RunOutcomes.EarlyCancel | crates/postjen-server/src/runner.rs:194-244 | a cancel seen before the first scan leads to a canceled run with every node skipped, whatever else happens |
| RunOutcomes.DoomedEnds | crates/postjen-server/src/runner.rs:259-285 | a run canceled before any launch is finalized as canceled with all rows skipped |
| RunProgress.ScanFixpoint | crates/postjen-server/src/runner.rs:199-261 | after a scan the untouched nodes are exactly those with an open dependency and no unsuccessful one |
| RunProgress.RescanStutters | crates/postjen-server/src/runner.rs:199-261 | looking again at the nodes of a scanned definition changes nothing, even if a flag was set during the first scan |
| RunProgress.WakeUpsStutter | crates/postjen-server/src/runner.rs:268-280 | in a quiet round a step other than taking in an outcome changes none of the scheduler's variables, and the scheduler's own steps change no table |
| RunProgress.WakeIsQuiet | crates/postjen-server/src/runner.rs:693-695 | a cancel wake-up makes the scheduler quiet: the phantom result unblocks and blocks nothing |
| RunProgress.WakeUpsChangeNothing | crates/postjen-server/src/runner.rs:188-281 | from a cancel wake-up to the next outcome taken in, results, flags and running set are constant and no scheduler step changes a table |
| RunProgress.WaitMoves | crates/postjen-server/src/runner.rs:662-699 | a node waited for is never in a status that would be ignored for ever: it can be taken in, or its worker can move it |
| RunProgress.NeverStuck | crates/postjen-server/src/runner.rs:188-286 | with a run in hand there is always a step that changes the state, the scheduler's own unless it waits for a node |
| RunProgress.StepResolved | crates/postjen-server/src/runner.rs:268-280 | resolved nodes stay resolved, and taking in an outcome resolves a new node |
| RunProgress.CompletionsBounded | crates/postjen-server/src/runner.rs:193-281 | in any execution the scheduler takes in at most one outcome per node of the run |
| RunReports.ReportKeepsVerdictIff | crates/postjen-server/src/http.rs:1025-1069 | a report accepted when the run is over leaves its verdict right if and only if the new status does not outrank the verdict and the verdict keeps a cause |
| RunLateReports.ReportKeepsInvIff | crates/postjen-server/src/http.rs:1025-1069 | a report accepted while the run is in hand keeps the invariant if and only if the scheduler has not taken in the node's outcome, or the report repeats it |
| RunLateReports.ReportInHandVerdictIff | crates/postjen-server/src/agent_worker.rs:16-29 | whatever happens afterwards, the verdict at the end of the run is right if and only if the scheduler had not taken in the node's outcome when the report was accepted, or the reported status does not falsify it |
| RunLateReports.StepBlind | crates/postjen-server/src/runner.rs:188-281 | once a node's outcome is taken in, no step of any participant depends on the outcome in its row |
| RunCancel.CancelInTime | crates/postjen-server/src/runner.rs:193-298 | a cancel request accepted in time is never followed by success |
| RunCancel.CancelTooLate | crates/postjen-server/src/runner.rs:736-748 | a cancel request accepted too late is overwritten by success |
| RunCancel.CancelEndsInSuccessIff | crates/postjen-server/src/http.rs:455-502 | once the run is out of the scheduler's hands it is a success if and only if the request was accepted too late |
| RunCancel.FinalizeSucceedsIff | crates/postjen-server/src/runner.rs:283-298 | finalizing makes the run a success exactly in the states in which a request comes too late |
| RunCancel.QueuedCancelStays | crates/postjen-server/src/http.rs:455-502 | a run canceled before it is picked is never picked, never gets rows, and stays asked to cancel |
| RunCancel.PickedCancelIsHeeded | crates/postjen-server/src/runner.rs:184-244 | a run canceled between the pick and the first look at the flag ends canceled with every node skipped, or failed without having been executed |
| RunCancel.AbandonedForever | crates/postjen-server/src/runner.rs:300-328 | the rows inserted for a run that could not be started are its only rows, stay pending for ever, and the run stays failed |
| Counterexamples.SecondReportBreaksVerdict | crates/postjen-server/src/http.rs:1025-1069 | a reachable ended run whose verdict an accepted second report falsifies |
| Counterexamples.MidRunReportBreaksVerdict | crates/postjen-server/src/http.rs:1025-1069 | a reachable run in hand that ends in success with a failed row after an accepted second report |
| Counterexamples.CancelCanComeTooLate | docs/implementation-policy.md:492-503 | an execution in which a cancel request ends in success |
| Counterexamples.DisorderLeavesOrphans | crates/postjen-server/src/runner.rs:199-266 | nodes without a cycle, listed in the wrong order: the scan ends with nothing running and a node unresolved |
| Counterexamples.ZeroDefaultIsAccepted | crates/postjen-core/src/definition.rs:196-243 | a definition that validates and resolves, with a timeout that the table refuses |
| SkippedSuccess.SkippedRunIsCanceled | docs/implementation-policy.md:512-519 | a reachable ended run with a success and a skipped node that is canceled |
| Server.Server.constructor | crates/postjen-server/src/runner.rs:30-40 | a fresh server is an initial state of the protocol |
| Server.Server.EnqueueRun | crates/postjen-server/src/http.rs:288-309 | a new queued run, and nothing else |
| Server.Server.CancelRun | crates/postjen-server/src/http.rs:435-504 | answers not found, accepted, already canceled or conflict by the run's status; only queued and running runs change |
| Server.Server.RegisterAgent | crates/postjen-server/src/http.rs:784-818 | a blank name is refused; otherwise the new agent is online under its trimmed name, and nothing else changes |
| Server.Server.HeartbeatFrom | crates/postjen-server/src/http.rs:1164-1176 | accepted exactly from agents that are still online |
| Server.Server.PollTask | crates/postjen-server/src/http.rs:910-998 | hands out the agent's queued task that was created first and marks it running; says there is none only when there is none |
| Server.Server.ReportResult | crates/postjen-server/src/http.rs:1018-1108 | refuses unknown credentials, foreign tasks and invalid statuses, else writes the status; a protocol step whenever the task is held |
| Server.Server.PickLocalTask | crates/postjen-server/src/runner.rs:334-362 | the built-in worker takes the queued local task that was created first, or there is none |
| Server.Server.FinishLocalTask | crates/postjen-server/src/runner.rs:424-483 | writes the outcome, with a missing required output turning success into failure |
| Server.Server.CheckAgentHeartbeats | crates/postjen-server/src/runner.rs:507-555 | the two passes over agents and rows together are one monitor pass of the protocol |
| Server.Server.MarkOffline | crates/postjen-server/src/runner.rs:514-528 | exactly the stale agents are offline afterwards, and the count is positive exactly when one was online |
| Server.Server.FailOrphaned | crates/postjen-server/src/runner.rs:530-551 | exactly the queued and running rows on offline agents become failed |
| Server.Server.OldestQueued | crates/postjen-server/src/runner.rs:114-124 | the queued run least in creation time, then id, or none only if none is queued |
| Server.Server.AssignToAgent | crates/postjen-server/src/runner.rs:613-660 | with a target, an agent that is online, of the wanted name and with all the wanted labels, or none only if there is no such agent; without one, the built-in worker |
| Server.Server.FailRunBeforeStart | crates/postjen-server/src/runner.rs:300-328 | the run in hand becomes failed, whatever its status; its rows, if any, stay |
| Server.Server.EnsureNodes | crates/postjen-server/src/runner.rs:576-610 | one pending row per node, and a queued run becomes running while a cancel request is kept; or, at a timeout out of range, only the rows before it |
| Server.Server.InsertRows | crates/postjen-server/src/runner.rs:577-608 | exactly the rows before the first refused one are inserted |
| Server.Server.ReadCancelFlag | crates/postjen-server/src/runner.rs:194-197 | canceling exactly if it was or the run is asked to cancel |
| Server.Server.VisitTask | crates/postjen-server/src/runner.rs:201-257 | the cascade of checks on a node is the protocol's decision, with the same effect on rows and variables |
| Server.Server.WaitForAnyNodeCompletion | crates/postjen-server/src/runner.rs:662-699 | returns a finished running node, or the cancel wake-up only if there is none; nothing of the scheduler has changed meanwhile |
| Server.Server.TakeCompletion | crates/postjen-server/src/runner.rs:268-280 | results, running set and flags after an outcome are the protocol's |
| Server.Server.FinalizeJob | crates/postjen-server/src/runner.rs:283-285 | writes the final status; the run is ended, its status the verdict on its rows |
| Server.Server.ScanNodes | crates/postjen-server/src/runner.rs:199-261 | a scan in the midst of outside events is a run of protocol steps that leaves the scheduler waiting, or finalizing exactly when nothing runs |
| Server.Server.ExecuteRun | crates/postjen-server/src/runner.rs:139-286 | refused exactly when a timeout is out of range; otherwise the run ends with the right verdict, whatever happens in between, unless the outside world stops with no node finished that is waited for |
| Server.Server.ProcessNextRun | crates/postjen-server/src/runner.rs:113-137 | takes the next queued run; if the timeouts are in range, executes one task for each node of its definition, with the node's dependencies, target and timeout, to the verdict; otherwise fails the run, with exactly the rows before the first bad timeout, or none |
| Server.MonitorMatches | crates/postjen-server/src/runner.rs:514-551 | updating agents first and rows second, only if an agent changed, amounts to one monitor pass |
| RunInputs.ResolveParams | crates/postjen-server/src/http.rs:262-273 | fails exactly on the first required parameter without value; else every declared name with a value gets the supplied one or its default, and nothing else is resolved |
| RunInputs.ResolvedTakes | crates/postjen-server/src/http.rs:262-273 | each resolved value is the supplied one or, when none was, the default of the last declaration with one |
| RunInputs.StartRunParams | crates/postjen-server/src/http.rs:262-284 | accepts exactly when no required parameter lacks a value and every supplied one is declared |
| RunInputs.WebhookParams | crates/postjen-server/src/http.rs:1474-1485 | accepts exactly when no required parameter lacks a value, else names the first that does |
| RunInputs.WebhookIsRestrictedStart | crates/postjen-server/src/http.rs:1474-1485 | a webhook resolves its parameters as a manual start would on the declared ones |
| RunInputs.ResolvedUnique | crates/postjen-server/src/http.rs:262-273 | there is only one correct resolution |
| RunInputs.SuppliedWins | crates/postjen-server/src/http.rs:262-273 | a supplied value beats every default, even with repeated declarations |
| RunInputs.InjectParams | crates/postjen-server/src/runner.rs:157-164 | parameters only fill gaps, in whatever order they are visited |
| RunInputs.ResolveSecrets | crates/postjen-server/src/http.rs:1399-1421 | all named secrets with their values, or the first one that is missing or does not decrypt |
| RunInputs.InjectSecrets | crates/postjen-server/src/runner.rs:172-174 | secrets override, in whatever order they are visited |
| RunInputs.LaunchEnv | crates/postjen-server/src/runner.rs:157-182 | for a resolved node, each variable comes from the first of secrets, the node's own settings, its job's defaults and the parameters that has it; or the first bad secret is named |
| RunInputs.LayersLaunch | crates/postjen-server/src/runner.rs:157-182 | the layers amount to: the listed secret, else the node's setting, else the job's, else the parameter, and no other variables |
| Cron.NextAfter | crates/postjen-server/src/scheduler.rs:81-84 | the least scheduled instant strictly later |
| Cron.ShouldTrigger | crates/postjen-server/src/scheduler.rs:72-85 | triggers if and only if some scheduled second lies strictly after the last trigger, or strictly less than 60 s ago when there is none, and strictly before now |
| Cron.TriggerTable.CheckCronTriggers | crates/postjen-server/src/scheduler.rs:48-135 | each enabled, loadable job that is due gets one run and the current second as its last trigger; the others are unchanged |
| Cron.TriggersIsFires | crates/postjen-server/src/scheduler.rs:72-97 | one pass over the job table is one tick for each of its enabled jobs |
| Cron.LastGrows | crates/postjen-server/src/scheduler.rs:128-132 | the recorded trigger time never falls behind a tick that fired |
| Cron.CoveredOnce | crates/postjen-server/src/scheduler.rs:72-132 | no instant is accounted for by two runs, despite trigger times cut to seconds |
| Cron.HitIsMissed | crates/postjen-server/src/scheduler.rs:84-132 | an instant hit exactly by a firing tick is never accounted for |
| Cron.Coverage | crates/postjen-server/src/scheduler.rs:46-132 | with ticks less than a minute apart, an instant from a minute before the first tick up to the latest tick is accounted for by exactly one run, if and only if no firing tick hit it exactly |
| Cron.TooOld | crates/postjen-server/src/scheduler.rs:81-84 | a job that was never triggered gets no run for an instant 60 s or more before the first tick |
| Cron.NothingLostOnceTriggered | crates/postjen-server/src/scheduler.rs:72-97 | once a trigger time is recorded, slow ticks and definitions that do not load lose nothing |
| Cron.LostInstant | crates/postjen-server/src/scheduler.rs:84-132 | a concrete schedule and clock with a lost instant |
| Logs.LogTable.ReportLogs | crates/postjen-server/src/http.rs:1137-1159 | the entries before the first one on an unknown stream are appended in order under the run's next numbers; every run stays numbered 1, 2, 3, ... |
| Logs.LogTable.RecordOutput | crates/postjen-server/src/runner.rs:400-422 | the non-empty outputs are appended in the same way, standard output first |
| Logs.MaxIsCount | crates/postjen-server/src/http.rs:1137-1139 | in a numbered table the largest number of a run is the number of its rows |
| Logs.Query.Limit | crates/postjen-server/src/http.rs:605 | the page size is between 1 and 1000, 200 unless asked otherwise |
| Logs.OrderSorts | crates/postjen-server/src/http.rs:616-618 | rows come out in increasing order of sequence, none lost or added |
| Logs.OrderedAlready | crates/postjen-server/src/http.rs:612-626 | ordering rows that are in increasing sequence leaves them as they are |
| Logs.PageIsPrefix | crates/postjen-server/src/http.rs:605-626 | a page is the beginning of the matching rows; short only if it is all, empty only if there are none |
| Logs.PageHoldsWanted | crates/postjen-server/src/http.rs:605-626 | a page holds only rows of the query's run, stream and node beyond the cursor, in order, and all of them up to the limit |
| Logs.PageSplits | crates/postjen-server/src/http.rs:605-626 | a page and what lies beyond its cursor are together the matching rows, without gap or repeat |
| Logs.CursorBound | crates/postjen-server/src/http.rs:605-626 | a cursor never moves back and never passes the rows that exist |
| Logs.Paging | crates/postjen-server/src/http.rs:605-626 | while log rows and node runs are added, the pages fetched and what lies beyond the cursor are exactly the matching rows in order, each once |
| Logs.ShortPageIsLast | crates/postjen-server/src/http.rs:605-626 | a page shorter than the limit completes the download |
| Logs.FetchedHoldsWanted | crates/postjen-server/src/http.rs:605-626 | once a page is short, the pages together hold exactly the rows of the query's run, stream and node beyond the starting cursor, each once and in order |

## Left out

- Server.Server.ReportResult: a report of a task that the agent does not hold is written as the code does, but no step of the protocol is claimed for it; the exact effects are in `RunReports`.
- Server.Server.EnqueueRun: requires a fresh largest id, which the database provides.
- Server.Server.ExecuteRun: inserting the rows is one step of the protocol; nobody sees some of a run's rows without the others or the refusal.
- Server.Server.WaitForAnyNodeCompletion: sleeping is replaced by a finite script of outside requests; when the script is used up and nothing is finished, waiting ends without a result. Which of several finished nodes is returned stays open, as in the code.
- Server.Server.FinishLocalTask: whether a required output is missing is a parameter.
- Server.Server.CheckAgentHeartbeats: which agents are stale is a parameter; clocks appear only in the cron model.
- Cron.TriggerTable.CheckCronTriggers: a schedule is an increasing sequence of whole seconds; cron expressions are not parsed, and database errors are not modelled.
- Logs.LogTable.ReportLogs: reading the maximum and appending are one atomic step; the agent's credentials and the look-up of the node run come before it.
- Node rows are identified by run and node id, which the schema makes unique (db/schema.sql:100), instead of numeric ids and the `node_ids` map.
- Liveness of workers: that a node under way is eventually finished depends on processes and agents; `RunProgress.NeverStuck` says only that a step is always possible.
- Process execution, timeouts and output capture: the outcome of a node is a parameter.
- Failure reasons, messages, exit codes, timestamps, the event table, artifacts and reruns: they feed no decision modelled here.
- `retry` is resolved as in the code and, as there, used by nothing.
- HTTP routing, JSON and YAML parsing, event streams, tokens and encryption: plumbing; credentials are reduced to an online agent's id, and a secret either decrypts or not.
- Deleting agents, and agents that use the id `local`.
