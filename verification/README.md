# Joust's durable mission kernel, modelled and proved

Joust keeps every mission in one SQLite file and must stay correct when a worker
dies, when it is restarted, and when several workers share the file. This project
models the parts of the kernel that carry that burden, statement by statement, and
proves what they keep over every run.

Tables are maps and sequences. One `with self.connect()` block is one atomic step.
A crash is a stop between two steps: the imperative modules carry a `budget`, the
number of durable writes the process still lives to make, so one contract covers a
crash at every write; the protocol modules are state machines whose runs are
arbitrary sequences of steps of arbitrarily many workers.

| component | files |
|---|---|
| reachability, Option/Result | `graphs.dfy`, `prelude.dfy` |
| task DAG engine | `task_graph.dfy`, `task_table.dfy`, `task_listing.dfy`, `task_admission.dfy`, `task_runs.dfy`, `task_transitions.dfy`, `task_engine.dfy` |
| COMPETE iteration | `selection.dfy`, `compete_loop.dfy`, `competition_runner.dfy`, `action_dispatch.dfy`, `cycle_sequence.dfy` |
| monitor lease, backoff and fingerprint gate | `monitor_lease.dfy`, `monitored_runner.dfy` |
| approval-bound actions | `external_actions.dfy`, `command_approval.dfy`, `command_races.dfy` |
| derived state | `artifact_graph.dfy`, `reconciliation.dfy`, `signal_listing.dfy`, `competition_intelligence.dfy`, `build_loop.dfy` |

## Where the code does less than it seems to

Each of these is stated exactly, with a concrete witness or an if-and-only-if.

- `add_tasks` writes one transaction per task. A batch that passes the checks is
  stored fully or not at all exactly when the process lives for no write, or the
  first task to be written names a dependency twice (the `(task_id, dependency_id)`
  key refuses it), or the process lives for all writes and no task does
  (`TaskRuns.AllOrNothing`, `TaskRuns.TornBatches`).
- Two durable states strand a cycle for good: a crash between the measurement row
  and its event, and an executor whose successful result has a blank summary. From
  every other state a cooperative run finishes the cycle
  (`CompetitionRunner.Run`, `CompetitionRunner.MeasureNow`, `CompetitionRunner.StoreSuccess`).
- A cycle agrees with its execution over every interleaving as long as no owner in
  flight, one that may still store a success, is called gone. One worker at a time
  guarantees that. Otherwise the code can be wrong about an unknown owner older than
  two hours, an owner under another boot id (another host on the same file) and one
  that the operating system fails to report on. Exactly the wrong answers about an
  owner in flight can end in a cycle that disagrees with its execution
  (`ActionDispatch.ExecutionAndCycleAgree`, `ActionDispatch.SerialIsTruthful`,
  `ActionDispatch.WrongAnswerMattersIff`, `ActionDispatch.WrongAnswerRun`).
- A lease lost after the last heartbeat, or while renewals raise, is not noticed: the
  run ends as CHANGED although a successor already holds the row, which stays
  untouched (`MonitoredRunner.Monitor.Settle`, `MonitoredRunner.Monitor.Run`).
- Lease safety needs fresh holder tokens; `verification_monitor.py` passes the
  caller's string, and its release deletes a successor's row exactly if that was
  taken under the same string (`MonitorLease.ReleaseInterferesIffReused`).
- Active rules of one category may disagree, exactly when a rule is replaced while
  another active one repeats it (`Reconciliation.AgreementLostIff`).
- A denial blocks every later request of its category, but not a command granted
  before it, which can still run, any number of times
  (`CommandApproval.RunsAfterDenialIffGrantedBefore`, `CommandApproval.EarlierGrantOutlivesDenial`).
- Reads and writes of the command service are separate transactions that nothing
  serialises. Between processes a denial is final if and only if at that moment no
  request of its category is pending and no process carries a stale reading of it; a
  late grant can overwrite a denial, and a request can follow one
  (`CommandRaces.DenialHoldsIff`, `CommandRaces.GrantOverDenial`, `CommandRaces.RequestAfterDenial`).
- An external action is returned as verified while its own status stays behind, for
  good, exactly if the process that observed the match died right after storing the
  observation (`ExternalActions.Service.Execute`, `ExternalActions.Service.Serve`,
  `ExternalActions.VerifiedButBehind`).
- A commit at which a test failed once is never accepted, even if nothing was
  staged by the repair and the test passes later (`BuildLoop.RealBuildLoop.Attempt`).
- A crash between the two writes of rule supersession leaves the old rule
  SUPERSEDED, and no rule ever links to it. Taken up again, the signal meets the next
  newest active rule of the category: it joins, replaces or conflicts with that one,
  and joins if there is none (`Reconciliation.TornVerdict`, `Reconciliation.TornLinkIsLost`).

## Model

| member | source | states |
|---|---|---|
| TaskGraph.CycleSearch.Visit | hackathon_competitor/task_engine.py:69-78 | the coloured depth-first visit fails only on a graph with a cycle, and otherwise extends a topological order over everything it visited |
| TaskGraph.RequireAcyclic | hackathon_competitor/task_engine.py:64-81 | passes if and only if the dependency graph has no cycle |
| TaskGraph.TopologicalIsAcyclic | hackathon_competitor/task_engine.py:64-81 | an order in which every dependency comes first rules out every cycle |
| TaskAdmission.DependencyErrorMeaning | hackathon_competitor/task_engine.py:35-41 | the check passes exactly when every dependency is known and no task depends on itself |
| TaskAdmission.PreCheckMeaning | hackathon_competitor/task_engine.py:23-41 | which check speaks, in the order of the code: mixed missions, an id twice in the batch, an id already stored, unknown or self dependencies |
| TaskAdmission.PlanIsExact | hackathon_competitor/task_engine.py:46-62 | the rounds save exactly the batch, each task once, every dependency before its dependents |
| TaskAdmission.AcyclicHasPlan | hackathon_competitor/task_engine.py:46-53 | an acyclic combined graph always leaves a task ready, so every round makes progress, the rounds end, and the "cannot be persisted" raise is unreachable |
| TaskAdmission.WrittenIsClean | hackathon_competitor/storage.py:570-588 | the edge table accepts a plan in full exactly when no task repeats a dependency |
| TaskRuns.AllOrNothing | hackathon_competitor/task_engine.py:20-62 | the exact condition, over the batch, the stored tasks and the number of writes the process lives for, under which a checked batch is stored fully or not at all |
| TaskRuns.TornBatches | hackathon_competitor/task_engine.py:48-62 | two batches that pass every check and are half stored: a repeated dependency, and a death between two writes |
| TaskTransitions.BatchAddsItself | hackathon_competitor/task_engine.py:46-62 | a batch changes no stored task, adds only its own tasks as given, and all of them are there exactly when the call succeeds |
| TaskEngine.Engine.InsertTask | hackathon_competitor/storage.py:570-588 | one transaction: row and edges, refused exactly when an edge repeats or names an unknown row, absent after a crash |
| TaskEngine.Engine.AddTasks | hackathon_competitor/task_engine.py:20-62 | result and table are what the pre-checks, the cycle test, the writes and the point of a crash determine; never CannotPersist |
| TaskEngine.Engine.Persist | hackathon_competitor/task_engine.py:46-62 | the rounds write the plan up to the first refused write or the crash |
| TaskEngine.Engine.RefreshReady | hackathon_competitor/task_engine.py:83-104 | promotes exactly the runnable tasks in listing order, after a crash a prefix of them, and returns them sorted |
| TaskEngine.Engine.ListTasks | hackathon_competitor/storage.py:593-599 | every task once, by priority, then by row |
| TaskEngine.ReadyAreRanked | hackathon_competitor/task_engine.py:83-104 | what refresh_ready returns: every runnable task once, by priority, then by age, then by row |
| TaskEngine.CompleteSweeps | hackathon_competitor/task_engine.py:83-247 | a refresh, recovery or cancellation that is not cut short reaches every row it is about |
| TaskEngine.Engine.Claim | hackathon_competitor/task_engine.py:106-115 | starts a READY task and nothing else; a crash changes nothing |
| TaskEngine.Engine.Succeed | hackathon_competitor/task_engine.py:117-144 | finishes a RUNNING task and nothing else; a crash changes nothing |
| TaskEngine.Engine.Fail | hackathon_competitor/task_engine.py:146-169 | counts the retry, sets the doubled timer or fails the task for good; a crash changes nothing |
| TaskEngine.Engine.RecoverRunning | hackathon_competitor/task_engine.py:171-203 | fails exactly the RUNNING tasks as retryable, each returned once; after a crash a prefix of them in listing order |
| TaskEngine.Engine.CancelFrom | hackathon_competitor/task_engine.py:205-229 | the search without a visited set terminates and cancels exactly the root's descendants-or-self that were neither SUCCEEDED nor CANCELLED, each returned once; after a crash some of them and nothing else |
| TaskEngine.Engine.CancelMission | hackathon_competitor/task_engine.py:231-247 | cancels exactly the tasks that were neither SUCCEEDED nor CANCELLED; after a crash a prefix of them in listing order |
| TaskTransitions.OperationsFollowTheTable | hackathon_competitor/task_engine.py:83-247 | the transition table: for every operation, stored task and point of a crash, which rows change and to what |
| TaskTransitions.BelowIsDependents | hackathon_competitor/task_engine.py:205-229 | what a cancellation reaches from a root is what transitively depends on it |
| TaskTransitions.PromotedIffDue | hackathon_competitor/task_engine.py:83-104 | a failed task is promoted exactly when a refresh reaches it, its dependencies are SUCCEEDED and base * 2^(n-1) seconds have passed since its n-th failure |
| TaskTransitions.FailedTaskWaits | hackathon_competitor/task_engine.py:146-203 | a task that fails after n retries, reported or lost with its worker, is not scheduled by any run whose refreshes come before now + base * 2^n, and never if no retry is left |
| TaskEngine.QueueLosesOneWalk | hackathon_competitor/task_engine.py:205-229 | replacing the head of the queue by its children removes exactly one walk: the termination measure |
| TaskTable.TotalDelayClosedForm | hackathon_competitor/task_engine.py:146-169 | the backoff of n retries adds up to base * (2^n - 1) |
| TaskTable.RecoveryResumes | hackathon_competitor/task_engine.py:171-203 | recovery cut short anywhere and repeated fails every RUNNING task exactly once: no retry or delay is charged twice |
| TaskTable.CancellationResumes | hackathon_competitor/task_engine.py:205-247 | cancellation cut short anywhere and repeated cancels what one complete cancellation would; rows already reached keep their time |
| TaskTable.BlockedNeverRuns | hackathon_competitor/task_engine.py:83-104 | a task above a stopped one is never READY, RUNNING or SUCCEEDED |
| TaskTable.DeadlockCharacterised | hackathon_competitor/task_engine.py:83-104 | after a refresh with all timers elapsed, nothing is left to run if and only if every task is done or transitively blocked |
| TaskRuns.RunKeepsSound | hackathon_competitor/task_engine.py:20-247 | every sequence of operations, each cut short anywhere, keeps rows, order, statuses, start counts and delays consistent |
| TaskRuns.EveryReachableTask | hackathon_competitor/task_engine.py:83-203 | in every table that operations and crashes reach: at most max_retries + 1 starts, total backoff at most base * (2^max_retries - 1), READY, RUNNING and SUCCEEDED only above SUCCEEDED dependencies, and the stored timer of a failed task is its failure time plus base * 2^(n-1) |
| TaskRuns.SucceededIsForever | hackathon_competitor/task_engine.py:117-144 | a SUCCEEDED row never changes again, whatever operations and crashes follow |
| Selection.SelectIsLeast | hackathon_competitor/compete_loop.py:106-114 | the chosen candidate is one of them and none precedes it under the four-part key |
| Selection.SelectionIsOrderIndependent | hackathon_competitor/compete_loop.py:93-114 | with unique names every permutation of the candidates gives the same choice |
| Selection.SelectionMaximisesUtility | hackathon_competitor/models.py:555-558 | no candidate has strictly greater utility than the chosen one |
| Selection.UtilityIsImprovementPerCost | hackathon_competitor/models.py:555-558 | utility times the sum of time cost, risk and regression is the improvement; the sum is positive |
| Selection.TiesAreBroken | hackathon_competitor/compete_loop.py:106-114 | equal utility is decided by higher improvement, then lower time cost, then the earlier name |
| Selection.NameLessMeaning | hackathon_competitor/compete_loop.py:106-114 | names are compared at their first difference, a proper prefix first |
| CompeteLoop.Store.CreateCycle | hackathon_competitor/compete_loop.py:27-41 | appends cycle n + 1 or refuses; sequences stay 1..n |
| CompeteLoop.NewRecordIsEmpty | hackathon_competitor/compete_loop.py:36-41 | a new cycle starts at OBSERVE, incomplete, with nothing stored for it |
| CompeteLoop.Store.Observe | hackathon_competitor/compete_loop.py:67-79 | leaves OBSERVE once, with non-blank text; the ledger and all written fields are kept |
| CompeteLoop.Store.Assess | hackathon_competitor/compete_loop.py:81-100 | stores a non-blank bottleneck and unique candidates; the mission follows |
| CompeteLoop.Store.Strategize | hackathon_competitor/compete_loop.py:102-119 | stores the least candidate; its emptiness check never fires |
| CompeteLoop.Store.RecordExecution | hackathon_competitor/compete_loop.py:121-133 | stores a non-blank result once |
| CompeteLoop.Store.Verify | hackathon_competitor/compete_loop.py:135-151 | a verified cycle has evidence |
| CompeteLoop.Store.Measure | hackathon_competitor/compete_loop.py:153-158 | delta is after minus before |
| CompeteLoop.Store.Adapt | hackathon_competitor/compete_loop.py:160-198 | completes the cycle and opens the next unless the mission ends; every crash point and error named |
| CompeteLoop.Store.Terminate | hackathon_competitor/compete_loop.py:200-234 | a terminal mission status never changes; only this cycle is completed |
| CompeteLoop.UpdateKeepsLedger | hackathon_competitor/compete_loop.py:27-234 | forward steps keep sequences 1..n, only the last cycle open, each stage's fields present exactly when passed |
| CycleSequence.TakenIffOvertaken | hackathon_competitor/storage.py:190-194 | the UNIQUE constraint lets an insert through if and only if nobody inserted since the read |
| CycleSequence.InsertAppendsIff | hackathon_competitor/compete_loop.py:27-41 | an insert appends cycle n + 1 exactly if its worker saw all n cycles, and a read lets through exactly who finds no open cycle |
| CycleSequence.RacesKeepLedger | hackathon_competitor/compete_loop.py:27-41 | with the read and the insert apart and any number of workers, sequences stay 1..n and only the last cycle is open |
| CycleSequence.OnlyOneInserts | hackathon_competitor/compete_loop.py:31-35 | of two workers that read the same table only one inserts |
| CompetitionRunner.ObserveStored | hackathon_competitor/observation.py:262-274 | advances from the stored observation; the "different observation" raise is unreachable |
| CompetitionRunner.NameEvidence | hackathon_competitor/observation.py:225-261 | the observation ends up naming evidence, reusing what an earlier process stored |
| CompetitionRunner.RecordSighting | hackathon_competitor/observation.py:203-210 | stores the observation and leaves OBSERVE, or a crash leaves the row for the next run |
| CompetitionRunner.ObservationOf | hackathon_competitor/competition_runner.py:168-178 | resumes from the stored observation or captures one; "without a durable observation" is unreachable |
| CompetitionRunner.StoreSuccess | hackathon_competitor/competition_actions.py:349-370 | three writes; a blank summary leaves a success that can never be recorded |
| CompetitionRunner.CloseOrphan | hackathon_competitor/competition_actions.py:271-285 | an orphaned execution becomes a recorded failure |
| CompetitionRunner.CloseExisting | hackathon_competitor/competition_actions.py:259-285 | every stored execution but a blank success, or one whose owner lives, closes the cycle |
| CompetitionRunner.ExecuteSelected | hackathon_competitor/competition_actions.py:252-379 | only at EXECUTE does it change anything; there it reaches VERIFY from every stored execution but a blank success, and an existing execution is never invoked again |
| CompetitionRunner.Act | hackathon_competitor/competition_runner.py:106-110 | the execution that later stages rely on exists; "without a durable action execution" is unreachable |
| CompetitionRunner.VerifyExecution | hackathon_competitor/competition_runner.py:111-126 | verified iff the execution succeeded; the evidence check never fires |
| CompetitionRunner.MeasureNow | hackathon_competitor/competition_runner.py:127-143 | row then event; exactly one remaining write strands the cycle |
| CompetitionRunner.Judge | hackathon_competitor/competition_runner.py:111-147 | "without a durable measurement" is raised exactly in the measurement window; the stage check never fires |
| CompetitionRunner.Conclude | hackathon_competitor/competition_runner.py:148-166 | the adaptation completes the cycle and sets the mission as planned |
| CompetitionRunner.Run | hackathon_competitor/competition_runner.py:72-166 | from every durable state a cooperative run completes the cycle under way if and only if that is not stranded; a run that returns past the deadline ends the mission as EXPIRED and does nothing else, otherwise it has stored what planner, executor, verifier and measurer answered at every stage still open, applied the adaptation, and opened the next cycle unless that ends the mission; earlier cycles are untouched, no other raise is reachable |
| CompetitionRunner.Serve | hackathon_competitor/competition_runner.py:50-55 | over any number of processes that die anywhere, with the mission halted or ended from outside in between: the ledger grows, each action is invoked at most once, a terminal mission stays as it is, a stranded cycle stays stranded |
| ActionDispatch.ActionRunsAtMostOnce | hackathon_competitor/competition_actions.py:252-321 | over every interleaving and crash, with no lease and a lying oracle: at most one invocation and one row per cycle |
| ActionDispatch.ClaimKeepsAtMostOnce | hackathon_competitor/storage.py:887-910 | the claim is atomic: a second worker gets no slot |
| ActionDispatch.ExecutionAndCycleAgree | hackathon_competitor/competition_actions.py:259-285 | any number of workers and crashes, no lease: if no owner in flight is called gone, a cycle past EXECUTE has a terminal execution and succeeded iff it did |
| ActionDispatch.WrongAnswerMattersIff | hackathon_competitor/competition_actions.py:265-285 | from any state in agreement: calling the owner of a cycle gone can lead to disagreement, with no further wrong answer, if and only if an owner is in flight on it: claimed, or called with success and not saved |
| ActionDispatch.SerialIsTruthful | hackathon_competitor/monitoring.py:96-155 | with one worker inside at a time no answer of the oracle can be wrong about an owner in flight, so the lease suffices |
| ActionDispatch.WrongAnswerBreaksAgreement | hackathon_competitor/competition_actions.py:265-285 | the schedule: a call succeeded and is not yet saved, another worker is told its owner is gone, and the cycle ends failed over a SUCCEEDED row |
| ActionDispatch.WrongAnswerRun | hackathon_competitor/competition_actions.py:265-285 | one whole run of two workers from the empty tables that ends so |
| ActionDispatch.CloseKeepsAgreement | hackathon_competitor/competition_actions.py:381-403 | terminal reconciliation keeps cycle and execution in agreement |
| ActionDispatch.StoredExecutionIsReconciled | hackathon_competitor/competition_actions.py:252-285 | an uninterrupted worker that finds an execution at EXECUTE records a terminal one as it is, fails and records a lost one, leaves a live one alone, and calls nothing |
| ActionDispatch.FreshExecutionIsRecorded | hackathon_competitor/competition_actions.py:286-379 | an uninterrupted worker that finds none claims it, calls once, and records the outcome in row and cycle |
| MonitorLease.LeaseTable.AcquireLease | hackathon_competitor/storage.py:458-493 | takes the row exactly when there is none or it has expired |
| MonitorLease.LeaseTable.RenewLease | hackathon_competitor/storage.py:495-517 | succeeds exactly for the row's holder |
| MonitorLease.LeaseTable.ReleaseLease | hackathon_competitor/storage.py:519-525 | deletes exactly the holder's own row |
| MonitorLease.ExpiredLeaseIsTakenOver | hackathon_competitor/storage.py:458-493 | in every reachable state a fresh token gets the row exactly if there is none or its clock reading has reached the expiry |
| MonitorLease.HolderRenewsAndReleases | hackathon_competitor/storage.py:495-525 | the steps of a worker change the table exactly if the row is its own |
| MonitorLease.UnexpiredClaimIsUnique | hackathon_competitor/monitoring.py:96-180 | over every run, late heartbeats included: two unexpired claims on a key are the same claim and it is the row |
| MonitorLease.SupersededCannotInterfere | hackathon_competitor/monitoring.py:157-180 | a superseded worker's renewals and releases fail for ever and leave the successor's row alone |
| MonitorLease.ReleaseInterferesIffReused | hackathon_competitor/verification_monitor.py:106-132 | once a second run took the row over, the first one's release deletes it if and only if both pass the same holder string |
| MonitoredRunner.DelayNearBase | hackathon_competitor/monitoring.py:31-39 | the wait is 60, 120, 300, 900 or 3600 seconds by the number of failures, within a fifth and up to rounding |
| MonitoredRunner.BackoffGrows | hackathon_competitor/monitoring.py:31-39 | whatever the jitter, one failure more waits strictly longer, up to the fifth |
| MonitoredRunner.RecordKeepsGate | hackathon_competitor/monitoring.py:201-226 | a state that is not on record differs from every earlier cycle's, even when a crash kept one unreserved |
| MonitoredRunner.RunKeepsGate | hackathon_competitor/monitoring.py:258-259 | an iteration completes cycles only with their state on record |
| MonitoredRunner.Monitor.ObserveFirst | hackathon_competitor/monitoring.py:201-234 | a failed collection stores nothing; a state on record starts nothing; a new one is stored as collected and reserved |
| MonitoredRunner.Monitor.Admit | hackathon_competitor/monitoring.py:190-246 | a cycle with a stored observation is always let through, whatever the world looks like now; one without is let through exactly if its collected state is not on record; "no durable observation" is unreachable |
| MonitoredRunner.Monitor.RunAcquired | hackathon_competitor/monitoring.py:182-267 | CHANGED if and only if the run ends normally, nothing is paused, and the cycle was observed before or brings a new state; with cooperative callbacks that completes the cycle, so a crashed iteration is always resumed; at most the cycle under way is started |
| MonitoredRunner.Monitor.Settle | hackathon_competitor/monitoring.py:145-155 | FAILED, with one more failure and its wait, if and only if the iteration failed or a heartbeat noticed the loss of the lease; the release touches only the own row either way |
| MonitoredRunner.Monitor.Run | hackathon_competitor/monitoring.py:96-155 | BACKING_OFF if and only if the next attempt lies ahead; LEASED_OUT only under an unexpired row; a due run with a free lease, cooperative callbacks and an observed cycle or a new state completes the cycle; under the lease FAILED if and only if the iteration failed or the loss was noticed; however a run under the lease ends, the lease is given back and a successor's row is left alone |
| MonitoredRunner.Monitor.Serve | hackathon_competitor/monitoring.py:96-267 | over any number of invocations and crashes an observed state triggers at most one action, ever |
| MonitoredRunner.StatesActOnce | hackathon_competitor/monitoring.py:195-258 | cycles whose action ran observed different states |
| MonitoredRunner.StartsAreBounded | hackathon_competitor/monitoring.py:195-258 | no more iterations start than states were observed |
| ExternalActions.Service.Propose | hackathon_competitor/approvals.py:49-110 | one action per idempotency key: the same intent returns it, another is refused, a crash leaves no action |
| ExternalActions.Service.Decide | hackathon_competitor/approvals.py:275-297 | decides a pending approval once, with confirmation only |
| ExternalActions.Service.CallExecutor | hackathon_competitor/approvals.py:168-175 | the call is made of a granted action, with its own key and no stored result |
| ExternalActions.Service.Attempt | hackathon_competitor/approvals.py:132-250 | at most one call, none when a result is stored; a matching observation is stored under an older status exactly if the process dies between the two writes |
| ExternalActions.Service.Execute | hackathon_competitor/approvals.py:112-250 | verified actions are returned untouched, ungranted ones refused without a call; otherwise the observation decides: VERIFIED for a match, AWAITING_EXTERNAL for a pending outcome, FAILED for a mismatch or a broken observer, unchanged if nothing could be read; the exact number of writes left that strands a verified action behind its observation |
| ExternalActions.Service.DeliverHandoff | hackathon_competitor/agent_index.py:389-438 | only a receipt with a reference counts as delivered; then the marker means VERIFIED, its absence AWAITING_EXTERNAL; a handoff is never a mismatch |
| ExternalActions.Service.PollHandoff | hackathon_competitor/agent_index.py:366-387 | never delivers again; a waiting handoff becomes VERIFIED exactly with the marker, keeps waiting without it or when the registry is unreadable, and FAILED when the reader breaks |
| ExternalActions.Service.Serve | hackathon_competitor/approvals.py:42-250 | over every sequence of requests and crashes: calls only when granted and with the own key, none after a stored result, VERIFIED only with a matching observation and its evidence; once a match is stored the action row never changes and the same observation is returned |
| ExternalActions.VerifiedButBehind | hackathon_competitor/approvals.py:209-250 | one whole run: proposed, granted, executed up to the observation row; whatever is requested later, the action stays EXECUTED and is returned as verified |
| ExternalActions.DeliveredThenVerified | hackathon_competitor/agent_index.py:366-438 | one whole run: delivered without a marker, polled any number of times, then with the marker: VERIFIED after exactly one delivery |
| ExternalActions.CallKeepsInv | hackathon_competitor/approvals.py:149-168 | a call made in EXECUTING is granted, carries the own key and finds no stored result |
| ExternalActions.ObservationKeepsInv | hackathon_competitor/approvals.py:209-226 | a stored observation cites stored evidence of an executed action |
| ExternalActions.ProposalKeepsInv | hackathon_competitor/approvals.py:69-97 | keys stay unique |
| ExternalActions.ApprovalsKeepInv | hackathon_competitor/approvals.py:257-297 | a decision never takes a grant away from a started action |
| CommandApproval.Service.GetCommand | hackathon_competitor/command_approval.py:129-151 | a pending request reads as EXPIRED exactly from its expiry on, and is stored so |
| CommandApproval.Service.GrantCommand | hackathon_competitor/command_approval.py:153-164 | grants exactly a request that is pending and not yet expired |
| CommandApproval.Service.DenyCommand | hackathon_competitor/command_approval.py:166-187 | denies exactly a request that is pending and not yet expired; a denied one is a no-op |
| CommandApproval.Service.ExecuteIfGranted | hackathon_competitor/command_approval.py:195-206 | runs if and only if granted |
| CommandApproval.Service.HasActiveOrDeniedRequest | hackathon_competitor/command_approval.py:208-231 | reports the last request of the category exactly when it is denied, or pending and not expired |
| CommandApproval.Service.ProposeUnlessBlockedCommand | hackathon_competitor/command_approval.py:233-256 | a blocked category gets no new request |
| CommandApproval.AtMostOneLive | hackathon_competitor/command_approval.py:208-256 | over every run of whole operations and every clock, all requests of a guarded category but the last are granted or expired, at most one is pending, and whatever ran had been granted |
| CommandApproval.DenialIsAuthoritative | hackathon_competitor/command_approval.py:233-256 | after a denial no run adds, grants or changes a request of the category, and only earlier grants run |
| CommandApproval.RunsAfterDenialIffGrantedBefore | hackathon_competitor/command_approval.py:195-206 | a denied category can still run something if and only if it holds an earlier grant |
| CommandApproval.EarlierGrantOutlivesDenial | hackathon_competitor/command_approval.py:195-206 | a concrete run: asked, granted, asked again, denied, and the first runs twice |
| CommandRaces.UninterruptedIsAtomic | hackathon_competitor/command_approval.py:89-256 | an operation in its separate reads and writes, if nobody interrupts it, does what its atomic form does |
| CommandRaces.OnlyGrantedRuns | hackathon_competitor/command_approval.py:195-206 | over every interleaving of any number of processes and every crash, only what was granted at some time runs |
| CommandRaces.DenialHoldsIff | hackathon_competitor/command_approval.py:208-256 | when the latest request of a category is denied: no continuation adds or changes a request of it if and only if none is pending and no process carries a stale reading |
| CommandRaces.AloneIsQuiet | hackathon_competitor/command_approval.py:233-256 | processes that take turns meet that condition after every denial in a guarded category |
| CommandRaces.RequestAfterDenial | hackathon_competitor/command_approval.py:208-256 | two processes pass the block check, one request is denied, the other is stored |
| CommandRaces.GrantOverDenial | hackathon_competitor/command_approval.py:153-187 | a grant that read the request before its denial is written after it, and the command runs |
| ArtifactGraph.Graph.Link | hackathon_competitor/artifact_graph.py:13-16 | refuses, in this order, edges across missions, of a type that is not one of the six, to itself, and to unknown artifacts; otherwise adds exactly one edge; missions stay apart if the given missions are the stored ones |
| ArtifactGraph.Graph.AddDependency | hackathon_competitor/storage.py:1074-1094 | the same without a look at missions: type, self, then the foreign keys |
| ArtifactGraph.SixKinds | hackathon_competitor/storage.py:1077-1086 | the six dependency types that are accepted |
| ArtifactGraph.Graph.QueryDescendants | hackathon_competitor/storage.py:1096-1113 | returns exactly the artifacts reachable by one or more edges, on any graph of stored artifacts, cycles and edges across missions included |
| ArtifactGraph.Graph.MarkDescendantsStale | hackathon_competitor/storage.py:1115-1127 | all of them become stale, no other changes, only those not yet stale are written; a crash leaves some marked and nothing else changed |
| ArtifactGraph.MarkingMeaning | hackathon_competitor/storage.py:1115-1127 | a descendant that was not stale becomes stale with status needs_review; every other row stays as it was |
| ArtifactGraph.MarkingIsIdempotent | hackathon_competitor/storage.py:1115-1127 | a second marking finds nothing to write |
| ArtifactGraph.MarkingResumes | hackathon_competitor/storage.py:1115-1127 | a marking cut short anywhere and repeated ends as one complete marking, writing only what was left |
| ArtifactGraph.DescendantsShareMission | hackathon_competitor/artifact_graph.py:13-19 | staleness never leaves the mission |
| Reconciliation.SelectWinners | hackathon_competitor/competition_intelligence.py:188-202 | exactly the keys that occur; no signal of a key has higher authority than its winner, none of equal authority is newer, none equal in both is listed later |
| Reconciliation.LastStrongestIsUnique | hackathon_competitor/competition_intelligence.py:242-247 | the authority and time order determine one winner |
| Reconciliation.AuthoritiesAreRanked | hackathon_competitor/competition_intelligence.py:27-56 | the order of the eight authorities, an unknown one last |
| SignalListing.ListedInOrder | hackathon_competitor/storage.py:809-821 | signals are listed by observed_at, those of one time as stored, none lost or added |
| SignalListing.ArrivalOrderIsIrrelevant | hackathon_competitor/storage.py:809-821 | two arrival orders give the same listing, hence the same rules and winners, if and only if they agree on the order among signals of each time |
| Reconciliation.AbsorbedKeepsInv | hackathon_competitor/competition_intelligence.py:249-299 | one signal adds at most one rule and moves at most one from ACTIVE to SUPERSEDED; links stay sound and unique |
| Reconciliation.AbsorbedMeaning | hackathon_competitor/competition_intelligence.py:249-299 | what becomes of one rule signal, in full: known, joining, replacing the newest active rule, or conflicted; the row quotes the signal |
| Reconciliation.AbsorbAllKeepsInv | hackathon_competitor/competition_intelligence.py:158-163 | after a pass every rule signal has become a rule |
| Reconciliation.ReconcilingTwiceIsOnce | hackathon_competitor/competition_intelligence.py:153-163 | a second pass over the same signals leaves the rule table unchanged |
| Reconciliation.PassResumes | hackathon_competitor/competition_intelligence.py:153-163 | a pass that died between two signals is made good by the next one: same table |
| Reconciliation.ChainsNeverWeaken | hackathon_competitor/competition_intelligence.py:285-290 | along whole supersession chains authority and observed_at never decrease and only the newest end can be active |
| Reconciliation.AgreementLostIff | hackathon_competitor/competition_intelligence.py:267-290 | active rules of a category stop agreeing exactly when one is replaced while another repeats it |
| Reconciliation.ActiveRulesMayDisagree | hackathon_competitor/competition_intelligence.py:283-290 | three official signals that leave two disagreeing active rules |
| Reconciliation.TornVerdict | hackathon_competitor/competition_rules.py:25-49 | after a death between the two writes, what the signal does next is decided by the next newest active rule of its category |
| Reconciliation.TornLinkIsLost | hackathon_competitor/competition_rules.py:25-49 | the rule left SUPERSEDED is never linked to, whatever signals follow; the table stays sound |
| CompetitionIntelligence.Intelligence.Record | hackathon_competitor/competition_rules.py:24-71 | both rows or, after a crash, the first; both raises named |
| CompetitionIntelligence.Intelligence.ReconcileRule | hackathon_competitor/competition_intelligence.py:249-299 | absorbs the signal and reports a conflict iff its rule is conflicted; a crash leaves the table as it was or the one torn table; neither raise of record is reachable |
| CompetitionIntelligence.Intelligence.ReconcileRules | hackathon_competitor/competition_intelligence.py:158-163 | the loop over the listed signals equals the fold, its conflicts are those the final table implies, and a crash leaves a prefix of the fold, torn at most at one signal |
| CompetitionIntelligence.Intelligence.Picture | hackathon_competitor/competition_intelligence.py:185-216 | each derived map holds exactly the winners of its kind |
| CompetitionIntelligence.Intelligence.ReconcileAll | hackathon_competitor/competition_intelligence.py:153-240 | stores the next version with the active rules and, for every metric, deadline and agent that a signal speaks of, what the strongest of those signals says |
| CompetitionIntelligence.Intelligence.ReconcileAgain | hackathon_competitor/competition_intelligence.py:153-240 | with no new signals the second state differs only in version and in how conflicts are worded |
| CompetitionIntelligence.Intelligence.Serve | hackathon_competitor/competition_intelligence.py:153-299 | over any history of extractions and reconciliations cut short anywhere: rules are never lost and change only from ACTIVE to SUPERSEDED |
| CompetitionIntelligence.ConflictsAreStable | hackathon_competitor/competition_intelligence.py:249-265 | a conflict once reported is reported for ever |
| BuildLoop.ReviewProjectChange | hackathon_competitor/project_review.py:15-79 | no blocker if and only if mission, target, status, every changed file and the test evidence are in order |
| BuildLoop.EvidenceIsScoped | hackathon_competitor/project_review.py:61-68 | with a run of the commit on record the evidence is the commit's own: some test ran there and none ever failed |
| BuildLoop.EvidenceFallsBack | hackathon_competitor/project_review.py:61-68 | without any run of the commit on record all test runs are looked at |
| BuildLoop.CommandsMeaning | hackathon_competitor/build_loop.py:430-498 | every declared command is run, phase by phase: install, lint, build, test, run |
| BuildLoop.RealBuildLoop.RunCommands | hackathon_competitor/build_loop.py:430-498 | every command is run and recorded in order; only a failed install stops the list |
| BuildLoop.RealBuildLoop.Reproduce | hackathon_competitor/build_loop.py:500-555 | succeeds iff every command passes in a clean clone of the commit |
| BuildLoop.RealBuildLoop.Attempt | hackathon_competitor/build_loop.py:655-695 | accepts if and only if all commands pass twice, the changed files are clean, some test ran at the commit and none ever failed there |
| BuildLoop.RealBuildLoop.Run | hackathon_competitor/build_loop.py:557-727 | accepted exactly if the final attempt is acceptable, validated at the final commit with all its evidence; at most max_repairs repairs; every failure's status and reason; line 727 is unreachable |

## Left out

- Clocks and identifiers: fresh ids are new row numbers, holder tokens are fresh, the clock is monotone and read once per engine call, except in `command_races.dfy`, where any time may be read; times are integers and scores are reals, so float rounding is not modelled.
- Events, log files and error wording: only the measurement event and the captured-observation event are kept, since other code reads those back; a crash at any other event write equals a crash at the next modelled write.
- Order of results: `cancel_from` returns its tasks in search order, its contract says which tasks, not their order; descendants are marked in any order. `signal_ids` of a competition state are not modelled. Listed times share one UTC offset, so that the order of their texts is the order of the times.
- Observation contents (`CompetitionObserver.collect`), planners, executors, measurers, observers, Git and the shell: arbitrary answers supplied by the caller, including failures.
- Authority and pattern texts: `authority_priority` starts from a normalised authority, `classify_command` and the secret and path patterns of the review are yes/no answers per command or file.
- CompetitionRunner.Run: one worker at a time, as the monitor lease arranges; interleavings are covered for dispatch and for cycle creation only.
- MonitoredRunner.Monitor.RunAcquired: a pause is modelled before each of its checks, not during the iteration; there it would let `adapt` complete the cycle and `create_cycle` raise, which the monitor reports as FAILED.
- MonitoredRunner.Monitor.Serve: one worker at a time: a successor may take the row during a run, noticed or not, but runs its own iteration only after it; fingerprints do not collide, so the hashed state stands for its hash; jitter is a real number in [0, 1).
- ExternalActions.Service.Serve: sequential calls; two processes executing one action at the same time are not covered. A failing database write inside the handler is a crash.
- BuildLoop.RealBuildLoop.Run: a process death inside the loop is not modelled; workspace set-up, branch switching, provenance, diff hashes and `allow_no_changes` are not part of it. Passing working-tree runs at the final commit assume that no command moves HEAD.
- Deadlines, quality gates, research, exporters, command line and packaging: small case splits or text work beside these protocols.
- Lookups of unknown ids in CompeteLoop and the runner (`KeyError`): the cycle is given as an existing row. `mission_score`, `confidence` and the blocker list of a mission are not stored.
- Cross-mission storage: each engine, loop and rule table holds one mission; the mixed-missions check of `add_tasks` is kept.
