# Autora, modelled in Dafny

Autora runs a company with agents. This project models the parts of it in which one step has to fit
all the others, and proves what holds over whole runs:

- **The work engine.** A workflow template is an acyclic graph with loops and halts; a run is a list of
  task copies that grows by rounds. `Templates`, `Flows` and the modules `Flow...` say what a run is and
  what every reachable run keeps; `FlowEffects` says what each success sets off, in the terms of the
  template; `Engine.WorkflowRun` is the engine on its rows. `Rows`, `Queue`, `QueueResults` and
  `TaskManagers` are the task queue above it: leases, attempts, agent runs; `QueueWrites` says row by row
  what each transaction writes, `QueueRoles` whose each task is. `Fsm`,
  `Lifecycles` and `AgentRuns` are the state machines of the rows.
- **The realtime protocol.** `Gateway`, `GatewayInvariant` and `GatewayResults` are a company's hub as a
  state machine with one step for each stretch between two awaits; `GatewayAnswers` says whom it serves,
  `GatewayService` that it can always do so, `GatewaySteps` when connections, fetches and backlogs end;
  `Connections` has its objects.
  `Events`, `Sayings` and `Emissions` say which events each transaction emits, in the order of the code;
  `Faces` and `Tellings` prove that this tells every row's change, no more and no less. `Reducer` is the
  client, `Projection` what the server reads from its rows, `Views` what that shows, `Mirror` proves that they
  agree, `EndToEnd` joins client and gateway.
- **Agent runs.** `Conversations` is a run as a conversation, `Resuming` proves that suspending it for an
  approval leaves no trace in it, `Endings` how and why it ends, `Runners.Runner` is the runner on its fields.
- **Access and money.** `Calendar` (adding a month or a year), `Grants` and `Memberships` (what payments
  buy), `Purchases` (what a purchase and a write-off leave), `Revenue` (what they add up to), `Shops.Shop`
  (the operations on rows), `Money`, `Ledgers`, `Settlements` and `Bookkeeping.Ledger` (rounding and settling).
- **Small machines.** `Schedules`, `Slots` and `Schedulers` (leases on schedules), `Cycles` (the operating loop),
  `Ids` (time-ordered identifiers).

A database transaction is one step. What the source asks of the outside is a parameter: what a loop or
a halt makes of an output, the model, the policy, the tools, clocks, random bytes, cron slots. Each class
method is proved equal to a function of the old state; the theorems are about these functions over all
sequences of steps. Times are integers (microseconds), money is in millionths.

Where the source does not give what one would expect, the exact condition is proved, beside an input for
which it fails:

- Loops that do not fit each other let tasks go too early. A run of any template is safe in all its states
  if and only if every round found its inputs fit (`FlowRuns.RunIsSafeIff`, for one round
  `FlowRoundSafety.RoundSafeIffInputsFit`); `FlowExactness.UpToDateIffExitsByChecks` says for which templates
  newest copies depend on newest copies; `FlowExactness.TwoReviewsAreUnsafe` is a run that fails.
- Adding a month can turn the order of moments: `Calendar.LaterKeepsOrderIff`, `Calendar.OrderMayTurn`.
- Tool calls that share an id are lost when a run is resumed (`Resuming.ResumeRestoresIff`,
  `Resuming.SameIdsAreLost`) or pass the policy unasked (`Resuming.ReturningIdsPassUnasked`).
- Payments that come in late: `Grants.ReplayingAllIsRightIff`, `Revenue.LapsedIffNothingLate`,
  `Revenue.LatePaymentsDiffer`.
- Periods that meet count a payment twice: `Revenue.MeetingPeriods`.
- Costs too small to book stop a settlement: `Ledgers.SettleFailsIff`, `Ledgers.SmallCostsFail`.

## Model

| member | source | states |
|---|---|---|
| Templates.TopologicalOrder | backend/autora/runtime/dag.py:165-177 | the layering returns a permutation of the nodes with every node after its dependencies, and fails exactly when the dependencies have a cycle |
| Templates.OrderExistsIffAcyclic | backend/autora/runtime/dag.py:165-177 | the order exists if and only if no node leads back to itself |
| Templates.Upstream | backend/autora/runtime/dag.py:141-150 | the worklist ends with exactly the nodes reachable by one or more dependency steps |
| Templates.LoopBody | backend/autora/runtime/dag.py:152-157 | the body of a loop is the nodes on a path from its first node to its check, in the template's order |
| Templates.Template.BodyIsInOrder | backend/autora/runtime/dag.py:152-157 | in a body each node stands once, after the dependencies it has there |
| Templates.Template.OnlyFirstIsFree | backend/autora/runtime/dag.py:341-408 | of a body's nodes exactly the first one depends on nothing inside it |
| Templates.Validate | backend/autora/runtime/dag.py:116-139 | a template is accepted exactly when it is valid, and each refusal names something that is wrong with it |
| Templates.AcceptedIff | backend/autora/runtime/dag.py:116-139 | valid, and so accepted, is a template with nodes of different names, known dependencies none of which leads back to itself, loops that go back to the same node or one it depends on, and halts on known nodes |
| FlowRounds.BodyIsPath | backend/autora/runtime/dag.py:152-157 | a body has each node on a path from the first node to the check, once |
| FlowRounds.RoundGrows | backend/autora/runtime/dag.py:357-403 | a round changes the tasks by adding one copy of each body node and repointing what waited for the check, and in no other way |
| FlowRoundSafety.RoundSafeIffInputsFit | backend/autora/runtime/dag.py:329-408 | for any template: a round leaves readiness safe if and only if, when it is added, the newest copies of what it repeats have succeeded, the first node's dependencies too, and no other outside dependency has failed or been cancelled |
| FlowRoundSafety.RoundKeeps | backend/autora/runtime/dag.py:329-408 | under compatible loops a check's success and the round it asks for keep the whole-run invariant |
| FlowRuns.StartKeeps | backend/autora/runtime/dag.py:218-275 | an instantiated template starts in the invariant |
| FlowRuns.RunIsSafeIff | backend/autora/runtime/dag.py:277-484 | for any valid template and any transactions: readiness is safe in every state of the run if and only if each round, when it was added, found its inputs fit |
| FlowRuns.RunKeeps | backend/autora/runtime/dag.py:277-484 | every reachable state of every run of a compatible template keeps the invariant, any number of rounds, halts, failures and cancellations included, and all its rounds find their inputs fit |
| FlowResults.ReadinessIsSafe | backend/autora/runtime/dag.py:290-408 | in any run whose rounds found their inputs fit: a task neither PENDING nor CANCELLED has all its dependencies SUCCEEDED, a PENDING one waits for something alive, every copy of a node but the newest is SUCCEEDED |
| FlowResults.LatestDependsOnLatest | backend/autora/runtime/dag.py:357-403 | the newest copy of a node the loops watch depends on exactly the newest copies of its template dependencies, in their order |
| FlowResults.NeverStuck | backend/autora/runtime/dag.py:290-325 | in any run whose rounds found their inputs fit: while RUNNING it has a task that is READY, RUNNING, WAITING_APPROVAL or BLOCKED_BUDGET |
| FlowResults.ClosedWhenDone | backend/autora/runtime/dag.py:440-484 | in such a run: closed exactly when all its tasks are terminal, SUCCEEDED iff all succeeded, FAILED iff one failed |
| FlowResults.ClosedOnce | backend/autora/runtime/dag.py:440-484 | nothing changes such a run once it is closed |
| FlowResults.CascadeIsDependents | backend/autora/runtime/dag.py:314-325 | the cascade of cancellations is exactly the transitive dependents, all of them PENDING |
| FlowResults.DeathCancelsDependents | backend/autora/runtime/dag.py:314-325 | in such a run a failed or cancelled task cancels exactly its transitive dependents, in one transaction |
| FlowEffects.HaltStops | backend/autora/runtime/dag.py:410-431 | in any run: when a halt of the template looks at the finished task and says stop, everything unfinished that waits behind it is CANCELLED in that transaction and nothing else changes; in a run whose rounds fit that is every transitive dependent |
| FlowEffects.SuccessUnlocks | backend/autora/runtime/dag.py:290-312 | in any run: when no halt says stop and no loop asks, exactly the PENDING tasks that waited for nothing else become READY, nothing is cancelled and nothing else changes |
| FlowEffects.LoopRepeats | backend/autora/runtime/dag.py:341-408 | when no halt says stop and a loop asks that has rounds left, one copy of each node on its paths is added, the first READY, the others PENDING; no other task leaves its state |
| FlowEffects.LoopGivesUp | backend/autora/runtime/dag.py:341-356 | when it has no rounds left, what waits behind the check is CANCELLED and nothing else changes |
| FlowBounds.TasksAreBounded | backend/autora/runtime/dag.py:341-408 | a run never has more tasks than nodes times one plus the sum over checks of their most generous loop |
| FlowBounds.AttemptsAreAllowed | backend/autora/runtime/dag.py:218-275 | no task of a run is allowed more attempts than the most patient node |
| FlowBounds.RoundsAreWellShaped | backend/autora/runtime/dag.py:357-403 | in any reachable run of any valid template a round adds one copy of each body node, finds every dependency it looks up, and makes only the first node's copy READY |
| FlowLimits.OneCheckIsCompatible | backend/autora/runtime/dag.py:82-97 | loops that share one check are compatible |
| FlowExactness.UpToDateIffExitsByChecks | backend/autora/runtime/dag.py:341-408 | for the nodes and loops of a template: in every run every newest copy depends on newest copies if and only if each loop is left by its check alone |
| FlowExactness.ApartIsUnsafe | backend/autora/runtime/dag.py:361-391 | with two loops whose checks both hang on a node one of them repeats, some run ends with a READY task whose dependency is still to be done |
| FlowExactness.TwoReviewsAreUnsafe | backend/autora/runtime/dag.py:361-391 | a valid template of three nodes and two loops with such a run |
| Engine.MakeCopies | backend/autora/runtime/dag.py:361-391 | the loop over the body makes exactly the copies of a round, in order |
| Engine.CopyDependencies | backend/autora/runtime/dag.py:361-369 | a new copy depends on the new copies inside the loop and the newest tasks outside it |
| Engine.WorkflowRun.Instantiate | backend/autora/runtime/dag.py:218-275 | one task per node, in dependency order, READY exactly where nothing is waited for |
| Engine.WorkflowRun.OnTaskFinished | backend/autora/runtime/dag.py:290-312 | a success halts, loops or unlocks, in this order of precedence; returned are the tasks that became READY and the events, in order |
| Engine.WorkflowRun.AskAgain | backend/autora/runtime/dag.py:341-356 | a check that asks again adds a round, or ends what waits for it when no round is left |
| Engine.WorkflowRun.OnTaskFailed | backend/autora/runtime/dag.py:314-325 | the mutual recursion with the task manager's cancel ends in the transitive cascade, and emits its cancellations depth first |
| Engine.WorkflowRun.CancelTask | backend/autora/runtime/task_manager.py:421-452 | a cancelled task takes what waits for it with it |
| Engine.WorkflowRun.CancelWaiting | backend/autora/runtime/dag.py:433-436 | the waiting tasks are cancelled one after the other, each with its own cascade |
| Engine.WorkflowRun.Cancel | backend/autora/runtime/dag.py:277-286 | every unfinished task is cancelled, each with its cascade and its event, and the run closed |
| Engine.WorkflowRun.AddRound | backend/autora/runtime/dag.py:357-403 | the round on the rows: copies appended, waiters repointed, extensions counted; each copy is announced, the first also as READY |
| Engine.WorkflowRun.RepointWaiting | backend/autora/runtime/dag.py:392-394 | whatever waited for the check waits for its new copy |
| Engine.WorkflowRun.UnlockDependents | backend/autora/runtime/dag.py:299-310 | exactly the PENDING dependents with all dependencies done become READY, each with its event |
| Engine.WorkflowRun.FindHalt | backend/autora/runtime/dag.py:410-431 | whether some halt of the finished node says stop |
| Engine.WorkflowRun.FindLoop | backend/autora/runtime/dag.py:329-356 | the first loop of the finished check that asks again and has rounds left |
| Engine.WorkflowRun.CloseIfDone | backend/autora/runtime/dag.py:440-484 | the run closes when nothing is unfinished, and tells how it ended |
| Engine.WorkflowRun.Settle | backend/autora/runtime/task_manager.py:283-452 | a row written together with the engine's reaction is one step of the run, keeps it sound and emits what that step emits |
| Fsm.ShortestPath | backend/autora/runtime/fsm.py:97-121 | the search returns a legal path to the goal that no other is shorter than, and fails exactly when the goal is unreachable |
| Fsm.Entity.Transition | backend/autora/runtime/fsm.py:142-165 | a move is made exactly when legal and unguarded, and audited; a refused one changes nothing |
| Fsm.Entity.TransitionVia | backend/autora/runtime/fsm.py:167-184 | the shortest path is followed hop by hop with one audit entry each, chained from old to new state |
| Lifecycles.OpenRunsCanFinish | backend/autora/runtime/lifecycles.py:56-70 | an unfinished agent run can reach COMPLETED, FAILED, ABORTED and AWAITING_APPROVAL, a finished one nothing |
| AgentRuns.RunRow.Finish | backend/autora/runtime/task_manager.py:621-633 | finishing an unfinished run never fails, and at every hop `finished_at` is set exactly when the run is terminal |
| AgentRuns.RunRow.Suspend | backend/autora/runtime/task_manager.py:456-478 | an unfinished run can always be suspended, with no end written |
| Rows.BackoffGrows | backend/autora/runtime/task_manager.py:734-736 | delays double until they reach the cap and never leave it |
| Queue.NextKeeps | backend/autora/runtime/task_manager.py:165-741 | every transaction of the task manager keeps the queue honest |
| Queue.QueueIsHonest | backend/autora/runtime/task_manager.py:165-741 | the queue is honest in every reachable state |
| QueueResults.QueueHonesty | backend/autora/runtime/task_manager.py:191-279 | for every task: a lease iff RUNNING, then exactly one unfinished run; as many runs as attempts, at most as many as allowed; READY means an attempt left or its own suspended run |
| QueueResults.AgentsAreExclusive | backend/autora/runtime/task_manager.py:191-233 | no agent ever has two unfinished runs |
| QueueResults.StaleClaimsChangeNothing | backend/autora/runtime/task_manager.py:654-675 | once a claim is lost nothing tried with it changes anything, whatever happens in between |
| QueueResults.TokensAreUnique | backend/autora/runtime/task_manager.py:235-274 | a valid claim token is on one task only |
| QueueResults.ReadyIsClaimable | backend/autora/runtime/task_manager.py:191-233 | every READY task can be claimed, by the agent of its suspended run or by any free agent of its role after the backoff |
| QueueResults.FlowsAreRuns | backend/autora/runtime/task_manager.py:283-452 | whatever the queue does, each workflow run goes through a run of the engine |
| QueueResults.QueueNeverStuck | backend/autora/runtime/task_manager.py:283-452 | no run under a compatible template is left RUNNING with nothing to move it |
| QueueResults.AgentRunsAreBounded | backend/autora/runtime/task_manager.py:191-274 | rounds, retries and crashes included, a workflow run costs at most its possible tasks times its greatest number of attempts in agent runs |
| QueueRoles.TasksAreTheirNodes | backend/autora/runtime/dag.py:218-275 | in every reachable queue each task, copies of any round included, has the name, role, priority and number of attempts of a node of its template |
| QueueWrites.ClaimingLeases | backend/autora/runtime/task_manager.py:191-274 | a claim is granted exactly to an agent for its own released run, or to a free agent for a READY task of its role with an attempt left and no backoff to wait for; the row gets the lease until now plus the lease time under the next token, without backoff, and a new run only where none was suspended |
| QueueWrites.BeatingExtends | backend/autora/runtime/task_manager.py:276-281 | under a good claim the lease on the row ends a lease time from now, with its owner, its token and everything else as before; under another claim nothing is written |
| QueueWrites.ReapedIffExpired | backend/autora/runtime/task_manager.py:550-594 | a lease is taken back exactly when it ended before now, so never up to its last moment |
| QueueWrites.ReapWrites | backend/autora/runtime/task_manager.py:550-594 | the run is aborted; the task is READY again after its backoff while attempts are left, else FAILED |
| QueueWrites.FailingWrites | backend/autora/runtime/task_manager.py:328-363 | the run has failed; a retryable failure with an attempt left is READY again after its backoff, any other is final |
| QueueWrites.SucceedingWrites | backend/autora/runtime/task_manager.py:283-326 | the run is completed and its task SUCCEEDED, without a lease |
| QueueWrites.AbortingWrites | backend/autora/runtime/task_manager.py:365-419 | the run is aborted; the task is blocked for the budget, FAILED for the policy, CANCELLED for a person |
| QueueWrites.SuspendingWrites | backend/autora/runtime/task_manager.py:456-478 | the task waits without its lease, its run waits with it unfinished |
| QueueWrites.AdvancingWrites | backend/autora/runtime/task_manager.py:654-681 | under a good claim the run moves on by a legal move to a state it is not over in, and nothing else is written |
| QueueWrites.LostClaimsWriteNothing | backend/autora/runtime/task_manager.py:654-681 | under a claim that is not good nothing is written |
| QueueWrites.CancellingWrites | backend/autora/runtime/task_manager.py:421-452 | a task is cancelled, its unfinished run aborted, exactly while it has not ended |
| QueueWrites.StoppingWrites | backend/autora/runtime/dag.py:277-286 | stopping a run cancels every task that has not ended, leaves the others and closes the run |
| QueueWrites.UnblockingWrites | backend/autora/runtime/task_manager.py:529-548 | READY again while attempts are left, else FAILED |
| QueueWrites.ApprovalsWrite | backend/autora/runtime/task_manager.py:480-490 | a READY task waits for a person, a waiting one is READY again, any other is left alone |
| QueueWrites.WithoutRunWrites | backend/autora/runtime/task_manager.py:492-527 | without an agent run: done from READY or while it waits for a person, failed from READY |
| QueueWrites.BackoffIs | backend/autora/runtime/task_manager.py:734-736 | the delay starts from the base, doubles with each attempt and stops at the cap |
| TaskManagers.TaskManager.AddRun | backend/autora/runtime/dag.py:218-275 | a run of a template is added to the queue, and each task announced, READY ones as such |
| TaskManagers.TaskManager.ClaimNext | backend/autora/runtime/task_manager.py:191-233 | a busy agent gets its own released run or is refused, a free one the claimable task of least priority number, and nothing exactly when there is none |
| TaskManagers.TaskManager.Take | backend/autora/runtime/task_manager.py:235-274 | the row is leased to the resumed run or to a new attempt until now plus the lease time, under a fresh token and with all else as it was, and TASK_STARTED says so |
| TaskManagers.TaskManager.Heartbeat | backend/autora/runtime/task_manager.py:276-281 | exactly when the claim still holds the lease on the row is extended to the moment that is returned, and nothing else is changed |
| TaskManagers.TaskManager.Succeed | backend/autora/runtime/task_manager.py:283-326 | the transaction happens exactly when the claim still holds, and emits TASK_SUCCEEDED after what it sets off; a lost lease changes and emits nothing |
| TaskManagers.TaskManager.Fail | backend/autora/runtime/task_manager.py:328-363 | the same for a failure, and whether the task is retried: TASK_FAILED, then TASK_READY or the cascade |
| TaskManagers.TaskManager.Abort | backend/autora/runtime/task_manager.py:365-419 | the same for an abort and its reasons, each with its event |
| TaskManagers.TaskManager.SuspendForApproval | backend/autora/runtime/task_manager.py:456-478 | the task waits and says so, its lease is given back, its run stays open |
| TaskManagers.TaskManager.Cancel | backend/autora/runtime/task_manager.py:421-452 | cancelling is the queue's step with the events of the cascade, refused for what has ended |
| TaskManagers.TaskManager.AwaitApproval | backend/autora/runtime/task_manager.py:480-485 | a task without an agent run waits for a person |
| TaskManagers.TaskManager.ReleaseAfterApproval | backend/autora/runtime/task_manager.py:487-490 | it is claimable again |
| TaskManagers.TaskManager.CompleteWithoutRun | backend/autora/runtime/task_manager.py:492-510 | a node decided by a person succeeds |
| TaskManagers.TaskManager.FailWithoutRun | backend/autora/runtime/task_manager.py:512-527 | or fails, with its dependents |
| TaskManagers.TaskManager.ReleaseBlocked | backend/autora/runtime/task_manager.py:529-548 | every task blocked by the budget is READY again, or failed where no attempt is left |
| TaskManagers.TaskManager.ReapExpiredLeases | backend/autora/runtime/task_manager.py:550-594 | at most `limit` expired leases are taken back, and all of them when there are fewer |
| EventLog.BetweenIncreases | backend/autora/realtime/gateway.py:199-241 | any stretch of the readable log is strictly increasing |
| GatewayInvariant.NextKeeps | backend/autora/realtime/gateway.py:146-311 | every step between two awaits keeps the hub in order |
| GatewayInvariant.RunKeeps | backend/autora/realtime/gateway.py:146-311 | so does every interleaving of commits, fetches, registrations, backlog batches, sends and disconnects |
| GatewayResults.DeliveredIsTheLog | backend/autora/realtime/gateway.py:199-241 | what a client was sent is exactly the readable log after `since` up to the last event sent: increasing, no gap, no repetition |
| GatewayResults.NothingIsLeftOut | backend/autora/realtime/gateway.py:279-311 | with an empty queue and the cursor at the head everything readable after `since` was delivered |
| GatewayResults.QueueContinues | backend/autora/realtime/gateway.py:87-100 | the queue ends with exactly the events that continue what was delivered up to the fetcher's frontier; before them only events that were sent already |
| GatewayResults.OverflowEndsTheStream | backend/autora/realtime/gateway.py:87-100 | after an overflow a connection only winds down, and its next turn tells the client to take a new snapshot |
| GatewayResults.OverflowsIff | backend/autora/realtime/gateway.py:87-100 | in any state and step a connection overflows exactly when a message that may not be dropped meets a full queue, so ephemeral messages never end a stream |
| GatewayResults.DeliveredOnlyGrows | backend/autora/realtime/gateway.py:225-241 | over any stretch of a run what was delivered is only added to |
| GatewayAnswers.HeadIsRead | backend/autora/realtime/gateway.py:158-159 | a connection is greeted with the largest seq there is when it reads the head |
| GatewayAnswers.GreetAnswers | backend/autora/realtime/gateway.py:158-173 | over all runs: a greeted connection stays open and untold exactly when its `since` is a seq up to that head and is the head or has no more rows behind it than a backlog may have; then it streams at the head and catches up from its `since` behind it; in every other case it was told to take a snapshot and has ended |
| GatewayAnswers.ToldHaveEnded | backend/autora/realtime/gateway.py:161-168 | over all runs: whoever was told to take a new snapshot is served no more |
| GatewayService.CanBeServed | backend/autora/realtime/gateway.py:146-311 | from every state of every run an open connection that was not cut off and may catch up can be brought, without a new commit, to stream with every readable event after its `since` delivered |
| GatewaySteps.ComingAdds | backend/autora/realtime/gateway.py:146-157 | a socket that comes is one more connection, with its `since`, that was sent nothing |
| GatewaySteps.GoingEnds | backend/autora/realtime/gateway.py:175-184 | a socket that goes has ended with what it was sent, and nobody else notices |
| GatewaySteps.LastOneForgets | backend/autora/realtime/gateway.py:175-179 | when a connection ends, in whatever way, the cursor is forgotten exactly if nobody is left |
| GatewaySteps.FetchEndsIff | backend/autora/realtime/gateway.py:279-311 | a fetch goes on until nothing is behind its cursor or it has offered fewer rows than it may read at once |
| GatewaySteps.BacklogEndsIff | backend/autora/realtime/gateway.py:199-223 | a backlog ends with the first batch that is not full, and not before |
| Connections.Connection.Offer | backend/autora/realtime/gateway.py:87-100 | queue, drop or mark as overflowed |
| Connections.Connection.SendNext | backend/autora/realtime/gateway.py:225-241 | one turn of the sender: send and remember, pass over what was sent, or end the stream |
| Connections.Connection.SendBatch | backend/autora/realtime/gateway.py:199-223 | one batch of the backlog, in order, at most its size |
| Connections.Connection.SendBacklog | backend/autora/realtime/gateway.py:199-223 | batch after batch, commits in between included: told is all that is readable after `since` in the log the last batch read |
| Connections.EventHub.Register | backend/autora/realtime/gateway.py:146-173 | a socket listens before anything else is read |
| Connections.EventHub.OfferRow | backend/autora/realtime/gateway.py:279-311 | a readable row is offered to everybody listening, another one to nobody |
| Connections.EventHub.Forget | backend/autora/realtime/gateway.py:175-184 | the last one to leave takes the cursor along |
| Reducer.RepeatsAreIgnored | backend/autora/realtime/reducer.py:120-126 | events that were applied before change nothing |
| Reducer.RealtimeState.FromSnapshot | backend/autora/realtime/reducer.py:102-118 | the client starts as the snapshot |
| Reducer.RealtimeState.Apply | backend/autora/realtime/reducer.py:120-229 | one event changes cycle, task, recent events and last seq as the fold says, unless it is old |
| Reducer.RealtimeState.ApplyAll | backend/autora/realtime/reducer.py:120-229 | a list of events is their fold |
| Views.ClientShows | backend/autora/realtime/reducer.py:231-264 | the client shows what it holds, finished tasks for ten minutes only |
| Faces.NextFace | backend/autora/runtime/task_manager.py:165-633 | whatever a transaction does, a row keeps its name, role and runs, and a terminal row its state |
| Tellings.EmittedTells | backend/autora/runtime/task_manager.py:165-633 | for every transaction and every task, what the code emits about the task in its order, retries, rounds and depth-first cascades included, is exactly the difference between its rows before and after: no event missing, doubled or out of place |
| Tellings.EmittedIsAboutTasks | backend/autora/runtime/task_manager.py:165-633 | a transaction of the queue says nothing of cycles |
| Tellings.CommitTells | backend/autora/company/cycle.py:186-305 | a committed transaction, whatever other events stand among its own, tells what it did to each task and to the cycle |
| Mirror.ReducerAgreesWithProjection | backend/autora/realtime/projection.py:148-284 | over histories whose log grows by what the transactions emit: folded from a snapshot at one transaction boundary the client holds, at every later boundary and moment, the tasks and the cycle read from the rows; its recent events end with the server's, and are the same where the last rows can be read |
| Mirror.LastReadable | backend/autora/realtime/projection.py:273-284 | the server limits before it passes over unreadable rows, so it has an end of what the client has |
| Views.SnapshotShows | backend/autora/realtime/projection.py:219-270 | over all histories: each task has an event that is the last about it, and is shown exactly while it is unfinished or that event is less than ten minutes old, as its row, its last run and that event say; the cycle is the last one, the seq the head of the log |
| Views.RecentAre | backend/autora/realtime/projection.py:273-284 | the recent events are those of the last hundred rows that can be read, in their order |
| EndToEnd.ClientHoldsTheProjection | backend/autora/realtime/gateway.py:146-173 | a client that hydrates, connects at the snapshot's seq and applies what it is sent holds the server's projection, recent events included, at every transaction it was sent, under every interleaving |
| EndToEnd.OverlapIsHarmless | backend/autora/realtime/reducer.py:120-126 | an overlapping second delivery changes nothing, the rest goes on from where the first ended |
| Conversations.ActKeepsCounters | backend/autora/runtime/agent_runner.py:446-456 | tool calls use no model call, repair or evaluation, and never complete a run |
| Resuming.ResumeRestores | backend/autora/runtime/agent_runner.py:267-308 | where the calls of a turn have ids of their own, the state rebuilt from the last stored step is the state at suspension: messages, partial results, pending calls, all counters |
| Resuming.ResumeRebuilds | backend/autora/runtime/agent_runner.py:267-308 | whatever the ids are: rebuilt is the state at suspension, but for the calls still to run that have the id of one already answered |
| Resuming.ResumeRestoresIff | backend/autora/runtime/agent_runner.py:277-292 | it is the state at suspension exactly when there is no such call |
| Resuming.SameIdsAreLost | backend/autora/runtime/agent_runner.py:277-292 | a provider that gives two calls one id, and a suspension it comes to from which the second call is never made |
| Resuming.LoopKeeps | backend/autora/runtime/agent_runner.py:312-349 | for any provider, every suspension the loop comes to from a fresh or resumed state is one these lemmas speak of |
| Resuming.ApprovalsAreTransparent | backend/autora/runtime/agent_runner.py:446-522 | where the calls of its conversation have ids of their own, with any number of suspensions and approvals a run ends as it would have had the policy allowed those calls: same outcome, messages and counters, same trace but for the waiting steps |
| Resuming.ReturningIdsPassUnasked | backend/autora/runtime/agent_runner.py:467-522 | a provider that uses an approved id again: the second call passes the policy that forbids it, and the run completes where the uninterrupted one is aborted |
| Resuming.LifeIsBounded | backend/autora/runtime/agent_runner.py:298-349 | for any provider: over its whole life a run makes at most `max_steps` model calls and `repair_limit` repairs |
| Resuming.CallsAreAskedOnce | backend/autora/runtime/agent_runner.py:446-522 | for any provider: a run resumed so often has so many different calls approved, each of them one the model made, so none is asked about twice |
| Endings.EndsFor | backend/autora/runtime/agent_runner.py:312-349 | a run completes only with a last answer that is whole, of the asked form and past the validators; fails for its evaluation only on an answer that is not, with all repairs used; is aborted or suspended only at a call the policy denies or wants approved, of a known tool and not approved |
| Endings.GoodAnswerCompletes | backend/autora/runtime/agent_runner.py:588-612 | such an answer completes the run with it |
| Endings.BadAnswerIsSentBack | backend/autora/runtime/agent_runner.py:612-651 | another is sent back while repairs are left: told what was known to be wrong, that it was cut off, that there was no structured output, or, only where none of that is so, what the validators say; one repair used |
| Endings.BadAnswerFails | backend/autora/runtime/agent_runner.py:612-651 | with no repairs left it fails the run |
| Endings.RefusalFails | backend/autora/runtime/agent_runner.py:335-341 | a refusal fails the run at once |
| Endings.StepsRunOut | backend/autora/runtime/agent_runner.py:319-327 | a model that was asked `max_steps` times is not asked again, and the run fails |
| Endings.CallsAreMadeInOrder | backend/autora/runtime/agent_runner.py:446-522 | the calls of a turn are made in their order, each after the results of those before, up to the first the policy denies or wants approved; that one and the rest are kept; an unknown tool gets an error back |
| Runners.Runner.OneTool | backend/autora/runtime/agent_runner.py:458-586 | unknown tool, denial, suspension or a recorded result |
| Runners.Runner.Act | backend/autora/runtime/agent_runner.py:446-456 | the calls of a turn one after the other; the rest is kept pending when one of them stops the run |
| Runners.Runner.CallModel | backend/autora/runtime/agent_runner.py:374-444 | one model call, recorded as THINK or REPAIR |
| Runners.Runner.Evaluate | backend/autora/runtime/agent_runner.py:588-651 | completed, sent back for repair, or failed when the repairs are used up |
| Runners.Runner.Turn | backend/autora/runtime/agent_runner.py:313-349 | one turn of the loop |
| Runners.Runner.Loop | backend/autora/runtime/agent_runner.py:312-349 | the loop ends, as the function says |
| Runners.Runner.Resume | backend/autora/runtime/agent_runner.py:267-308 | the fields rebuilt from the steps; without a step nothing is resumed |
| Calendar.DayNumbersAreOrdered | backend/autora/company/memberships.py:85-92 | numbering days orders valid dates as year, month and day do |
| Calendar.MonthIsAMonth | backend/autora/company/memberships.py:85-92 | adding a month gives a valid date 28 to 31 days on |
| Calendar.YearIsAYear | backend/autora/company/memberships.py:85-92 | adding a year gives a valid date 365 or 366 days on |
| Calendar.AddIntervalIsMonotone | backend/autora/company/memberships.py:85-92 | a later date does not come to an earlier one |
| Calendar.LaterKeepsOrderIff | backend/autora/company/memberships.py:85-92 | moments keep their order unless their days lie in one month, both at or past the end of the month they come to, and the later day is earlier in its day |
| Calendar.OrderMayTurn | backend/autora/company/memberships.py:85-92 | two moments at the end of January that change places |
| Calendar.TwelveMonthsAreAYear | backend/autora/company/memberships.py:85-92 | twelve extensions by a month end when one by a year does, or up to three days before |
| Calendar.EndsIsAhead | backend/autora/company/memberships.py:85-92 | at any instant what is bought ends 28 to 366 days later |
| Grants.CalendarIsForward | backend/autora/company/memberships.py:85-92 | the calendar's interval always moves forward, which is all the access theorems ask of it |
| Grants.PurchaseMatches | backend/autora/company/memberships.py:307-335 | a purchase keeps the row what its payments say it is |
| Grants.StretchesAreDisjoint | backend/autora/company/memberships.py:307-335 | no moment is covered by two payments for one product |
| Grants.RowIsTheLastRun | backend/autora/company/memberships.py:307-335 | `[started_at, expires_at)` is the union of the last contiguous stretches, and what came before ended before |
| Grants.AccessIs | backend/autora/company/memberships.py:406-419 | the row says yes exactly where some payment covers the moment, and everywhere before its own start |
| Grants.AccessAfterThePayments | backend/autora/company/memberships.py:406-419 | at the time of every payment or later, access is coverage by some payment |
| Grants.PastAccessIsCoverage | backend/autora/company/memberships.py:307-335 | in whatever order payments came in: those made by a past moment cover it exactly when the row gave access that had been reached by then, before the first payment made later came in |
| Grants.ReplayingAllIsRightIff | backend/autora/company/memberships.py:307-335 | replaying every payment made by then is right exactly when no late one of them, granted right behind the prompt ones, would hold the moment, and always when none came in late; it errs only by giving access nobody paid for, after the row that had been reached ran out |
| Memberships.PaymentKeysDiffer | backend/autora/company/memberships.py:80-82 | charges of plainly named providers share a ledger key only if they are the same charge |
| Memberships.PurchaseKeepsBooks | backend/autora/company/memberships.py:163-285 | every purchase, new, repeated or refused, keeps rows, payments and ledger keys in agreement, one payment per provider reference |
| Memberships.NotifiedTwiceIsOnce | backend/autora/company/memberships.py:183-185 | the same provider reference again changes nothing and returns the first payment |
| Memberships.KeyTakenMeansOrphan | backend/autora/company/memberships.py:222-226 | a refusal for the key means a ledger row no payment points at |
| Memberships.ExpireKeepsBooks | backend/autora/company/memberships.py:341-389 | writing off changes nobody's access at any moment |
| Memberships.ExpireTellsWhoLeft | backend/autora/company/memberships.py:341-389 | afterwards whoever is marked as gone has access to nothing, and whoever ever had a membership and has access to nothing is marked |
| Memberships.WriteOffTellsWhoLeft | backend/autora/company/memberships.py:341-389 | in every reachable state, right after a write-off exactly those who ever had a membership and have access to nothing are marked as gone |
| Memberships.BooksAreKept | backend/autora/company/memberships.py:163-389 | over all sequences of purchases, write-offs and new customers: every row is what its payments say, no reference was paid for twice, nobody with access is marked as gone |
| Memberships.ReachableAccessIsCoverage | backend/autora/company/memberships.py:406-419 | in every reachable state the row says yes exactly where some payment covers the moment, and before its own start |
| Purchases.PurchaseAnswers | backend/autora/company/memberships.py:163-335 | a charge that was paid for gets its payment again; any other is granted exactly when its price is for sale, somebody pays, it moves money in the base and its key is free, with the first that is missing as the refusal and nothing changed; granted, it runs on from what still runs, and payment, row, customer and key are these |
| Purchases.PayingGivesAccess | backend/autora/company/memberships.py:406-419 | who pays can read from then to the end of what was bought, and a payment takes from nobody what could be read |
| Purchases.WrittenOffIff | backend/autora/company/memberships.py:341-389 | a write-off takes only rows that have run out, and changes nothing of them but that they run |
| Purchases.ChurnedIff | backend/autora/company/memberships.py:370-389 | a customer is marked as gone exactly when the last they had runs out, as of the moment the first of it did |
| Memberships.ExpireKeepsClocked | backend/autora/company/memberships.py:341-389 | the bookkeeping this rests on is kept from one write-off to the next |
| Memberships.ExpireTwiceIsOnce | backend/autora/company/memberships.py:341-346 | repeating it changes nothing |
| Revenue.MembersAreTheRows | backend/autora/company/revenue.py:129-143 | members at a past moment by payments are those to whom the rows, replayed to it, gave access to some product, in whatever order payments came in |
| Revenue.LatePaymentsDiffer | backend/autora/company/revenue.py:129-143 | by the calendar: three payments, one of them late, after which replaying them all gives access nobody paid for, and a member is neither member any more nor lapsed |
| Revenue.ReachingIsMemberOrLate | backend/autora/company/revenue.py:129-154 | what was paid for by a moment reaches past it exactly when the customer was a member then or some payment of theirs came in late |
| Revenue.MembersStayOrLapse | backend/autora/company/revenue.py:144-154 | members of the start are members at the end, or lapsed, or customers with a late payment |
| Revenue.LapsedAreNotMembers | backend/autora/company/revenue.py:144-154 | whoever lapsed is no member at the end; expiring members are members |
| Revenue.LapsedIffNothingLate | backend/autora/company/revenue.py:144-154 | a member of the start who is none at the end has lapsed exactly when no payment of theirs made by then came in late |
| Revenue.NumbersAddUp | backend/autora/company/revenue.py:156-165 | so as numbers: members lost are at most those lapsed and those with a late payment; expiring members are members, renewals are not negative |
| Revenue.NewMembersAreCustomers | backend/autora/company/revenue.py:93-112 | new members are counted once per customer; over all payments they are the customers that ever paid |
| Revenue.MeetingPeriods | backend/autora/company/revenue.py:91-112 | both ends belong to a period, so two that meet count a payment made just then twice |
| Revenue.WhoIsCounted | backend/autora/company/revenue.py:129-154 | members, expiring members and lapsed members as what payments made by the end reach: over the end, no further than thirty days on, past the start but not the end |
| Revenue.WhatIsCounted | backend/autora/company/revenue.py:93-112 | payments of the period with both its ends; new are those of customers who paid nothing before, at one moment the one that came in first |
| Shops.Shop.Purchase | backend/autora/company/memberships.py:163-335 | the purchase on the rows, with its five refusals in their order; the books stay in agreement |
| Shops.Shop.ExpireDue | backend/autora/company/memberships.py:341-389 | the due rows written off one after the other, the first to run out first |
| Shops.Shop.HasAccess | backend/autora/company/memberships.py:406-419 | from the start of the row on the answer is whether some payment covers the moment |
| Money.HalfEvenIsNear | backend/autora/infra/money.py:72-77 | rounding is at most half a unit off, and even at exactly half |
| Money.HalfEvenIsTheOne | backend/autora/infra/money.py:72-77 | and only one integer is so |
| Money.ConvertToBase | backend/autora/infra/money.py:72-84 | the two ways into the base currency agree, with or without a rate |
| Money.PartsAndTotal | backend/autora/infra/money.py:72-88 | converted part by part a total of n is at most (n + 1) / 2 millionths from the total converted once |
| Ledgers.RecordedOnce | backend/autora/company/ledger.py:134-184 | a fact is posted once: the first time its key comes up, as one new row worth its conversion, and never again |
| Ledgers.CostsAddUp | backend/autora/company/ledger.py:193-206 | the projects' costs add up to what was metered |
| Ledgers.SettledIsMetered | backend/autora/company/ledger.py:186-231 | the source amounts of a settled cycle's rows add up to the metered cost exactly |
| Ledgers.SettledIsNearTheReport | backend/autora/company/ledger.py:186-231 | in the base they differ from the report's conversion by at most (n + 1) / 2 millionths for n projects |
| Ledgers.SettledTwiceIsOnce | backend/autora/company/ledger.py:186-231 | settling again writes nothing, whatever order the projects come in |
| Ledgers.SettleFailsIff | backend/autora/company/ledger.py:134-142 | a settlement fails exactly when some project's cost has no rate or is worth at most half a millionth |
| Ledgers.SmallCostsFail | backend/autora/company/ledger.py:134-142 | a millionth at half a unit of the base: settling fails |
| Ledgers.SettlingCostsItsAmount | backend/autora/company/ledger.py:243-262 | a settlement lowers the balance by what it settled and nothing else |
| Settlements.SettlementIs | backend/autora/company/ledger.py:186-231 | a settlement adds one expense for each project with a cost that no row is booked under, at the rate and with the source amount it has, and none for any other; it says so exactly when some cost was booked before, and its total is of all costs |
| Settlements.OnlyOwnCallsCount | backend/autora/company/ledger.py:193-206 | one more call moves the settled total by its cost if it is a successful call of the cycle and otherwise not at all, and no project's cost but its own |
| Settlements.RecordAnswers | backend/autora/company/ledger.py:134-166 | refused without a rate first, then if it moves no money in the base; a new row keeps kind, project, key, source amount and rate |
| Settlements.BalanceMoves | backend/autora/company/ledger.py:243-262 | revenue and capital in add to the balance, expenses and capital out are taken from it, transfers move nothing |
| Bookkeeping.Ledger.Record | backend/autora/company/ledger.py:104-184 | post one transaction, nothing for a used key, an error for what cannot be booked |
| Bookkeeping.Ledger.SettleCycle | backend/autora/company/ledger.py:186-231 | the loop with its accumulators is the settlement; a failure leaves the rows as they were |
| Bookkeeping.Ledger.BalanceOf | backend/autora/company/ledger.py:243-262 | what came in less what went out |
| Schedules.NextKeeps | backend/autora/runtime/scheduler.py:93-163 | whatever step is taken, an unfired claim has lost its lease or names the slot its schedule waits for |
| Schedules.EachSlotOnce | backend/autora/runtime/scheduler.py:84-163 | over all runs of all workers no slot of a schedule is committed twice; committed slots increase |
| Schedules.OnlyCommitsAdvance | backend/autora/runtime/scheduler.py:116-149 | a commit is for the slot waited for and moves on to one after it and after now; nothing else moves `next_run_at` |
| Schedules.FailurePauses | backend/autora/runtime/scheduler.py:155-163 | after a failure, whatever the workers do while nobody claims past the pause, the slot is kept, fired by nobody and given to nobody; afterwards to whoever comes first |
| Slots.ClaimingLeases | backend/autora/runtime/scheduler.py:93-114 | a claim leases exactly schedules that are enabled, due and under no running lease, for the configured time, and notes their slots in order |
| Slots.FiringWrites | backend/autora/runtime/scheduler.py:116-153 | under the lease a commit moves the schedule to the first slot after now and after its own, gives the lease back and clears the failures; a failure is only to be recorded; without the lease nothing happens |
| Slots.FailingWrites | backend/autora/runtime/scheduler.py:155-163 | under the lease a failure pauses the schedule for the backoff and is counted; without it nothing is written |
| Slots.CreatingWrites | backend/autora/runtime/scheduler.py:166-189 | a new schedule is enabled and waits for its first slot after now |
| Slots.WaitingIsFired | backend/autora/runtime/scheduler.py:84-153 | in every reachable state a schedule that waits can be claimed by a worker that starts anew and its slot committed, and then waits only for a later one |
| Schedulers.Scheduler.ClaimDue | backend/autora/runtime/scheduler.py:93-114 | the rows the query found are leased and claimed with their slots |
| Schedulers.Scheduler.Fire | backend/autora/runtime/scheduler.py:116-153 | nothing on a lost lease, a rollback on failure, else one commit |
| Schedulers.Scheduler.RecordFailure | backend/autora/runtime/scheduler.py:155-163 | the failure is recorded only while the lease is still held |
| Cycles.TickGoesAsFarAsItCan | backend/autora/company/cycle.py:243-305 | a tick visits the following stages one by one and ends with none overdue or finished but DONE |
| Cycles.CycleIsDoneInTime | backend/autora/company/cycle.py:349-359 | with the clock read anew at each look and each move, and ticks at most delta apart, a cycle is DONE within its stages' minutes plus four delta, whatever hangs |
| Cycles.TickHasReasons | backend/autora/company/cycle.py:243-305 | a tick goes from row to row, each stage left only when its work was done or a reading of the clock was at or past its deadline, into the next with its own deadline or its end, to a stage of which neither is so |
| Cycles.CycleIsNotDoneEarly | backend/autora/company/cycle.py:349-350 | as long as nothing is finished, with any ticks on clocks that do not go back, no cycle is DONE before its start plus the minutes of its four stages, and no stage is due before those up to it had theirs |
| Cycles.CycleRunner.Start | backend/autora/company/cycle.py:186-223 | a cycle is opened exactly when none is open and its hook does not fail, with the next number |
| Cycles.CycleRunner.Tick | backend/autora/company/cycle.py:243-305 | the open cycle goes through every stage that is over, or nothing changes because a hook on its way fails; with nothing finished and the clock before the deadline the cycle stays as it is and nothing has moved |
| Cycles.CycleRunner.OpenCycle | backend/autora/company/cycle.py:336-347 | only the last cycle can be open |
| Ids.PartsAreInPlace | backend/autora/infra/ids.py:42-55 | version 7 and variant 10 are in place, counter and milliseconds can be read back |
| Ids.OrderedByTime | backend/autora/infra/ids.py:42-48 | identifiers are ordered by milliseconds and counter whatever the random bits are |
| Ids.IdsIncrease | backend/autora/infra/ids.py:26-48 | for any clock, backwards jumps included, the identifiers of a process strictly increase |
| Ids.IdsAreProper | backend/autora/infra/ids.py:26-55 | each has its version and variant, a counter of 12 bits, and gives back its milliseconds below 2^48 |
| Ids.RunsAheadByAtMost | backend/autora/infra/ids.py:29-39 | the n-th identifier after a reseed is ahead of that clock by at most (n + 2046) / 4096 milliseconds |
| Ids.IdsCarryTheClock | backend/autora/infra/ids.py:26-48 | an identifier carries the clock where it has moved on, with eleven random bits to count from, else counts on by one over milliseconds and counter; it is never behind its clock and ends in 62 random bits |
| Ids.Generator.Uuid7 | backend/autora/infra/ids.py:26-48 | the generator on its two globals is the n-th identifier of its readings |

## Left out

- SQL, sessions, row locks and notifications: a transaction is one step, and no row is claimed twice.
- A task's `depends_on` in the comparison of reducer and projection: a round repoints it without an event.
- Names, summaries, reasons, links, prompts, progress reports and agent memory, in all modules.
- Model gateway errors, budget errors and lost leases inside the agent runner: they end the run from outside the loop.
- Tools and policy that answer differently at another time: they are functions of the conversation so far, as transparency needs.
- A workflow run whose template is no longer registered: no loop and no halt applies to it any more.
- Sockets, heartbeat content and encoding of the gateway; a disconnect while the hub's tracking lock is held; a fetch that fails, which leaves the hub as it was.
- FlowRuns.RunKeeps: compatibility is enough for all runs of a template to be safe, not necessary; which runs are safe is exact (FlowRuns.RunIsSafeIff), which templates are safe in all runs is not characterised.
- TaskManagers.TaskManager.ClaimNext: leaves the order of equal priorities open, which is by creation time.
- TaskManagers.TaskManager.CompleteWithoutRun: a task with an unfinished run is refused; its documentation speaks of nodes without one.
- TaskManagers.TaskManager.FailWithoutRun: refused in the same case, and for a blocked or running task, which the table of moves would allow.
- TaskManagers.TaskManager.AwaitApproval: refused for a running task, which the table of moves would allow, but whose lease would stay behind.
- TaskManagers.TaskManager.ReleaseAfterApproval: refused unless the task waits for an approval; the table of moves has other ways to READY.
- Reducer.RealtimeState.Apply: the agents' activity is left out, here and in the projection; the service that writes it is not part of this model.
- Mirror.ReducerAgreesWithProjection: a tick through several stages is several steps of the history; what is emitted about agents and their runs is among the events that are about no task.
- Resuming.ApprovalsAreTransparent: takes the ids of the calls in the conversation at hand to differ; it is false without that (Resuming.SameIdsAreLost, Resuming.ReturningIdsPassUnasked), and Resuming.ResumeRestoresIff says exactly when the rebuilt state is right.
- Blank customer references: spaces, tabs and line ends only, not every Unicode space.
- Decimal's 28 digits, amounts finer than a millionth, and the limits of years.
- When each transaction of the ledger occurred and whose it is; revenue in money and revenue per day, which only sum.
- Stage minutes as settings that change while a cycle is open: they are fixed for a run.
- The bitwise `or` of an identifier's fields is modelled as a sum, as the fields do not overlap.
- Cron expressions and time zones: the next slot is any function that moves forward.
- Commands, policies, opportunities, accounts, e-mail, storage, interfaces and the frontend: single checks around calls, or plumbing.
