# Verification of the delivery platform's protocols

The platform takes a feature request from intake to a pull request. Four services take part:

- the control plane turns an intake into an approved specification and a READY work item;
- the delivery service accepts the work item, waits for a reviewer, has a runner build it, and opens the pull request;
- runners lease jobs, run an agent in a container, validate its work, rebase it and push it;
- the integrations service mirrors the repositories that an installation can reach.

No single function of the platform promises what users rely on: that only reviewed and verified work is delivered,
once, within budget. This project models the parts as transition systems and proves those promises over every run.

## How the model is built

Code that updates rows and objects in place is modelled as classes whose methods are proved equal to functions on the
committed rows. A transaction is one atomic step; a raised exception is `None` and leaves the rows as they were. The
steps of all parties interleave freely, crashes fall between any two of them, and the theorems are about all
reachable states or all runs, by invariants.

| file | what it holds |
|---|---|
| `Executions.dfy`, `RunnerJobs.dfy`, `DeliveryDatabase.dfy`, `DeliveryWorkflow.dfy` | the aggregate, the lease table, the transactions and the workflow, as classes and as functions on rows |
| `DeliveryProtocol.dfy`, `DeliveryInvariant.dfy` | the whole delivery of one execution as a transition system, and its invariant |
| `DeliverySafety.dfy`, `DeliveryCancellation.dfy`, `DeliveryProgress.dfy`, `DeliveryLeases.dfy`, `DeliveryDispatch.dfy` | the theorems about every run of it |
| `Dispatcher.dfy`, `DispatcherQueue.dfy` | the dispatcher over the commands of all executions, what replaying a batch does, and which commands can still be dispatched |
| `RunnerDaemon.dfy`, `EndToEnd.dfy` | the runner's publish path, and its composition with the delivery protocol |
| `ControlPlane.dfy`, `ControlPlaneProvenance.dfy` | intakes, specifications and work items, and where ready events come from |
| `EventFeed.dfy`, `EventFeedSafety.dfy`, `EventFeedExactlyOnce.dfy`, `EventFeedPreemption.dfy` | outbox, bus, inbox and direct requests, and their composition with the control plane |
| `RepositoryMirror.dfy`, `RepositoryMirrorRuns.dfy` | `connect` and `reconcile` |
| `AgentTranscript.dfy`, `AgentTranscriptLaws.dfy` | the parser of the agent's line-by-line JSON |
| `EventStream.dfy` | the server-sent event stream and its resumption (section 9.2.4 of the HTML Living Standard) |
| `Wrappers.dfy`, `FiniteSets.dfy` | optional values and facts about finite sets |

`dafny verify dfyconfig.toml` checks the whole project.

## Promises that the code keeps only under a condition

- DELIVERED is not absorbing for the bare aggregate: `cancel` has no terminal-state guard, and a START command sent
  again under the id of a closed run begins another run. `DeliveryCancellation.DeliveredIsAbsorbingIff` gives the exact
  condition and `DeliveryProgress.DeliveryCanStillBeCancelled` a run that fails it.
- "Commands are dispatched at least once" fails for good for every command that shares a batch with a signal for a
  closed run, or comes in a later one, whichever execution it belongs to. `DispatcherQueue.CanBeDispatchedIff` says
  exactly which commands can still be dispatched; `DeliveryDispatch.OneCancellationStopsTheQueue` shows that cancelling
  an execution that was handed to a human already stops the whole queue.
- An execution says what its intake said only if its event came first: a member may ask for the execution of the same
  work item directly, in other words. `EventFeedExactlyOnce.EventWinsIffFirst` gives the exact condition and
  `EventFeedPreemption.EventTextCanBeDropped` a run that fails it. One execution and one START per work item hold in
  any case.
- A finished event stream may have missed the final event, because events and status are read by two statements:
  `EventStream.FinishedStreamIsCompleteIff`, `EventStream.FinalEventCanBeMissed`.

## Model

| member | source | states |
|---|---|---|
| Executions.Budget.Exceeded | services/delivery/src/mvp_delivery/domain/models.py:68-86 | the dimensions named by the error are exactly those over their cap, and there are none exactly when usage is within budget |
| Executions.Execution.FromRow | services/delivery/src/mvp_delivery/adapters/postgres.py:789-820 | loading a row gives an aggregate that would be stored as the same row |
| Executions.Execution.Transition | services/delivery/src/mvp_delivery/domain/models.py:258-262 | moves and bumps the version only from the expected status, otherwise changes nothing |
| Executions.Execution.Approve | services/delivery/src/mvp_delivery/domain/models.py:171-176 | refines `Row.Approve`: pending and awaiting approval become approved and queued, anything else is refused unchanged |
| Executions.Execution.StartBuilding | services/delivery/src/mvp_delivery/domain/models.py:184-188 | building starts from planning or repairing only |
| Executions.Execution.RequestRepair | services/delivery/src/mvp_delivery/domain/models.py:193-200 | from verifying, repair while attempts are left and a human otherwise |
| Executions.Execution.Deliver | services/delivery/src/mvp_delivery/domain/models.py:205-210 | from delivering only, keeping the pull request's reference |
| Executions.Execution.RecordUsage | services/delivery/src/mvp_delivery/domain/models.py:212-234 | all four counters are added and kept, or, when any cap would be passed, none is |
| Executions.Execution.RequestCancellation | services/delivery/src/mvp_delivery/domain/models.py:236-244 | refused in the terminal statuses, otherwise only flags the execution and bumps the version |
| Executions.Execution.Cancel | services/delivery/src/mvp_delivery/domain/models.py:246-250 | becomes CANCELLED from any status once a cancellation was requested |
| RunnerJobs.RunnerJobTable.Lease | services/delivery/src/mvp_delivery/adapters/postgres.py:580-599 | a queued job of the runner's pool, or a leased one whose renewal is over 45 seconds old, becomes the runner's, renewed now and offered to nobody for 45 seconds; none is handed out exactly when none is offered |
| RunnerJobs.RenewalLastsFortyFiveSeconds | services/delivery/src/mvp_delivery/adapters/postgres.py:580-607 | after a lease or a heartbeat the job is offered to exactly its pool's runners, and only when more than 45 seconds have passed; it is held by that runner alone |
| RunnerJobs.RunnerJobTable.Heartbeat | services/delivery/src/mvp_delivery/adapters/postgres.py:601-607 | renews for the current holder only |
| RunnerJobs.RunnerJobTable.Complete | services/delivery/src/mvp_delivery/adapters/postgres.py:609-619 | stores the result of the current holder only, and the job is then completed |
| DeliveryTransactions.RecordAgentEvents | services/delivery/src/mvp_delivery/adapters/activities.py:94-107 | the runner's events join the timeline in order, each numbered one above the highest stored sequence |
| DeliveryTransactions.AgentEventsEnterTimeline | services/delivery/src/mvp_delivery/adapters/activities.py:94-107 | entry n + k of the timeline has the name of the runner's k-th event and the kind that its kind is mapped to, behind everything that was there |
| DeliveryTransactions.DeliveryDatabase.AcceptReadyWorkItem | services/delivery/src/mvp_delivery/application/service.py:154-177 | a new execution, its first event and its START command are committed together |
| DeliveryTransactions.DeliveryDatabase.ApproveExecution | services/delivery/src/mvp_delivery/application/service.py:179-204 | approval, event and APPROVE command together, or nothing |
| DeliveryTransactions.DeliveryDatabase.RequestCancellation | services/delivery/src/mvp_delivery/application/service.py:206-224 | flag and CANCEL command together, or nothing |
| DeliveryTransactions.DeliveryDatabase.CancelExecution | services/delivery/src/mvp_delivery/adapters/activities.py:47-65 | cancels a flagged execution with its event, and does nothing to others |
| DeliveryTransactions.DeliveryDatabase.Enqueue | services/delivery/src/mvp_delivery/adapters/activities.py:173-226 | without a provider configuration it raises and nothing changes; otherwise a queued execution is moved to BUILDING in one commit, and a job is created unless there is one |
| DeliveryTransactions.DeliveryDatabase.PollJob | services/delivery/src/mvp_delivery/adapters/activities.py:74-92 | a pass reads a completed job, charges it and settles it, or raises or waits with nothing written |
| DeliveryTransactions.DeliveryDatabase.VerifyAndSettle | services/delivery/src/mvp_delivery/adapters/activities.py:92-147 | the charged execution goes on to delivery, to a human, or back to BUILDING with its job queued again |
| DeliveryTransactions.DeliveryDatabase.FinishDelivery | services/delivery/src/mvp_delivery/adapters/activities.py:155-171 | reference, status and event together, or nothing |
| DeliveryWorkflows.DeliveryWorkflow.Approve | services/delivery/src/mvp_delivery/adapters/temporal_workflow.py:26-29 | the signal sets the flag and the actor and nothing else |
| DeliveryWorkflows.DeliveryWorkflow.Cancel | services/delivery/src/mvp_delivery/adapters/temporal_workflow.py:31-34 | the signal sets the flag and nothing else |
| DeliveryWorkflows.DeliveryWorkflow.Wake | services/delivery/src/mvp_delivery/adapters/temporal_workflow.py:51-66 | leaves the wait once a flag is set, and cancels when the cancel flag is among them |
| DeliveryInvariant.StepInv | services/delivery/src/mvp_delivery/adapters/activities.py:67-171 | every step of every party keeps the invariant that ties execution, job, workflow, attempts, command queue and consumed reports |
| DeliveryInvariant.RunInv | services/delivery/src/mvp_delivery/adapters/activities.py:67-171 | so it holds after every run |
| DeliverySafety.EvidenceSafety | services/delivery/src/mvp_delivery/adapters/activities.py:83-147 | whatever is DELIVERING or DELIVERED was approved, and the last accepted report, the one stored in the job, has a successful agent and a passing validation, the first such report of all |
| DeliverySafety.AtMostOnePullRequest | services/delivery/src/mvp_delivery/adapters/activities.py:145-171 | over any retries, overlaps and restarts at most one pull-request call is made, for the commit of the passing report, and DELIVERED stores the reply to it |
| DeliverySafety.TotalIsSum | services/delivery/src/mvp_delivery/domain/models.py:220-234 | charging report after report is summing each counter over the reports |
| DeliverySafety.UsageConserved | services/delivery/src/mvp_delivery/adapters/activities.py:80-91 | persisted usage is the sum over consumed reports, which are the accepted ones in order but for at most one that still waits in a BUILDING execution's completed job |
| DeliverySafety.StatusAndJob | services/delivery/src/mvp_delivery/adapters/activities.py:173-226 | which statuses are ever committed, which of them have a job, in which state, and that a job has a result exactly when completed |
| DeliverySafety.VersionClosedForm | services/delivery/src/mvp_delivery/domain/models.py:171-262 | the persisted version as a function of status, consumed attempts and cancellation requests |
| DeliverySafety.BoundedRepair | services/delivery/src/mvp_delivery/domain/models.py:193-234 | all caps hold in every state, an execution that is not cancelled waits for a human if and only if its attempts are used up and every report failed, and the attempts cap never raises |
| DeliverySafety.CancellationIsGranted | services/delivery/src/mvp_delivery/application/service.py:206-224 | in every reachable state a cancellation request is granted, flagged and queued for the workflow, exactly unless the execution is delivered or cancelled |
| DeliverySafety.ThreeAttemptsPerRun | services/delivery/src/mvp_delivery/adapters/temporal_workflow.py:59-65 | each workflow run starts at most three attempts, and a third one whenever it executes with two |
| DeliverySafety.PassesUseUpAttempts | services/delivery/src/mvp_delivery/adapters/activities.py:72-147 | a pass of the polling loop that commits consumes one report and one of the attempts left |
| DeliverySafety.TimelineNumbered | services/delivery/src/mvp_delivery/adapters/postgres.py:726-733 | every timeline is numbered 1 to n, so the stored maximum plus one is the length plus one |
| DeliverySafety.TimelineGrows | services/delivery/src/mvp_delivery/adapters/postgres.py:681-695 | over any run the timeline is only ever extended |
| DeliveryCancellation.CancelWinsBeforeWakeUp | services/delivery/src/mvp_delivery/adapters/temporal_workflow.py:51-58 | for any run of the workflow: a cancel signal handled before it left its wait means that it never starts an attempt; if none was started before, as in a first run, there is no job, no usage and no pull request, and CANCELLED is the only terminal status |
| DeliveryCancellation.DeliveredIsAbsorbingIff | services/delivery/src/mvp_delivery/domain/models.py:246-250 | a DELIVERED execution keeps status and reference on all futures if and only if it has no cancellation request that a run can still look at |
| DeliveryCancellation.OneRunDeliversForGood | services/delivery/src/mvp_delivery/adapters/temporal_workflow.py:44-66 | with a single run whose START is marked as dispatched, or with no cancellation request, DELIVERED and its reference stay |
| DeliveryProgress.PassVerdict | services/delivery/src/mvp_delivery/adapters/activities.py:78-147 | the four outcomes of a pass, with the exact conditions and the exact new execution, job and timeline for each |
| DeliveryProgress.PassWithoutVerdict | services/delivery/src/mvp_delivery/adapters/activities.py:74-92 | a pass waits for a job that is not completed, and raises where there is no job or the execution is not BUILDING, leaving everything as it was |
| DeliveryProgress.MissingResultFails | services/delivery/src/mvp_delivery/adapters/activities.py:83-92 | a completed job without a result document counts as one failed attempt that cost nothing |
| DeliveryProgress.RepairLoopFollowsRule | services/delivery/src/mvp_delivery/adapters/activities.py:72-147 | fed with any list of reports, the loop reaches DELIVERING if and only if one of them passes, all before it failed, and the usage up to and including it fits the budget |
| DeliveryProgress.FailuresHandOver | services/delivery/src/mvp_delivery/adapters/activities.py:123-144 | failing reports that use up the attempts within budget hand the execution over to a human |
| DeliveryProgress.StartUpBuilds | services/delivery/src/mvp_delivery/adapters/temporal_workflow.py:44-66 | approval, dispatch, wake-up and enqueueing lead from acceptance to a polling attempt |
| DeliveryProgress.DecisiveReportsDeliver | services/delivery/src/mvp_delivery/adapters/activities.py:67-171 | any list of reports that decides can be run from acceptance to DELIVERED with the service's reference |
| DeliveryProgress.DeliveryCanStillBeCancelled | services/delivery/src/mvp_delivery/domain/models.py:246-250 | for every valid budget a reachable delivered execution that a later run turns into CANCELLED |
| DeliveryLeases.LiveLeaseNeverStolen | services/delivery/src/mvp_delivery/adapters/postgres.py:580-619 | over every timed run, a holder whose renewals are at most 45 seconds apart keeps the job until a report is accepted, and that report is its own |
| DeliveryLeases.RenewalHoldsForFortyFiveSeconds | services/delivery/src/mvp_delivery/adapters/postgres.py:580-619 | over any steps that take at most 45 seconds after a lease or a heartbeat, the runner still holds the job or the next accepted report was its own |
| DeliveryLeases.RenewalEndsAfterFortyFiveSeconds | services/delivery/src/mvp_delivery/adapters/postgres.py:580-599 | in the 46th second without renewal another runner of the pool takes the job over, in the 45th it does not |
| DeliveryLeases.TakenOverIffStale | services/delivery/src/mvp_delivery/adapters/postgres.py:580-599 | another runner of the pool takes a held job over if and only if the last renewal is more than 45 seconds old |
| DeliveryDispatch.StartGoesFirst | services/delivery/src/mvp_delivery/entrypoints/workflow_dispatcher.py:23-61 | no approval or cancellation reaches a workflow before its START, and a signal fails exactly for a closed run |
| DeliveryDispatch.DoomedIffClosed | services/delivery/src/mvp_delivery/entrypoints/workflow_dispatcher.py:36-57 | in the queue of all executions, the oldest waiting command of an execution cannot be delivered if and only if it is a signal and every run has closed |
| DeliveryDispatch.CancelAfterHandOver | services/delivery/src/mvp_delivery/domain/models.py:236-244 | for every valid budget a run with one workflow run that leads there: hand-over to a human, then a cancellation request |
| DeliveryDispatch.OneCancellationStopsTheQueue | services/delivery/src/mvp_delivery/entrypoints/workflow_dispatcher.py:23-61 | from such a state on, nothing that is ever appended for any execution is dispatched |
| Dispatcher.Pending | services/delivery/src/mvp_delivery/entrypoints/workflow_dispatcher.py:26-34 | a batch is the first undispatched ids in order, and all of them when there are fewer than the limit |
| Dispatcher.MarkedExactly | services/delivery/src/mvp_delivery/entrypoints/workflow_dispatcher.py:58-60 | marking a batch sets exactly its own rows |
| Dispatcher.CommandDispatcher.DispatchBatch | services/delivery/src/mvp_delivery/entrypoints/workflow_dispatcher.py:23-61 | a committed batch was sent entirely and in order and marked entirely; any other sent a prefix and marked nothing; it commits exactly when nothing crashes and every send succeeds |
| DispatcherQueue.BatchSendsIff | services/delivery/src/mvp_delivery/entrypoints/workflow_dispatcher.py:26-60 | every send of the next batch succeeds if and only if none of its rows is a signal without an open run and without a START waiting before it |
| DispatcherQueue.CanBeDispatchedIff | services/delivery/src/mvp_delivery/entrypoints/workflow_dispatcher.py:23-61 | over all histories of requests, turns, crashes and workflow moves: a waiting row can be marked if and only if no such signal is in its batch of fifty or an earlier one |
| DispatcherQueue.OneDoomedRowStopsAll | services/delivery/src/mvp_delivery/entrypoints/workflow_dispatcher.py:23-61 | with such a signal among the first fifty waiting rows, no batch ever commits and no row of any execution, old or new, is ever marked |
| Dispatcher.SendAllPerExecution | services/delivery/src/mvp_delivery/entrypoints/workflow_dispatcher.py:35-57 | in a mixed batch each workflow sees exactly its own commands, in order |
| Dispatcher.OpenRunCollects | services/delivery/src/mvp_delivery/adapters/temporal_workflow.py:26-34 | an open run ends up with the disjunction of what it was sent and the last approver |
| Dispatcher.ReplayIsInvisible | services/delivery/src/mvp_delivery/entrypoints/workflow_dispatcher.py:23-61 | replaying a whole batch after a crash at any point leaves every open workflow with the flags and the approver of one undisturbed dispatch |
| Dispatcher.ReplaySucceeds | services/delivery/src/mvp_delivery/entrypoints/workflow_dispatcher.py:37-47 | a batch that could be sent once can be sent again after any prefix of it, while the runs are open |
| RunnerDaemon.CatchUp | runners/docker_runner/src/mvp_runner/entrypoints/daemon.py:251-282 | for every behaviour of the remote: ready to push means base equals the last fetched head, validation passed after the last rebase, and at most two rebases, fewer only if the last fetch found nothing new |
| RunnerDaemon.RebaseAndValidate | runners/docker_runner/src/mvp_runner/entrypoints/daemon.py:273-282 | a rebase counts only once the validator has passed the rebased workspace |
| RunnerDaemon.CommitAndPublish | runners/docker_runner/src/mvp_runner/entrypoints/daemon.py:234-304 | nothing is committed if a staged path lies under .github/workflows/, and otherwise the reported commit is the verified head, pushed last for a connected repository |
| RunnerDaemon.RunJob | runners/docker_runner/src/mvp_runner/entrypoints/daemon.py:143-350 | the report charges one attempt, the agent's turns, the job's seconds and no money, and carries the agent's events; the job provided the workspace, ran the agent and validated, in this order, and committed and published only with evidence; a failing validation is reported, not raised |
| RunnerDaemon.Work | runners/docker_runner/src/mvp_runner/entrypoints/daemon.py:567-583 | every report the daemon hands in is faithful and says what the job did, also where `run_job` raises: then it is the failed report, which charges an attempt and nothing else |
| EndToEnd.DeliveredCommitWasVerifiedAndPushed | runners/docker_runner/src/mvp_runner/entrypoints/daemon.py:218-304 | given the work behind each accepted report, the single pull request is for the commit that the runner of the last report pushed as that job's last action, verified as it stood, on the last remote head seen, after at most two rebases, with a reviewer's approval |
| EndToEnd.UsageIsTheWorkDone | runners/docker_runner/src/mvp_runner/entrypoints/daemon.py:305-310 | persisted usage is what the agents did in the jobs whose reports were consumed, in turns and seconds, a job that raised counting as a mere attempt |
| EndToEnd.Operate | runners/docker_runner/src/mvp_runner/entrypoints/daemon.py:567-583 | the composed system, run with any schedule and any behaviour of the world, with daemons as the only source of reports: their own traces are the work behind the reports, persisted usage is the sum over that work, and any pull request is for the last one's verified push |
| ControlPlane.IntakeRequest.MarkSpecificationDrafted | services/control_plane/src/mvp_control_plane/domain/models.py:75-78 | from received or clarification required only |
| ControlPlane.IntakeRequest.MarkAwaitingApproval | services/control_plane/src/mvp_control_plane/domain/models.py:80-83 | from drafted only |
| ControlPlane.IntakeRequest.MarkApproved | services/control_plane/src/mvp_control_plane/domain/models.py:85-88 | from awaiting approval only |
| ControlPlane.Specification.SubmitForApproval | services/control_plane/src/mvp_control_plane/domain/models.py:116-119 | from draft only |
| ControlPlane.Specification.Approve | services/control_plane/src/mvp_control_plane/domain/models.py:121-124 | from awaiting approval only |
| ControlPlane.WorkItem.MarkReviewed | services/control_plane/src/mvp_control_plane/domain/models.py:173-177 | from in review only, with a new version |
| ControlPlane.WorkItem.MarkReady | services/control_plane/src/mvp_control_plane/domain/models.py:179-194 | from reviewed only, fixing target and budget, with a new version |
| ControlPlane.StripKeepsTheRest | services/control_plane/src/mvp_control_plane/application/service.py:143-148 | stripping a text loses blanks at its ends and nothing else |
| ControlPlane.StripEnds | services/control_plane/src/mvp_control_plane/application/service.py:143-148 | blanks and line ends go, and no printing character does |
| ControlPlane.ControlPlaneService.SubmitIntake | services/control_plane/src/mvp_control_plane/application/service.py:129-174 | a new intake of an existing project, its texts stripped, or nothing |
| ControlPlane.ControlPlaneService.DraftSpecification | services/control_plane/src/mvp_control_plane/application/service.py:176-228 | specification, version and intake move together, or nothing |
| ControlPlane.ControlPlaneService.SubmitSpecification | services/control_plane/src/mvp_control_plane/application/service.py:230-260 | specification and intake move together, or nothing |
| ControlPlane.ControlPlaneService.ApproveSpecification | services/control_plane/src/mvp_control_plane/application/service.py:262-318 | specification, intake and the generated work item move together, or nothing |
| ControlPlane.ControlPlaneService.ReviewWorkItem | services/control_plane/src/mvp_control_plane/application/service.py:320-346 | the review is stored, or nothing |
| ControlPlane.ControlPlaneService.ReadyWorkItem | services/control_plane/src/mvp_control_plane/application/service.py:348-407 | the ready work item and its outbox event are committed together, or nothing |
| ControlPlane.CommandsIff | services/control_plane/src/mvp_control_plane/application/service.py:129-346 | for any rows: exactly which submissions, drafts, approvals and reviews succeed |
| ControlPlane.ReadyingIff | services/control_plane/src/mvp_control_plane/domain/models.py:148-154 | a reviewed work item can be readied exactly with at least one second, attempt and turn, no negative cost and a currency that is upper case |
| ControlPlaneProvenance.RunInv | services/control_plane/src/mvp_control_plane/application/service.py:129-407 | the invariant that links intakes, specifications, versions, work items and events holds after every run |
| ControlPlaneProvenance.SecondGuardNeverFails | services/control_plane/src/mvp_control_plane/application/service.py:230-318 | a submission or approval succeeds exactly when the specification's own guard passes; the intake's guard never decides |
| ControlPlaneProvenance.ApprovedMeansOneWorkItem | services/control_plane/src/mvp_control_plane/application/service.py:262-318 | an approved specification has exactly one work item, any other none |
| ControlPlaneProvenance.ReadyMeansOneEvent | services/control_plane/src/mvp_control_plane/application/service.py:348-407 | a READY work item has exactly one event, any other none |
| ControlPlaneProvenance.EventComesFromIntake | services/control_plane/src/mvp_control_plane/application/service.py:176-407 | every event has aggregate version 3, a valid budget, the approved version's title, and the intake's description and criteria |
| ControlPlaneProvenance.EventSaysWhatWasAsked | services/control_plane/src/mvp_control_plane/application/service.py:129-407 | for every run of commands: behind an event are the very commands that created its project, submitted its description and criteria, drafted its title, approved it and readied it, and it says what they said, stripped |
| EventFeed.BatchIsSmallest | services/control_plane/src/mvp_control_plane/entrypoints/outbox.py:26-30 | a batch is the lowest route ids, in order |
| EventFeed.PublishSomeSends | services/control_plane/src/mvp_control_plane/entrypoints/outbox.py:31-50 | what any prefix of a batch puts on the bus, a route without its event putting nothing |
| EventFeed.OutboxPublisher.PublishBatch | services/control_plane/src/mvp_control_plane/entrypoints/outbox.py:15-55 | a committed batch is the interleaved steps run to the end; a crash keeps what was sent and rolls back every mark; the count is what was sent |
| EventFeed.AcceptanceService.AddExecution | services/delivery/src/mvp_delivery/adapters/postgres.py:630-638 | adds unless the organization's work item has an execution |
| EventFeed.AcceptanceService.AcceptReadyWorkItem | services/delivery/src/mvp_delivery/application/service.py:129-177 | an existing execution is kept, an unknown provider configuration raises, otherwise execution and START together, with the event's texts, target and caps field by field |
| EventFeed.AcceptanceService.ProcessEvent | services/delivery/src/mvp_delivery/entrypoints/events.py:18-54 | inbox row and effect together, or nothing; a known event changes nothing |
| EventFeed.AcceptanceService.RequestExecution | services/delivery/src/mvp_delivery/entrypoints/api.py:684-708 | a request is accepted, without an inbox row, exactly within the API's bounds and where the work item has an execution or the provider configuration exists |
| EventFeedSafety.ExecInv | services/delivery/src/mvp_delivery/entrypoints/events.py:18-54 | over all interleavings, with direct requests among them: routed iff unpublished, published only what is on the bus, an execution for every processed event, one per key, each with its origin's words and one START |
| EventFeedSafety.FoundMeansProcessedOrRequested | services/delivery/src/mvp_delivery/application/service.py:144-146 | with one event per key, an event finds an execution only if it was processed before or the execution was asked for directly |
| EventFeedExactlyOnce.ExactlyOnce | services/delivery/src/mvp_delivery/entrypoints/events.py:18-54 | in every reachable state a work item has exactly one execution, with one START, if its event is processed or it was asked for, and none otherwise |
| EventFeedExactlyOnce.EventWinsIffFirst | services/delivery/src/mvp_delivery/application/service.py:144-177 | an event that is processed for the first time decides what its work item's execution says, for all futures, if and only if no execution saying something else was there |
| EventFeedPreemption.RequestPreempts | services/delivery/src/mvp_delivery/entrypoints/api.py:684-708 | wherever an event waits on the bus for a work item without an execution, an admissible request that says something else decides instead |
| EventFeedPreemption.EventTextCanBeDropped | services/delivery/src/mvp_delivery/entrypoints/api.py:684-708 | a run from empty tables in which an event is processed and its text is nowhere |
| EventFeedExactlyOnce.ExecutionComesFromIntake | services/control_plane/src/mvp_control_plane/application/service.py:348-407 | every execution accepted from an event carries, word for word, what an intake said under an approved version's title, and each cap and target of its READY work item in its own place |
| EventFeedExactlyOnce.ExecutionComesFromRequest | services/delivery/src/mvp_delivery/entrypoints/api.py:684-708 | every other one carries, field by field, what an admissible request said |
| EventFeedExactlyOnce.AcceptedStartsADelivery | services/delivery/src/mvp_delivery/application/service.py:154-177 | every accepted execution is an initial state of the delivery protocol, so the theorems above apply to it |
| EventFeedExactlyOnce.NothingLost | services/control_plane/src/mvp_control_plane/adapters/postgres.py:424-435 | a READY work item has exactly one event in the outbox, routed or on the bus |
| EventFeedExactlyOnce.BatchesDrainTheOutbox | services/control_plane/src/mvp_control_plane/entrypoints/outbox.py:25-51 | n committed batches settle exactly 100 n routes, and all events are then on the bus if there were no more |
| EventFeedExactlyOnce.DeliveriesSettle | services/delivery/src/mvp_delivery/entrypoints/events.py:69-77 | after any deliveries, repeated and reordered, the inbox has gained exactly the delivered events whose work item has an execution or whose provider configuration exists, and the executions exactly the records of those that had none |
| EventFeedExactlyOnce.OrderDoesNotMatter | services/delivery/src/mvp_delivery/entrypoints/events.py:69-77 | from any reachable state, deliveries of the same messages in any order end in the same inbox and the same executions up to their ids |
| RepositoryMirror.IntegrationRepository.AddRepository | services/integrations/src/mvp_integrations/adapters/postgres.py:133-137 | a row whose id or key is taken violates a constraint of the table |
| RepositoryMirror.IntegrationRepository.UpsertRepository | services/integrations/src/mvp_integrations/adapters/memory.py:190-203 | on any mirror, a row of that key is replaced and rows of other keys stay; on a unique one no other row of that key remains |
| RepositoryMirror.IntegrationRepository.RevokeRepositoriesExcept | services/integrations/src/mvp_integrations/adapters/memory.py:205-226 | exactly the installation's unlisted repositories are revoked |
| RepositoryMirror.IntegrationRepository.Reconcile | services/integrations/src/mvp_integrations/application/service.py:136-187 | from any mirror and for any listing: the ACTIVE ids are exactly the listing and other installations are untouched; from a unique one: still unique, known ids kept, details as last listed, the rest revoked |
| RepositoryMirror.IntegrationRepository.Connect | services/integrations/src/mvp_integrations/application/service.py:106-121 | every descriptor becomes a row of its own, or a constraint is violated and nothing is kept |
| RepositoryMirrorRuns.ActiveIsListed | services/integrations/src/mvp_integrations/application/service.py:151-177 | after a reconciliation the ACTIVE ids are exactly the listing |
| RepositoryMirrorRuns.DetailsFollowListing | services/integrations/src/mvp_integrations/application/service.py:151-171 | a listed repository has the details of its last entry, a revoked one those it had |
| RepositoryMirrorRuns.Idempotent | services/integrations/src/mvp_integrations/application/service.py:136-187 | a second reconciliation with the same listing changes nothing |
| RepositoryMirrorRuns.ConnectedIff | services/integrations/src/mvp_integrations/adapters/postgres.py:133-137 | a listing gets in if and only if its ids are new and distinct and its keys distinct and free, and then exactly its rows are added |
| RepositoryMirrorRuns.ConnectSucceedsIff | services/integrations/src/mvp_integrations/application/service.py:80-134 | connecting a new installation succeeds if and only if its listing has no duplicates |
| RepositoryMirrorRuns.AlwaysUnique | services/integrations/src/mvp_integrations/adapters/postgres.py:133-137 | after every history of connections and reconciliations the mirror is unique |
| RepositoryMirrorRuns.IdsAreStable | services/integrations/src/mvp_integrations/application/service.py:146-170 | over any history an external repository keeps its one internal id, however often it vanishes and returns |
| RepositoryMirrorRuns.LatestListingWins | services/integrations/src/mvp_integrations/application/service.py:136-187 | an installation shows its own latest listing, whatever happened to others since |
| AgentTranscript.EventsForAssistantMessage | runners/docker_runner/src/mvp_runner/adapters/claude_code_cli.py:302-333 | text and tool blocks become events numbered on from the caller's count, other blocks none |
| AgentTranscript.EventsForToolResult | runners/docker_runner/src/mvp_runner/adapters/claude_code_cli.py:336-350 | failed tool results become errors numbered on from the caller's count |
| AgentTranscript.ClaudeCodeCli.ParseEvents | runners/docker_runner/src/mvp_runner/adapters/claude_code_cli.py:218-299 | raises exactly for a document that is no object or a token count that is not finite; otherwise agrees with the declarative reading of the lines, numbered 1 to n |
| AgentTranscript.ClaudeCodeCli.Execute | runners/docker_runner/src/mvp_runner/adapters/claude_code_cli.py:106-160 | success is exit code 0 and a last result whose is_error is not true, turns is the number of good results, and numbering continues over the stderr event |
| AgentTranscript.TurnsAreGoodResults | runners/docker_runner/src/mvp_runner/adapters/claude_code_cli.py:157 | RESULT events are as many as results that report no error |
| AgentTranscript.TokensComeFromLastUsage | runners/docker_runner/src/mvp_runner/adapters/claude_code_cli.py:257-261 | token counts are those of the last result that carried usage, and absent if none did |
| AgentTranscript.LastResultDecides | runners/docker_runner/src/mvp_runner/adapters/claude_code_cli.py:233-256 | success holds unless the last result is an error, and holds without any result |
| AgentTranscript.LastFlagDecides | runners/docker_runner/src/mvp_runner/adapters/claude_code_cli.py:233-256 | read off the documents: no success when the last line of type "result" has is_error true, success when it has false or nothing there, or when there is no such line |
| AgentTranscriptLaws.TruthOfValues | runners/docker_runner/src/mvp_runner/adapters/claude_code_cli.py:256 | which values of a flag count as true |
| AgentTranscriptLaws.TokensByName | runners/docker_runner/src/mvp_runner/adapters/claude_code_cli.py:257-261 | the three counts stand under their own names in the last result with a usage object |
| AgentTranscriptLaws.UnreadableIff | runners/docker_runner/src/mvp_runner/adapters/claude_code_cli.py:234-261 | a line aborts the parse exactly if it is no object, or a count of its usage is not finite |
| AgentTranscriptLaws.ToolResultBlocks | runners/docker_runner/src/mvp_runner/adapters/claude_code_cli.py:336-350 | a tool's answer is an error event exactly if its flag is true |
| AgentTranscriptLaws.AssistantBlocks | runners/docker_runner/src/mvp_runner/adapters/claude_code_cli.py:302-333 | text is a plan, Bash a command, any other tool a tool, and nothing else an event |
| AgentTranscriptLaws.BlocksOfMessage | runners/docker_runner/src/mvp_runner/adapters/claude_code_cli.py:306-308 | the blocks are the list under content of the object under message, or none |
| AgentTranscriptLaws.LinesByType | runners/docker_runner/src/mvp_runner/adapters/claude_code_cli.py:239-297 | what a line of each type adds to the timeline |
| AgentTranscriptLaws.SessionByLine | runners/docker_runner/src/mvp_runner/adapters/claude_code_cli.py:240-250 | a start-up sets the session, a result changes it if it names one |
| AgentTranscript.Truncated | runners/docker_runner/src/mvp_runner/adapters/claude_code_cli.py:372-373 | a decimal count is truncated toward zero |
| EventStream.FramesAreContiguous | services/delivery/src/mvp_delivery/adapters/postgres.py:697-724 | what follows a cursor is a gapless run starting just after it, each event once |
| EventStream.ResumesWhereItStopped | services/delivery/src/mvp_delivery/entrypoints/api.py:768-782 | resuming with the last id seen, on any longer timeline, yields exactly the rest |
| EventStream.Stream | services/delivery/src/mvp_delivery/entrypoints/api.py:768-791 | under any appends between polls the client gets exactly what followed its cursor at the last poll; the stream ends at the first turn that sees DELIVERED, FAILED or CANCELLED and brings nothing, or after 300 turns in a row that bring nothing, and at no other |
| EventStream.RunsCanBeStreamed | services/delivery/src/mvp_delivery/entrypoints/api.py:774-777 | every run of the delivery protocol, polled at any times, meets what the stream relies on |
| EventStream.FinishedStreamIsCompleteIff | services/delivery/src/mvp_delivery/entrypoints/api.py:776-790 | a finished stream over a run of the protocol has shown all there was as of its last status read if and only if no step between its last two reads appended an event past its cursor; reading the status first would never lose one |
| EventStream.FinalEventCanBeMissed | services/delivery/src/mvp_delivery/entrypoints/api.py:776-790 | for every valid budget a run and a single poll that ends the stream with the delivery's own event unseen |

## Left out

- The web application, the backend for it, OIDC and role checks: every request is taken as authorized.
- Docker, git, Temporal and JetStream internals: git is a trace of clone, commit, rebase, fetch and push actions, the validator an oracle that does not change the workspace, the bus a bag that may repeat and reorder, an activity something that may be retried and may overlap itself.
- Workflow identity: a START for a closed run begins a second one, the client library's default for reused ids; results that need a single run say so with `runs <= 1`.
- Unlocked read-modify-write by overlapping transactions on the same row: each transaction is one atomic step, so lost updates of `version` and of event sequences are outside the model.
- Order of command ids against commit order of concurrent transactions: commands get their ids in commit order.
- Unconditional liveness: an unanswered pull-request call leaves DELIVERING, and an exceeded budget leaves BUILDING with a completed job, for good; only possible runs are proved to make progress.
- Lease order, fairness and fencing tokens: the code has none.
- Several dispatcher processes at once: the queue is that of one process, whose batch no other row lock interrupts.
- Verification of provider configurations: it follows the lease rules already modelled for jobs.
- Texts and metadata of events, names derived from free-form JSON, and timestamps.
- Letters outside ASCII in `IsUpper`, which asks for a three-letter upper-case currency.
- Membership events: the inbox row is as for work items, and the projection they update has no ordering to state.
- Secrets, egress, encryption, enrollment and capabilities: they appear only as operations of the runner that may raise.
- Integers too long and documents nested too deeply for the JSON library, which make it raise differently.
- Executions.Execution.FromRow: ids, texts, acceptance criteria and the currency of the row are not part of it, because no transition looks at them; the feed's records carry the texts.
- DeliveryTransactions.DeliveryDatabase.Enqueue: in the protocol, an attempt that raises here takes the step of an attempt that crashes.
- DeliveryCancellation.DeliveredIsAbsorbingIff: the runs that show a cancellation still possible are those of one execution on its own; a command of another execution that cannot be delivered may hold them up.
- ControlPlane.ControlPlaneService.SubmitIntake: client, intended users, exclusions and constraints are left out, because no event carries them.
- RepositoryMirror.IntegrationRepository.Reconcile: for a listing that names a new repository twice, which of the two new ids it keeps is left open; the adapters differ there. Its new ids are unused and distinct, as random ids are.
- RepositoryMirror.IntegrationRepository.Connect: has the database's constraints; the in-memory adapter, which has none, is left out here.
- EventFeedExactlyOnce.OrderDoesNotMatter: takes new execution ids that are distinct and unused, as random ids are.
