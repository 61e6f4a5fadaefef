/** The whole delivery of one execution as a transition system: database transactions, the dispatcher and its
    crashes, the workflow, overlapping attempts of `execute-delivery`, runners and the clock, interleaved freely. */
module DeliveryProtocol {
  import opened Wrappers
  import opened Executions
  import opened RunnerJobs
  import opened DeliveryTransactions
  import opened DeliveryWorkflows

  /** Where one attempt of `execute-delivery` stands. */
  datatype Attempt =
    | Enqueueing
    | Polling
    | CallingPullRequest(commitSha: string)
    | Finishing(reference: string)
    | Returned
    | Failed

  /** The dispatcher's uncommitted batch: commands before `cursor` have been sent. */
  datatype Batch = NoBatch | Batch(cursor: nat, end: nat)

  datatype Accepted = Accepted(runnerId: int, report: Completion)

  /** What has happened, for stating properties; no step looks at it. */
  datatype History = History(
    accepted: seq<Accepted>,
    consumed: seq<Completion>,
    deliverer: Option<nat>,
    pullRequests: seq<string>,
    replies: seq<string>,
    cancelRequests: nat,
    cancelCommits: nat,
    stage: Status)

  datatype Sys = Sys(
    db: Db,
    dispatched: nat,
    batch: Batch,
    workflow: Workflow,
    cancelScheduled: bool,
    attempts: seq<Attempt>,
    now: int,
    history: History)

  datatype Step =
    | ApproveExecution(actor: string)
    | RequestCancellation(actor: string)
    | FetchBatch(end: nat)
    | SendCommand
    | CommitBatch
    | CrashDispatcher
    | RecordWaiting
    | Wake
    | CancelActivity
    | CompleteCancel
    | StartAttempt
    | Enqueue(attempt: nat)
    | Poll(attempt: nat)
    | CallPullRequest(attempt: nat, reply: Option<string>)
    | Finish(attempt: nat)
    | CrashAttempt(attempt: nat)
    | CompleteRun(attempt: nat)
    | FailRun
    | Lease(runner: Runner)
    | Heartbeat(runnerId: int)
    | Complete(runnerId: int, report: Completion)
    | Tick(seconds: nat)

  function Initial(runnerPool: int, budget: Budget, now: int): Sys {
    Sys(NewDb(runnerPool, budget), 0, NoBatch, NEW_WORKFLOW, false, [], now,
        History([], [], None, [], [], 0, 0, AwaitingApproval))
  }

  /** `stage` is the status before any cancellation. */
  function Recorded(h: History, db: Db): History {
    if db.execution.status == Cancelled then h else h.(stage := db.execution.status)
  }

  function Approve(s: Sys, actor: string): Sys {
    match s.db.ApproveExecution(actor)
    case None => s
    case Some(db) => s.(db := db, history := Recorded(s.history, db))
  }

  function Request(s: Sys, actor: string): Sys {
    match s.db.RequestCancellation(actor)
    case None => s
    case Some(db) => s.(db := db, history := s.history.(cancelRequests := s.history.cancelRequests + 1))
  }

  /** Commands go out in id order; other executions' commands may share the batch, so any prefix may be fetched. */
  function Fetch(s: Sys, end: nat): Sys {
    if s.batch.NoBatch? && s.dispatched <= end <= |s.db.commands| then s.(batch := Batch(s.dispatched, end)) else s
  }

  function Send(s: Sys): Sys {
    if s.batch.Batch? && s.batch.cursor < s.batch.end <= |s.db.commands| then
      match s.workflow.Dispatch(s.db.commands[s.batch.cursor])
      case None => s.(batch := NoBatch)
      case Some(w) => s.(workflow := w, batch := Batch(s.batch.cursor + 1, s.batch.end))
    else s
  }

  function Commit(s: Sys): Sys {
    if s.batch.Batch? && s.batch.cursor == s.batch.end
    then s.(dispatched := s.batch.end, batch := NoBatch)
    else s
  }

  function WakeUp(s: Sys): Sys {
    match s.workflow.Wake()
    case None => s
    case Some(w) => s.(workflow := w, cancelScheduled := s.cancelScheduled || w.phase == Cancelling)
  }

  /** The server retries this activity, and a timed-out attempt may still commit, so it may run any number of times. */
  function RunCancel(s: Sys): Sys {
    if !s.cancelScheduled || !s.db.execution.cancellationRequested then s
    else s.(db := s.db.CancelExecution(), history := s.history.(cancelCommits := s.history.cancelCommits + 1))
  }

  function Close(s: Sys, from: Phase): Sys {
    if s.workflow.phase == from then s.(workflow := s.workflow.(phase := Closed)) else s
  }

  function Spawn(s: Sys): Sys {
    if s.workflow.phase == Executing && s.workflow.attempts < MAXIMUM_ATTEMPTS
    then s.(attempts := s.attempts + [Enqueueing], workflow := s.workflow.(attempts := s.workflow.attempts + 1))
    else s
  }

  predicate At(s: Sys, i: nat, pc: Attempt) {
    i < |s.attempts| && s.attempts[i] == pc
  }

  function MoveTo(s: Sys, i: nat, pc: Attempt): Sys
    requires i < |s.attempts|
  {
    s.(attempts := s.attempts[i := pc])
  }

  function RunEnqueue(s: Sys, i: nat): Sys {
    if At(s, i, Enqueueing)
    then MoveTo(s, i, Polling).(db := s.db.Enqueue(), history := Recorded(s.history, s.db.Enqueue()))
    else s
  }

  function Consume(s: Sys, db: Db): Sys
    requires s.db.job.Some?
  {
    var report := s.db.job.value.result.GetOr(MISSING_RESULT);
    s.(db := db, history := Recorded(s.history.(consumed := s.history.consumed + [report]), db))
  }

  function RunPoll(s: Sys, i: nat): Sys {
    if !At(s, i, Polling) then s
    else
      match s.db.PollJob()
      case NotCompleted => s
      case Raised => MoveTo(s, i, Attempt.Failed)
      case RepairQueued(db) => Consume(s, db)
      case HandedToHuman(db) => MoveTo(Consume(s, db), i, Returned)
      case ReadyToDeliver(db, commitSha) =>
        var next := MoveTo(Consume(s, db), i, CallingPullRequest(commitSha));
        next.(history := next.history.(deliverer := Some(i)))
  }

  /** The call happens in either case; without a reply the attempt raises. */
  function RunCall(s: Sys, i: nat, reply: Option<string>): Sys {
    if i < |s.attempts| && s.attempts[i].CallingPullRequest? then
      var called := s.history.(pullRequests := s.history.pullRequests + [s.attempts[i].commitSha]);
      match reply
      case None => MoveTo(s, i, Attempt.Failed).(history := called)
      case Some(reference) =>
        MoveTo(s, i, Finishing(reference)).(history := called.(replies := called.replies + [reference]))
    else s
  }

  function RunFinish(s: Sys, i: nat): Sys {
    if i < |s.attempts| && s.attempts[i].Finishing? then
      match s.db.FinishDelivery(s.attempts[i].reference)
      case None => MoveTo(s, i, Attempt.Failed)
      case Some(db) => MoveTo(s, i, Returned).(db := db, history := Recorded(s.history, db))
    else s
  }

  /** A crash, a lost heartbeat, a timeout, or a missing provider configuration when it enqueues: the attempt does
      nothing more. */
  function Crash(s: Sys, i: nat): Sys {
    if i < |s.attempts| && s.attempts[i] != Returned then MoveTo(s, i, Attempt.Failed) else s
  }

  function RunComplete(s: Sys, runnerId: int, report: Completion): Sys {
    match s.db.CompleteJob(runnerId, report)
    case None => s
    case Some(db) =>
      s.(db := db, history := s.history.(accepted := s.history.accepted + [Accepted(runnerId, report)]))
  }

  function Record(s: Sys): Sys {
    if s.workflow.phase == Recording then s.(workflow := s.workflow.(phase := Waiting)) else s
  }

  /** A run completes with the result of one of its own attempts. */
  function Return(s: Sys, i: nat): Sys {
    if At(s, i, Returned) && |s.attempts| <= i + s.workflow.attempts then Close(s, Executing) else s
  }

  /** A run fails when its last permitted attempt has raised or timed out; one that timed out may still be at work. */
  function GiveUp(s: Sys): Sys {
    if s.workflow.attempts == MAXIMUM_ATTEMPTS then Close(s, Executing) else s
  }

  function LeaseTo(s: Sys, runner: Runner): Sys {
    s.(db := s.db.LeaseJob(runner, s.now).GetOr(s.db))
  }

  function Renew(s: Sys, runnerId: int): Sys {
    s.(db := s.db.HeartbeatJob(runnerId, s.now).GetOr(s.db))
  }

  function Pass(s: Sys, seconds: nat): Sys {
    s.(now := s.now + seconds)
  }

  /** One step. A step that is not enabled leaves the state as it is. */
  function Apply(s: Sys, step: Step): Sys {
    match step
    case ApproveExecution(actor) => Approve(s, actor)
    case RequestCancellation(actor) => Request(s, actor)
    case FetchBatch(end) => Fetch(s, end)
    case SendCommand => Send(s)
    case CommitBatch => Commit(s)
    case CrashDispatcher => s.(batch := NoBatch)
    case RecordWaiting => Record(s)
    case Wake => WakeUp(s)
    case CancelActivity => RunCancel(s)
    case CompleteCancel => Close(s, Cancelling)
    case StartAttempt => Spawn(s)
    case Enqueue(i) => RunEnqueue(s, i)
    case Poll(i) => RunPoll(s, i)
    case CallPullRequest(i, reply) => RunCall(s, i, reply)
    case Finish(i) => RunFinish(s, i)
    case CrashAttempt(i) => Crash(s, i)
    case CompleteRun(i) => Return(s, i)
    case FailRun => GiveUp(s)
    case Lease(runner) => LeaseTo(s, runner)
    case Heartbeat(runnerId) => Renew(s, runnerId)
    case Complete(runnerId, report) => RunComplete(s, runnerId, report)
    case Tick(seconds) => Pass(s, seconds)
  }

  function Exec(s: Sys, steps: seq<Step>): Sys
    decreases |steps|
  {
    if steps == [] then s else Exec(Apply(s, steps[0]), steps[1..])
  }

  function Total(consumed: seq<Completion>): Usage {
    if consumed == [] then NO_USAGE
    else Plus(Total(consumed[..|consumed| - 1]), consumed[|consumed| - 1].Charge())
  }
}
