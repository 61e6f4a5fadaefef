/** The transactions of the delivery service on the rows of one execution. Each is given twice: as a function on
    the committed rows, where None is an exception followed by a rollback, and as the method that loads the
    aggregate, mutates it, and writes it back. */
module DeliveryTransactions {
  import opened Wrappers
  import opened Executions
  import opened RunnerJobs

  datatype EventKind = DecisionKind | PlanKind | ToolKind | CommandKind | ResultKind | ErrorKind | ApprovalKind
      | CostKind | StateKind

  datatype Event = Event(sequence: int, kind: EventKind, name: string)

  datatype Command = StartCommand | ApproveCommand(actor: string) | CancelCommand(actor: string)

  /** The highest stored sequence, or 0; `next_event_sequence` adds one. */
  function LastSequence(log: seq<Event>): int {
    if log == [] then 0
    else
      var rest := LastSequence(log[..|log| - 1]);
      var last := log[|log| - 1].sequence;
      if last > rest then last else rest
  }

  function Append(log: seq<Event>, kind: EventKind, name: string): seq<Event> {
    log + [Event(LastSequence(log) + 1, kind, name)]
  }

  /** USAGE becomes COST; a kind the table does not know degrades to TOOL. */
  function MapKind(kind: string): EventKind {
    if kind == "PLAN" then PlanKind
    else if kind == "COMMAND" then CommandKind
    else if kind == "RESULT" then ResultKind
    else if kind == "ERROR" then ErrorKind
    else if kind == "APPROVAL" then ApprovalKind
    else if kind == "USAGE" then CostKind
    else ToolKind
  }

  function AppendAgentEvents(log: seq<Event>, events: seq<AgentEvent>): seq<Event> {
    if events == [] then log
    else
      var last := events[|events| - 1];
      Append(AppendAgentEvents(log, events[..|events| - 1]), MapKind(last.kind), last.name)
  }

  /** The runner's events enter the timeline behind what is there, in order, under their own names. */
  lemma {:induction false} AgentEventsEnterTimeline(log: seq<Event>, events: seq<AgentEvent>)
    ensures log <= AppendAgentEvents(log, events) && |AppendAgentEvents(log, events)| == |log| + |events|
    ensures forall k :: 0 <= k < |events| ==>
              var event := AppendAgentEvents(log, events)[|log| + k];
              && event.name == events[k].name
              && (events[k].kind == "PLAN" ==> event.kind == PlanKind)
              && (events[k].kind == "COMMAND" ==> event.kind == CommandKind)
              && (events[k].kind == "RESULT" ==> event.kind == ResultKind)
              && (events[k].kind == "ERROR" ==> event.kind == ErrorKind)
              && (events[k].kind == "APPROVAL" ==> event.kind == ApprovalKind)
              && (events[k].kind == "USAGE" ==> event.kind == CostKind)
              && (events[k].kind !in {"PLAN", "COMMAND", "RESULT", "ERROR", "APPROVAL", "USAGE"} ==>
                    event.kind == ToolKind)
  {
    if events != [] {
      AgentEventsEnterTimeline(log, events[..|events| - 1]);
    }
  }

  /** One pass of the polling loop. */
  datatype Polled =
    | NotCompleted
    | Raised
    | RepairQueued(db: Db)
    | HandedToHuman(db: Db)
    | ReadyToDeliver(db: Db, commitSha: string)

  datatype Db = Db(execution: Row, job: Option<Job>, log: seq<Event>, commands: seq<Command>) {
    function ApproveExecution(actor: string): Option<Db> {
      match execution.Approve()
      case None => None
      case Some(row) =>
        Some(Db(row, job, Append(log, ApprovalKind, "execution.approved"), commands + [ApproveCommand(actor)]))
    }

    function RequestCancellation(actor: string): Option<Db> {
      match execution.RequestCancellation()
      case None => None
      case Some(row) => Some(Db(row, job, log, commands + [CancelCommand(actor)]))
    }

    /** The `cancel-and-cleanup-execution` activity. */
    function CancelExecution(): Db {
      match execution.Cancel()
      case None => this
      case Some(row) => Db(row, job, Append(log, StateKind, "execution.cancelled"), commands)
    }

    /** `_enqueue`, run first by every attempt of `execute-delivery`. */
    function Enqueue(): Db {
      var row :=
        if execution.status == Queued
        then execution.Moved(Provisioning).Moved(Planning).Moved(Building)
        else execution;
      Db(row, Some(job.GetOr(NewJob(execution.runnerPool))), Append(log, StateKind, "runner.job_queued"), commands)
    }

    function VerificationLog(report: Completion): seq<Event> {
      Append(AppendAgentEvents(log, report.events), ResultKind, "verification.completed")
    }

    function Settle(charged: Row, report: Completion): Polled
      requires job.Some?
    {
      match charged.Transition(Building, Verifying)
      case None => Raised
      case Some(verifying) =>
        if report.Evidence() then
          ReadyToDeliver(Db(verifying.Moved(Delivering), job, VerificationLog(report), commands), report.commitSha)
        else if verifying.usage.attempts >= verifying.budget.maxAttempts then
          HandedToHuman(Db(verifying.Moved(AwaitingHuman), job, VerificationLog(report), commands))
        else
          RepairQueued(Db(verifying.Moved(Repairing).Moved(Building), Some(job.value.Requeued()),
                          Append(VerificationLog(report), DecisionKind, "repair.queued"), commands))
    }

    function PollJob(): Polled {
      if job.None? then Raised
      else if job.value.status != JobCompleted then NotCompleted
      else
        var report := job.value.result.GetOr(MISSING_RESULT);
        match execution.RecordUsage(report.Charge())
        case None => Raised
        case Some(charged) => Settle(charged, report)
    }

    /** The transaction after the pull request exists. */
    function FinishDelivery(reference: string): Option<Db> {
      match execution.Deliver(reference)
      case None => None
      case Some(row) => Some(Db(row, job, Append(log, ResultKind, "delivery.completed"), commands))
    }

    function WithJob(next: Option<Job>): Option<Db> {
      if next.Some? then Some(this.(job := next)) else None
    }

    function LeaseJob(runner: Runner, now: int): Option<Db> {
      if job.Some? then WithJob(job.value.Lease(runner, now)) else None
    }

    function HeartbeatJob(runnerId: int, now: int): Option<Db> {
      if job.Some? then WithJob(job.value.Heartbeat(runnerId, now)) else None
    }

    function CompleteJob(runnerId: int, report: Completion): Option<Db> {
      if job.Some? then WithJob(job.value.Complete(runnerId, report)) else None
    }
  }

  /** What a pass leaves committed; a pass that raises or finds no completion leaves nothing. */
  function AfterPoll(before: Db, polled: Polled): Db {
    match polled
    case NotCompleted => before
    case Raised => before
    case RepairQueued(db) => db
    case HandedToHuman(db) => db
    case ReadyToDeliver(db, _) => db
  }

  /** The rows `accept_ready_work_item` commits together. */
  function NewDb(runnerPool: int, budget: Budget): Db {
    Db(NewRow(runnerPool, budget), None, Append([], ApprovalKind, "execution.approval_required"), [StartCommand])
  }

  /** The loop that copies a runner's events into the execution's timeline. */
  method RecordAgentEvents(log: seq<Event>, events: seq<AgentEvent>) returns (extended: seq<Event>)
    ensures extended == AppendAgentEvents(log, events)
  {
    extended := log;
    for i := 0 to |events|
      invariant extended == AppendAgentEvents(log, events[..i])
    {
      extended := Append(extended, MapKind(events[i].kind), events[i].name);
      assert events[..i + 1][..i] == events[..i];
    }
    assert events[..|events|] == events;
  }

  class DeliveryDatabase {
    var execution: Row
    var job: Option<Job>
    var log: seq<Event>
    var commands: seq<Command>

    function Rows(): Db
      reads this
    {
      Db(execution, job, log, commands)
    }

    constructor AcceptReadyWorkItem(runnerPool: int, budget: Budget)
      ensures Rows() == NewDb(runnerPool, budget)
      ensures execution == Row(runnerPool, budget, Pending, AwaitingApproval, Usage(0, 0, 0, 0), 1, false, None)
      ensures log == [Event(1, ApprovalKind, "execution.approval_required")]
      ensures commands == [StartCommand] && job == None
    {
      execution := NewRow(runnerPool, budget);
      job := None;
      log := [Event(1, ApprovalKind, "execution.approval_required")];
      commands := [StartCommand];
    }

    method ApproveExecution(actor: string) returns (ok: bool)
      modifies this
      ensures ok <==> old(execution).status == AwaitingApproval
      ensures ok ==>
                && execution.status == Queued && execution.approval == Approved && job == old(job)
                && log == Append(old(log), ApprovalKind, "execution.approved")
                && commands == old(commands) + [ApproveCommand(actor)]
      ensures ok <==> old(Rows()).ApproveExecution(actor).Some?
      ensures Rows() == old(Rows()).ApproveExecution(actor).GetOr(old(Rows()))
    {
      var aggregate := new Execution.FromRow(execution);
      ok := aggregate.Approve();
      if !ok {
        return;
      }
      execution := aggregate.ToRow();
      log := Append(log, ApprovalKind, "execution.approved");
      commands := commands + [ApproveCommand(actor)];
    }

    method RequestCancellation(actor: string) returns (ok: bool)
      modifies this
      ensures ok <==> old(execution).status !in {Delivered, Status.Failed, Cancelled}
      ensures ok ==>
                && execution.cancellationRequested && execution.status == old(execution).status
                && job == old(job) && log == old(log) && commands == old(commands) + [CancelCommand(actor)]
      ensures ok <==> old(Rows()).RequestCancellation(actor).Some?
      ensures Rows() == old(Rows()).RequestCancellation(actor).GetOr(old(Rows()))
    {
      var aggregate := new Execution.FromRow(execution);
      ok := aggregate.RequestCancellation();
      if !ok {
        return;
      }
      execution := aggregate.ToRow();
      commands := commands + [CancelCommand(actor)];
    }

    method CancelExecution()
      modifies this
      ensures if old(execution).cancellationRequested
              then execution.status == Cancelled && log == Append(old(log), StateKind, "execution.cancelled")
              else Rows() == old(Rows())
      ensures Rows() == old(Rows()).CancelExecution()
    {
      var aggregate := new Execution.FromRow(execution);
      if aggregate.cancellationRequested {
        var ok := aggregate.Cancel();
        execution := aggregate.ToRow();
        log := Append(log, StateKind, "execution.cancelled");
      }
    }

    /** `configured` says whether the execution's provider configuration exists; without it the attempt raises. */
    method Enqueue(configured: bool) returns (ok: bool)
      modifies this
      ensures ok == configured
      ensures ok ==>
                && execution.status == (if old(execution).status == Queued then Building else old(execution).status)
                && job == (if old(job).Some? then old(job)
                           else Some(Job(old(execution).runnerPool, JobQueued, None, None, None)))
                && log == Append(old(log), StateKind, "runner.job_queued") && commands == old(commands)
      ensures Rows() == if ok then old(Rows()).Enqueue() else old(Rows())
    {
      if !configured {
        return false;
      }
      var aggregate := new Execution.FromRow(execution);
      if aggregate.status == Queued {
        var moved := aggregate.Transition(Queued, Provisioning);
        moved := aggregate.Transition(Provisioning, Planning);
        moved := aggregate.StartBuilding();
        execution := aggregate.ToRow();
      }
      if job.None? {
        job := Some(NewJob(aggregate.runnerPool));
      }
      log := Append(log, StateKind, "runner.job_queued");
      return true;
    }

    /** Everything the pass wrote is discarded when the aggregate raises, so nothing is assigned before that. */
    method PollJob() returns (polled: Polled)
      modifies this
      ensures polled == old(Rows()).PollJob()
      ensures Rows() == AfterPoll(old(Rows()), polled)
    {
      if job.None? {
        return Raised;
      }
      if job.value.status != JobCompleted {
        return NotCompleted;
      }
      var aggregate := new Execution.FromRow(execution);
      var report := job.value.result.GetOr(MISSING_RESULT);
      var ok := aggregate.RecordUsage(1, report.turns, report.durationSeconds, report.costMinor);
      if !ok {
        return Raised;
      }
      polled := VerifyAndSettle(aggregate, report);
    }

    /** The rest of the pass, on the charged aggregate. */
    method VerifyAndSettle(aggregate: Execution, report: Completion) returns (polled: Polled)
      requires job.Some?
      modifies this, aggregate
      ensures polled == old(Rows()).Settle(old(aggregate.ToRow()), report)
      ensures Rows() == AfterPoll(old(Rows()), polled)
    {
      hide Append, AppendAgentEvents, Job.Requeued;
      var ok := aggregate.Transition(Building, Verifying);
      if !ok {
        return Raised;
      }
      var verified := RecordAgentEvents(log, report.events);
      verified := Append(verified, ResultKind, "verification.completed");
      if !report.agentSuccess || !report.validationPassed {
        ok := aggregate.RequestRepair();
        if aggregate.status == Repairing {
          ok := aggregate.StartBuilding();
          job := Some(job.value.Requeued());
          execution := aggregate.ToRow();
          log := Append(verified, DecisionKind, "repair.queued");
          return RepairQueued(Rows());
        }
        execution := aggregate.ToRow();
        log := verified;
        return HandedToHuman(Rows());
      }
      ok := aggregate.Transition(Verifying, Delivering);
      execution := aggregate.ToRow();
      log := verified;
      return ReadyToDeliver(Rows(), report.commitSha);
    }

    method FinishDelivery(reference: string) returns (ok: bool)
      modifies this
      ensures ok <==> old(execution).status == Delivering
      ensures ok ==>
                && execution.status == Delivered && execution.resultReference == Some(reference) && job == old(job)
                && log == Append(old(log), ResultKind, "delivery.completed") && commands == old(commands)
      ensures ok <==> old(Rows()).FinishDelivery(reference).Some?
      ensures Rows() == old(Rows()).FinishDelivery(reference).GetOr(old(Rows()))
    {
      var aggregate := new Execution.FromRow(execution);
      ok := aggregate.Deliver(reference);
      if !ok {
        return;
      }
      execution := aggregate.ToRow();
      log := Append(log, ResultKind, "delivery.completed");
    }
  }
}
