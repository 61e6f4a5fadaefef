/** What every reachable state satisfies: how the execution's row, its job, the workflow, the attempts and the
    consumed completions hang together. Nothing in the services states it; the safety theorems all rest on it. */
module DeliveryInvariant {
  import opened Wrappers
  import opened Executions
  import opened RunnerJobs
  import opened DeliveryTransactions
  import opened DeliveryWorkflows
  import opened DeliveryProtocol

  /** The timeline is numbered 1, 2, …, n. */
  ghost predicate Numbered(log: seq<Event>) {
    forall k :: 0 <= k < |log| ==> log[k].sequence == k + 1
  }

  /** The `k`-th charge was for the `k`-th accepted completion, and at most one more has been accepted. */
  ghost predicate Charged(budget: Budget, usage: Usage, accepted: seq<Accepted>, consumed: seq<Completion>) {
    && |consumed| <= |accepted| <= |consumed| + 1
    && (forall k :: 0 <= k < |consumed| ==> consumed[k] == accepted[k].report)
    && usage == Total(consumed)
    && budget.Within(usage)
    && usage.attempts == |consumed|
  }

  ghost predicate JobShape(job: Option<Job>, pool: int, now: int, h: History) {
    match job
    case None => h.accepted == []
    case Some(job) =>
      && job.pool == pool
      && (job.result.Some? <==> job.status == JobCompleted)
      && (job.leasedBy.Some? <==> job.status != JobQueued)
      && (job.leasedAt.Some? <==> job.status != JobQueued)
      && (job.leasedAt.Some? ==> job.leasedAt.value <= now)
      && (job.status != JobCompleted ==> |h.accepted| == |h.consumed|)
      && (job.status == JobCompleted ==>
            h.accepted != [] && job.result == Some(h.accepted[|h.accepted| - 1].report))
  }

  ghost predicate AllFailed(reports: seq<Completion>) {
    forall k :: 0 <= k < |reports| ==> !reports[k].Evidence()
  }

  /** Every consumed completion but the last failed, and the last one passed. */
  ghost predicate EndedByEvidence(reports: seq<Completion>) {
    reports != [] && reports[|reports| - 1].Evidence() && AllFailed(reports[..|reports| - 1])
  }

  ghost predicate CompletedAndConsumed(job: Option<Job>, h: History) {
    job.Some? && job.value.status == JobCompleted && |h.accepted| == |h.consumed|
  }

  /** The committed status against the job and the consumed completions; the statuses left out of the match are
      never committed. */
  ghost predicate Coupled(e: Row, job: Option<Job>, h: History) {
    && e.budget.Valid()
    && (e.status != Cancelled ==> h.stage == e.status)
    && (e.status == Cancelled ==> e.cancellationRequested)
    && (e.approval == Approved <==> h.stage != AwaitingApproval)
    && e.approval != Rejected
    && match h.stage
       case AwaitingApproval => h.consumed == [] && (e.status != Cancelled ==> job.None?)
       case Queued => h.consumed == [] && (e.status != Cancelled ==> job.None?)
       case Building =>
         && AllFailed(h.consumed) && |h.consumed| < e.budget.maxAttempts && job.Some?
         && (job.value.status == JobCompleted ==> |h.accepted| == |h.consumed| + 1)
       case Delivering => EndedByEvidence(h.consumed) && CompletedAndConsumed(job, h)
       case Delivered => EndedByEvidence(h.consumed) && CompletedAndConsumed(job, h)
       case AwaitingHuman =>
         AllFailed(h.consumed) && |h.consumed| == e.budget.maxAttempts && CompletedAndConsumed(job, h)
       case _ => false
  }

  ghost predicate AttemptAllowed(i: nat, attempt: Attempt, h: History) {
    match attempt
    case CallingPullRequest(sha) =>
      && h.deliverer == Some(i) && h.pullRequests == [] && h.stage == Delivering
      && h.consumed != [] && sha == h.consumed[|h.consumed| - 1].commitSha
    case Finishing(reference) =>
      h.deliverer == Some(i) && h.replies == [reference] && h.stage == Delivering
    case _ => true
  }

  /** One attempt at most carries the delivery, and it calls the pull-request service at most once. */
  ghost predicate OneDeliverer(e: Row, attempts: seq<Attempt>, h: History) {
    && (h.deliverer.Some? <==> h.stage == Delivering || h.stage == Delivered)
    && |h.replies| <= |h.pullRequests| <= 1
    && (h.deliverer.None? ==> h.pullRequests == [])
    && (h.pullRequests != [] ==>
          h.consumed != [] && h.pullRequests[0] == h.consumed[|h.consumed| - 1].commitSha)
    && (forall i :: 0 <= i < |attempts| ==> AttemptAllowed(i, attempts[i], h))
    && (h.stage == Delivered ==> |h.replies| == 1)
    && (h.stage == Delivered ==> e.resultReference == Some(h.replies[0]))
    && (h.stage != Delivered ==> e.resultReference == None)
  }

  function VersionAt(stage: Status, consumed: nat): nat {
    match stage
    case AwaitingApproval => 1
    case Queued => 2
    case Building => 5 + 4 * consumed
    case Delivering => 4 * consumed + 4
    case AwaitingHuman => 4 * consumed + 4
    case Delivered => 4 * consumed + 5
    case _ => 0
  }

  ghost predicate Versioned(e: Row, h: History) {
    && e.version == VersionAt(h.stage, |h.consumed|) + h.cancelRequests + h.cancelCommits
    && (h.cancelCommits > 0 <==> e.status == Cancelled)
    && (e.cancellationRequested <==> h.cancelRequests > 0)
  }

  /** START comes first and once; APPROVE and CANCEL commands exist only when the row says so. */
  ghost predicate CommandsMatch(commands: seq<Command>, approved: bool, requested: bool) {
    && |commands| > 0
    && (forall j :: 0 <= j < |commands| ==> (commands[j].StartCommand? <==> j == 0))
    && (forall j :: 0 <= j < |commands| && commands[j].ApproveCommand? ==> approved)
    && (forall j :: 0 <= j < |commands| && commands[j].CancelCommand? ==> requested)
    && (requested ==> exists j :: 0 <= j < |commands| && commands[j].CancelCommand?)
  }

  ghost predicate BatchMatches(commands: nat, dispatched: nat, batch: Batch) {
    dispatched <= commands && (batch.Batch? ==> dispatched <= batch.cursor <= batch.end <= commands)
  }

  function Sent(dispatched: nat, batch: Batch): nat {
    if batch.Batch? then batch.cursor else dispatched
  }

  predicate Seen(w: Workflow, command: Command) {
    match command
    case StartCommand => true
    case ApproveCommand(_) => w.approved
    case CancelCommand(_) => w.cancelled
  }

  /** A run that has not decided yet has seen every command sent so far. */
  ghost predicate UpToDate(w: Workflow, commands: seq<Command>, sent: nat)
    requires sent <= |commands|
  {
    && (sent > 0 ==> w.runs > 0)
    && (w.Undecided() ==> forall j :: 0 <= j < sent ==> Seen(w, commands[j]))
  }

  ghost predicate WorkflowMatches(w: Workflow, approved: bool, requested: bool, cancelScheduled: bool, attempts: nat) {
    && (w.phase == NotStarted <==> w.runs == 0)
    && (w.phase == NotStarted ==> !w.approved && !w.cancelled)
    && (w.approved ==> approved)
    && (w.cancelled ==> requested)
    && (cancelScheduled ==> requested)
    && (w.phase == Cancelling ==> cancelScheduled)
    && (w.phase == Executing || attempts > 0 ==> approved)
    && w.attempts <= MAXIMUM_ATTEMPTS
    && (w.Undecided() || w.runs == 0 ==> w.attempts == 0)
    && (w.runs == 0 ==> attempts == 0)
    && (w.runs > 0 ==> attempts <= MAXIMUM_ATTEMPTS * (w.runs - 1) + w.attempts)
    && w.attempts <= attempts
  }

  /** While there has been one run, it took one branch. */
  ghost predicate OneBranch(w: Workflow, cancelScheduled: bool, attempts: nat) {
    w.runs <= 1 ==>
      && (w.phase in {NotStarted, Recording, Waiting} ==> attempts == 0 && !cancelScheduled)
      && (w.phase == Executing ==> !cancelScheduled)
      && (cancelScheduled ==> attempts == 0)
  }

  ghost predicate NeedsBranch(e: Row, job: Option<Job>, h: History, cancelScheduled: bool, attempts: nat) {
    && (job.Some? || h.stage !in {AwaitingApproval, Queued} ==> attempts > 0)
    && (e.status == Cancelled ==> cancelScheduled)
  }

  ghost predicate RowsInv(db: Db, attempts: seq<Attempt>, now: int, h: History) {
    && Numbered(db.log)
    && Charged(db.execution.budget, db.execution.usage, h.accepted, h.consumed)
    && JobShape(db.job, db.execution.runnerPool, now, h)
    && Coupled(db.execution, db.job, h)
    && OneDeliverer(db.execution, attempts, h)
    && Versioned(db.execution, h)
    && CommandsMatch(db.commands, db.execution.approval == Approved, db.execution.cancellationRequested)
  }

  ghost predicate ControlInv(s: Sys) {
    && BatchMatches(|s.db.commands|, s.dispatched, s.batch)
    && UpToDate(s.workflow, s.db.commands, Sent(s.dispatched, s.batch))
    && WorkflowMatches(s.workflow, s.db.execution.approval == Approved, s.db.execution.cancellationRequested,
                       s.cancelScheduled, |s.attempts|)
    && OneBranch(s.workflow, s.cancelScheduled, |s.attempts|)
    && NeedsBranch(s.db.execution, s.db.job, s.history, s.cancelScheduled, |s.attempts|)
  }

  ghost predicate Inv(s: Sys) {
    RowsInv(s.db, s.attempts, s.now, s.history) && ControlInv(s)
  }

  lemma {:induction false} LastOfNumbered(log: seq<Event>)
    requires Numbered(log)
    ensures LastSequence(log) == |log|
  {
    if log != [] {
      LastOfNumbered(log[..|log| - 1]);
    }
  }

  lemma AppendKeepsNumbering(log: seq<Event>, kind: EventKind, name: string)
    requires Numbered(log)
    ensures Numbered(Append(log, kind, name)) && |Append(log, kind, name)| == |log| + 1
  {
    LastOfNumbered(log);
  }

  lemma {:induction false} AgentEventsKeepNumbering(log: seq<Event>, events: seq<AgentEvent>)
    requires Numbered(log)
    ensures Numbered(AppendAgentEvents(log, events))
    ensures |AppendAgentEvents(log, events)| == |log| + |events|
  {
    if events != [] {
      var last := events[|events| - 1];
      AgentEventsKeepNumbering(log, events[..|events| - 1]);
      AppendKeepsNumbering(AppendAgentEvents(log, events[..|events| - 1]), MapKind(last.kind), last.name);
    }
  }

  lemma InitialInv(runnerPool: int, budget: Budget, now: int)
    requires budget.Valid()
    ensures Inv(Initial(runnerPool, budget, now))
  {
    assert Append([], ApprovalKind, "execution.approval_required")[0].sequence == 1;
  }

  lemma MoreCommands(commands: seq<Command>, command: Command, approved: bool, requested: bool)
    requires CommandsMatch(commands, approved, requested) && !command.StartCommand?
    ensures command.ApproveCommand? ==> CommandsMatch(commands + [command], true, requested)
    ensures command.CancelCommand? ==> CommandsMatch(commands + [command], approved, true)
  {
    var more := commands + [command];
    assert more[|commands|] == command;
    if requested {
      var j :| 0 <= j < |commands| && commands[j].CancelCommand?;
      assert more[j].CancelCommand?;
    }
  }

  lemma ApproveInv(s: Sys, actor: string)
    requires Inv(s)
    ensures Inv(Approve(s, actor))
  {
    AppendKeepsNumbering(s.db.log, ApprovalKind, "execution.approved");
    MoreCommands(s.db.commands, ApproveCommand(actor), s.db.execution.approval == Approved,
                 s.db.execution.cancellationRequested);
  }

  lemma RequestRows(s: Sys, actor: string)
    requires Inv(s)
    ensures var n := Request(s, actor); RowsInv(n.db, n.attempts, n.now, n.history)
  {
    hide Charged, Numbered, ControlInv, CommandsMatch;
    MoreCommands(s.db.commands, CancelCommand(actor), s.db.execution.approval == Approved,
                 s.db.execution.cancellationRequested);
  }

  lemma RequestInv(s: Sys, actor: string)
    requires Inv(s)
    ensures Inv(Request(s, actor))
  {
    hide RowsInv, CommandsMatch, OneBranch;
    RequestRows(s, actor);
  }

  lemma SentCommandIsSeen(w: Workflow, next: Workflow, commands: seq<Command>, sent: nat)
    requires sent < |commands| && w.Dispatch(commands[sent]) == Some(next)
    requires commands[sent].StartCommand? ==> sent == 0
    requires UpToDate(w, commands, sent)
    requires w.Open() ==> w.runs > 0
    ensures UpToDate(next, commands, sent + 1)
    ensures next.runs > 0
  {
    forall j | next.Undecided() && 0 <= j < sent + 1
      ensures Seen(next, commands[j])
    {
      if j < sent && w.Undecided() {
        assert Seen(w, commands[j]);
      }
    }
  }

  lemma SentCommandMatches(w: Workflow, next: Workflow, command: Command, approved: bool, requested: bool,
      scheduled: bool, attempts: nat)
    requires w.Dispatch(command) == Some(next)
    requires command.ApproveCommand? ==> approved
    requires command.CancelCommand? ==> requested
    requires WorkflowMatches(w, approved, requested, scheduled, attempts) && OneBranch(w, scheduled, attempts)
    ensures WorkflowMatches(next, approved, requested, scheduled, attempts) && OneBranch(next, scheduled, attempts)
  {
  }

  lemma SendInv(s: Sys)
    requires Inv(s)
    ensures Inv(Send(s))
  {
    hide OneDeliverer, Charged, JobShape, Numbered, Coupled, Versioned;
    if s.batch.Batch? && s.batch.cursor < s.batch.end {
      var command := s.db.commands[s.batch.cursor];
      var next := s.workflow.Dispatch(command);
      if next.Some? {
        SentCommandIsSeen(s.workflow, next.value, s.db.commands, s.batch.cursor);
        SentCommandMatches(s.workflow, next.value, command, s.db.execution.approval == Approved,
                           s.db.execution.cancellationRequested, s.cancelScheduled, |s.attempts|);
      }
    }
  }

  lemma FetchInv(s: Sys, end: nat)
    requires Inv(s)
    ensures Inv(Fetch(s, end))
  {
    hide RowsInv;
  }

  lemma CommitInv(s: Sys)
    requires Inv(s)
    ensures Inv(Commit(s)) && Inv(s.(batch := NoBatch))
  {
    hide RowsInv;
  }

  lemma WakeInv(s: Sys)
    requires Inv(s)
    ensures Inv(WakeUp(s)) && Inv(Record(s))
  {
    hide RowsInv;
  }

  lemma CloseInv(s: Sys)
    requires Inv(s)
    ensures Inv(Close(s, Cancelling)) && Inv(Close(s, Executing))
  {
    hide RowsInv;
  }

  lemma CancelInv(s: Sys)
    requires Inv(s)
    ensures Inv(RunCancel(s))
  {
    AppendKeepsNumbering(s.db.log, StateKind, "execution.cancelled");
  }

  lemma AttemptMoves(e: Row, attempts: seq<Attempt>, h: History, i: nat, pc: Attempt)
    requires OneDeliverer(e, attempts, h) && i < |attempts| && AttemptAllowed(i, pc, h)
    ensures OneDeliverer(e, attempts[i := pc], h)
  {
  }

  /** Steps of attempts and runners leave the dispatcher and the workflow alone. */
  lemma ControlFrame(s: Sys, n: Sys)
    requires ControlInv(s)
    requires n.dispatched == s.dispatched && n.batch == s.batch && n.workflow == s.workflow
    requires n.cancelScheduled == s.cancelScheduled && |n.attempts| == |s.attempts| && n.db.commands == s.db.commands
    requires n.db.execution.approval == s.db.execution.approval
    requires n.db.execution.cancellationRequested == s.db.execution.cancellationRequested
    requires n.db.execution.status == Cancelled ==> s.db.execution.status == Cancelled
    requires |s.attempts| > 0 || (n.db.job == s.db.job && n.history.stage == s.history.stage)
    ensures ControlInv(n)
  {
  }

  lemma EnqueueInv(s: Sys, i: nat)
    requires Inv(s)
    ensures Inv(RunEnqueue(s, i))
  {
    if At(s, i, Enqueueing) {
      var n := RunEnqueue(s, i);
      AppendKeepsNumbering(s.db.log, StateKind, "runner.job_queued");
      AttemptMoves(s.db.execution, s.attempts, s.history, i, Polling);
      ControlFrame(s, n);
    }
  }

  lemma {:induction false} ChargeAdds(consumed: seq<Completion>, report: Completion)
    ensures Total(consumed + [report]) == Plus(Total(consumed), report.Charge())
  {
    assert (consumed + [report])[..|consumed|] == consumed;
  }

  lemma ConsumeCharges(e: Row, h: History, report: Completion)
    requires Charged(e.budget, e.usage, h.accepted, h.consumed)
    requires |h.accepted| == |h.consumed| + 1 && h.accepted[|h.consumed|].report == report
    requires e.RecordUsage(report.Charge()).Some?
    ensures Charged(e.budget, Plus(e.usage, report.Charge()), h.accepted, h.consumed + [report])
  {
    ChargeAdds(h.consumed, report);
  }

  lemma VerificationNumbered(db: Db, report: Completion)
    requires Numbered(db.log)
    ensures Numbered(db.VerificationLog(report))
    ensures Numbered(Append(db.VerificationLog(report), DecisionKind, "repair.queued"))
  {
    AgentEventsKeepNumbering(db.log, report.events);
    AppendKeepsNumbering(AppendAgentEvents(db.log, report.events), ResultKind, "verification.completed");
    AppendKeepsNumbering(db.VerificationLog(report), DecisionKind, "repair.queued");
  }

  lemma NobodyDelivers(e: Row, next: Row, attempts: seq<Attempt>, h: History, g: History, i: nat, pc: Attempt)
    requires OneDeliverer(e, attempts, h) && h.stage == Building && i < |attempts|
    requires g.pullRequests == h.pullRequests && g.replies == h.replies
    requires next.resultReference == e.resultReference
    requires
      || (g.deliverer == h.deliverer && g.stage in {Building, AwaitingHuman} && pc in {Polling, Returned})
      || (&& g.deliverer == Some(i) && g.stage == Delivering && g.consumed != []
          && pc == CallingPullRequest(g.consumed[|g.consumed| - 1].commitSha))
    ensures OneDeliverer(next, attempts[i := pc], g)
  {
  }

  /** A pass that commits something found the execution BUILDING and an unconsumed report on the job. */
  lemma PassFindsReport(s: Sys)
    requires Inv(s) && !s.db.PollJob().Raised? && !s.db.PollJob().NotCompleted?
    ensures s.db.job.Some? && s.db.job.value.status == JobCompleted && s.db.job.value.result.Some?
    ensures s.db.execution.status == s.history.stage == Building
    ensures |s.history.accepted| == |s.history.consumed| + 1
    ensures s.history.accepted[|s.history.consumed|].report == s.db.job.value.result.value
    ensures s.db.execution.RecordUsage(s.db.job.value.result.value.Charge()).Some?
  {
    hide ControlInv, Numbered, OneDeliverer, CommandsMatch, Versioned;
  }

  lemma RepairRows(s: Sys, i: nat)
    requires Inv(s) && At(s, i, Polling) && s.db.PollJob().RepairQueued?
    ensures var n := RunPoll(s, i); RowsInv(n.db, n.attempts, n.now, n.history)
  {
    hide ControlInv, Charged, Numbered, OneDeliverer, CommandsMatch;
    PassFindsReport(s);
    var report := s.db.job.value.result.value;
    var n := RunPoll(s, i);
    VerificationNumbered(s.db, report);
    ConsumeCharges(s.db.execution, s.history, report);
    NobodyDelivers(s.db.execution, n.db.execution, s.attempts, s.history, n.history, i, Polling);
    assert s.attempts[i := Polling] == s.attempts;
  }

  lemma HandOverRows(s: Sys, i: nat)
    requires Inv(s) && At(s, i, Polling) && s.db.PollJob().HandedToHuman?
    ensures var n := RunPoll(s, i); RowsInv(n.db, n.attempts, n.now, n.history)
  {
    hide ControlInv, Charged, Numbered, OneDeliverer, CommandsMatch;
    PassFindsReport(s);
    var report := s.db.job.value.result.value;
    var n := RunPoll(s, i);
    VerificationNumbered(s.db, report);
    ConsumeCharges(s.db.execution, s.history, report);
    NobodyDelivers(s.db.execution, n.db.execution, s.attempts, s.history, n.history, i, Returned);
  }

  lemma ReadyRows(s: Sys, i: nat)
    requires Inv(s) && At(s, i, Polling) && s.db.PollJob().ReadyToDeliver?
    ensures var n := RunPoll(s, i); RowsInv(n.db, n.attempts, n.now, n.history)
  {
    hide ControlInv, Charged, Numbered, OneDeliverer, CommandsMatch;
    PassFindsReport(s);
    var report := s.db.job.value.result.value;
    var n := RunPoll(s, i);
    VerificationNumbered(s.db, report);
    ConsumeCharges(s.db.execution, s.history, report);
    NobodyDelivers(s.db.execution, n.db.execution, s.attempts, s.history, n.history, i,
        CallingPullRequest(report.commitSha));
    assert n.history.consumed[..|s.history.consumed|] == s.history.consumed;
  }

  lemma PassFrame(db: Db)
    ensures var n := AfterPoll(db, db.PollJob());
            && n.commands == db.commands && (n.job.Some? <==> db.job.Some?)
            && n.execution.approval == db.execution.approval
            && n.execution.cancellationRequested == db.execution.cancellationRequested
            && (n.execution.status == Cancelled ==> db.execution.status == Cancelled)
            && n.execution.budget == db.execution.budget
  {
  }

  lemma PollControl(s: Sys, i: nat)
    requires Inv(s) && At(s, i, Polling)
    ensures ControlInv(RunPoll(s, i))
  {
    hide ControlInv, RowsInv;
    PassFrame(s.db);
    var n := RunPoll(s, i);
    assert n.db == AfterPoll(s.db, s.db.PollJob());
    ControlFrame(s, n);
  }

  lemma PollInv(s: Sys, i: nat)
    requires Inv(s)
    ensures Inv(RunPoll(s, i))
  {
    hide ControlInv;
    if At(s, i, Polling) {
      PollControl(s, i);
      match s.db.PollJob()
      case NotCompleted =>
      case Raised => AttemptMoves(s.db.execution, s.attempts, s.history, i, Attempt.Failed);
      case RepairQueued(_) => RepairRows(s, i);
      case HandedToHuman(_) => HandOverRows(s, i);
      case ReadyToDeliver(_, _) => ReadyRows(s, i);
    }
  }

  lemma CallInv(s: Sys, i: nat, reply: Option<string>)
    requires Inv(s)
    ensures Inv(RunCall(s, i, reply))
  {
  }

  lemma FinishRows(s: Sys, i: nat)
    requires Inv(s)
    ensures var n := RunFinish(s, i); RowsInv(n.db, n.attempts, n.now, n.history)
  {
    hide ControlInv, CommandsMatch, Charged;
    AppendKeepsNumbering(s.db.log, ResultKind, "delivery.completed");
  }

  lemma FinishInv(s: Sys, i: nat)
    requires Inv(s)
    ensures Inv(RunFinish(s, i))
  {
    hide ControlInv, RowsInv;
    FinishRows(s, i);
    if i < |s.attempts| {
      ControlFrame(s, RunFinish(s, i));
    }
  }

  lemma SpawnInv(s: Sys)
    requires Inv(s)
    ensures Inv(Spawn(s))
  {
  }

  lemma CrashInv(s: Sys, i: nat)
    requires Inv(s)
    ensures Inv(Crash(s, i))
  {
    hide ControlInv, CommandsMatch, Charged, JobShape, Versioned, Coupled, Numbered, OneDeliverer;
    if i < |s.attempts| {
      AttemptMoves(s.db.execution, s.attempts, s.history, i, Attempt.Failed);
      ControlFrame(s, Crash(s, i));
    }
  }

  lemma LeaseInv(s: Sys, runner: Runner)
    requires Inv(s)
    ensures Inv(LeaseTo(s, runner))
  {
    ControlFrame(s, LeaseTo(s, runner));
  }

  lemma RenewInv(s: Sys, runnerId: int)
    requires Inv(s)
    ensures Inv(Renew(s, runnerId))
  {
    ControlFrame(s, Renew(s, runnerId));
  }

  lemma PassInv(s: Sys, seconds: nat)
    requires Inv(s)
    ensures Inv(Pass(s, seconds))
  {
    ControlFrame(s, Pass(s, seconds));
  }

  lemma CompleteInv(s: Sys, runnerId: int, report: Completion)
    requires Inv(s)
    ensures Inv(RunComplete(s, runnerId, report))
  {
    ControlFrame(s, RunComplete(s, runnerId, report));
  }

  lemma DispatcherStepInv(s: Sys, step: Step)
    requires Inv(s)
    requires step.FetchBatch? || step.SendCommand? || step.CommitBatch? || step.CrashDispatcher?
    ensures Inv(Apply(s, step))
  {
    hide Inv;
    match step
    case FetchBatch(end) => FetchInv(s, end);
    case SendCommand => SendInv(s);
    case _ => CommitInv(s);
  }

  lemma WorkflowStepInv(s: Sys, step: Step)
    requires Inv(s)
    requires step.RecordWaiting? || step.Wake? || step.StartAttempt? || step.CompleteCancel? || step.FailRun?
             || step.CompleteRun?
    ensures Inv(Apply(s, step))
  {
    hide Inv;
    match step
    case StartAttempt => SpawnInv(s);
    case RecordWaiting => WakeInv(s);
    case Wake => WakeInv(s);
    case _ => CloseInv(s);
  }

  lemma AttemptStepInv(s: Sys, step: Step)
    requires Inv(s)
    requires step.Enqueue? || step.Poll? || step.CallPullRequest? || step.Finish? || step.CrashAttempt?
    ensures Inv(Apply(s, step))
  {
    hide Inv;
    match step
    case Enqueue(i) => EnqueueInv(s, i);
    case Poll(i) => PollInv(s, i);
    case CallPullRequest(i, reply) => CallInv(s, i, reply);
    case Finish(i) => FinishInv(s, i);
    case CrashAttempt(i) => CrashInv(s, i);
  }

  lemma RunnerStepInv(s: Sys, step: Step)
    requires Inv(s)
    requires step.Lease? || step.Heartbeat? || step.Tick? || step.Complete?
    ensures Inv(Apply(s, step))
  {
    hide Inv;
    match step
    case Lease(runner) => LeaseInv(s, runner);
    case Heartbeat(runnerId) => RenewInv(s, runnerId);
    case Tick(seconds) => PassInv(s, seconds);
    case Complete(runnerId, report) => CompleteInv(s, runnerId, report);
  }

  /** Every step of every participant keeps the invariant. */
  lemma StepInv(s: Sys, step: Step)
    requires Inv(s)
    ensures Inv(Apply(s, step))
  {
    hide Inv;
    match step
    case ApproveExecution(actor) => ApproveInv(s, actor);
    case RequestCancellation(actor) => RequestInv(s, actor);
    case CancelActivity => CancelInv(s);
    case _ =>
      if step.FetchBatch? || step.SendCommand? || step.CommitBatch? || step.CrashDispatcher? {
        DispatcherStepInv(s, step);
      } else if step.Enqueue? || step.Poll? || step.CallPullRequest? || step.Finish? || step.CrashAttempt? {
        AttemptStepInv(s, step);
      } else if step.Lease? || step.Heartbeat? || step.Tick? || step.Complete? {
        RunnerStepInv(s, step);
      } else {
        WorkflowStepInv(s, step);
      }
  }

  /** … and so does every run. */
  lemma {:induction false} RunInv(s: Sys, steps: seq<Step>)
    requires Inv(s)
    ensures Inv(Exec(s, steps))
    decreases |steps|
  {
    if steps != [] {
      StepInv(s, steps[0]);
      RunInv(Apply(s, steps[0]), steps[1..]);
    }
  }
}
