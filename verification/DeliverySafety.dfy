/** What every run of the delivery protocol guarantees, whatever the interleaving, the crashes and the retries. */
module DeliverySafety {
  import opened Wrappers
  import opened Executions
  import opened RunnerJobs
  import opened DeliveryTransactions
  import opened DeliveryWorkflows
  import opened DeliveryProtocol
  import opened DeliveryInvariant

  /** Some run of some accepted work item leads to `s`. */
  ghost predicate Reachable(s: Sys) {
    exists pool: int, budget: Budget, now: int, steps: seq<Step> ::
      budget.Valid() && s == Exec(Initial(pool, budget, now), steps)
  }

  lemma ReachableInv(s: Sys)
    requires Reachable(s)
    ensures Inv(s)
  {
    var pool: int, budget: Budget, now: int, steps: seq<Step> :|
        budget.Valid() && s == Exec(Initial(pool, budget, now), steps);
    InitialInv(pool, budget, now);
    RunInv(Initial(pool, budget, now), steps);
  }

  /** Evidence safety: whatever is being delivered was approved by a reviewer, and the last completion the workflow
      consumed is the last one any runner reported, with agent and validator both passing. */
  lemma EvidenceSafety(s: Sys)
    requires Reachable(s) && s.db.execution.status in {Delivering, Delivered}
    ensures s.db.execution.approval == Approved
    ensures s.history.accepted != []
    ensures var last := s.history.accepted[|s.history.accepted| - 1].report;
            && last.agentSuccess && last.validationPassed
            && s.db.job.Some? && s.db.job.value.result == Some(last)
    ensures forall k :: 0 <= k < |s.history.accepted| - 1 ==>
              !(s.history.accepted[k].report.agentSuccess && s.history.accepted[k].report.validationPassed)
  {
    ReachableInv(s);
    var n := |s.history.consumed| - 1;
    forall k | 0 <= k < n
      ensures !s.history.accepted[k].report.Evidence()
    {
      assert s.history.consumed[..n][k] == s.history.consumed[k];
    }
  }

  /** At most once: over the whole life of the execution the pull-request service is called at most once, for the
      commit of the passing report, and a delivered execution stores the answer to that call. */
  lemma AtMostOnePullRequest(s: Sys)
    requires Reachable(s)
    ensures |s.history.pullRequests| <= 1
    ensures s.history.pullRequests != [] ==>
              && s.history.stage in {Delivering, Delivered}
              && s.history.consumed != []
              && s.history.consumed[|s.history.consumed| - 1].Evidence()
              && s.history.pullRequests == [s.history.consumed[|s.history.consumed| - 1].commitSha]
    ensures s.db.execution.status == Delivered ==>
              && |s.history.pullRequests| == 1
              && |s.history.replies| == 1
              && s.db.execution.resultReference == Some(s.history.replies[0])
  {
    ReachableInv(s);
  }

  function SumBy(reports: seq<Completion>, cost: Completion -> nat): nat {
    if reports == [] then 0 else SumBy(reports[..|reports| - 1], cost) + cost(reports[|reports| - 1])
  }

  lemma {:induction false} TotalIsSum(reports: seq<Completion>)
    ensures Total(reports) == Usage(|reports|, SumBy(reports, (c: Completion) => c.turns),
                                    SumBy(reports, (c: Completion) => c.durationSeconds),
                                    SumBy(reports, (c: Completion) => c.costMinor))
  {
    if reports != [] {
      TotalIsSum(reports[..|reports| - 1]);
    }
  }

  /** Conservation: the persisted usage is the sum over the consumed completions, which are the first accepted ones
      in order; one more is pending exactly while a completed job of a BUILDING execution waits to be read. */
  lemma UsageConserved(s: Sys)
    requires Reachable(s)
    ensures |s.history.consumed| <= |s.history.accepted| <= |s.history.consumed| + 1
    ensures forall k :: 0 <= k < |s.history.consumed| ==> s.history.consumed[k] == s.history.accepted[k].report
    ensures s.db.execution.usage ==
              Usage(|s.history.consumed|, SumBy(s.history.consumed, (c: Completion) => c.turns),
                    SumBy(s.history.consumed, (c: Completion) => c.durationSeconds),
                    SumBy(s.history.consumed, (c: Completion) => c.costMinor))
    ensures s.db.execution.status != Cancelled ==>
              (|s.history.accepted| == |s.history.consumed| + 1 <==>
                s.db.execution.status == Building && s.db.job.Some? && s.db.job.value.status == JobCompleted)
  {
    ReachableInv(s);
    TotalIsSum(s.history.consumed);
  }

  /** Execution and job move together; the intermediate statuses are never committed. */
  lemma StatusAndJob(s: Sys)
    requires Reachable(s)
    ensures s.db.execution.status in {AwaitingApproval, Queued, Building, Delivering, Delivered, AwaitingHuman,
            Cancelled}
    ensures s.db.execution.status in {AwaitingApproval, Queued} ==> s.db.job.None?
    ensures s.db.execution.status == Cancelled && s.workflow.runs <= 1 ==> s.db.job.None?
    ensures s.db.execution.status == Building ==> s.db.job.Some?
    ensures s.db.execution.status in {Delivering, Delivered, AwaitingHuman} ==>
              s.db.job.Some? && s.db.job.value.status == JobCompleted
    ensures s.db.job.Some? ==> (s.db.job.value.result.Some? <==> s.db.job.value.status == JobCompleted)
    ensures s.db.execution.approval == Approved <==> s.history.stage != AwaitingApproval
  {
    ReachableInv(s);
  }

  /** The version counts every committed transition: `a` consumed attempts, `c` cancellation requests and, after a
      cancellation, one more for each time the cancel activity committed. */
  lemma VersionClosedForm(s: Sys)
    requires Reachable(s)
    ensures var a, c, v := |s.history.consumed|, s.history.cancelRequests, s.db.execution.version;
            match s.db.execution.status
            case AwaitingApproval => v == 1 + c
            case Queued => v == 2 + c
            case Building => v == 5 + 4 * a + c
            case Delivering => v == 4 * a + 4 + c
            case AwaitingHuman => v == 4 * a + 4 + c
            case Delivered => v == 4 * a + 5 + c
            case _ => v == VersionAt(s.history.stage, a) + c + s.history.cancelCommits
  {
    ReachableInv(s);
  }

  /** Bounded repair: the caps hold in every committed state, a human is asked exactly when the attempts are used
      up, and the next attempt never trips over the attempts cap. */
  lemma BoundedRepair(s: Sys, report: Completion)
    requires Reachable(s)
    ensures s.db.execution.budget.Within(s.db.execution.usage)
    ensures |s.history.consumed| == s.db.execution.usage.attempts <= s.db.execution.budget.maxAttempts
    ensures s.db.execution.status != Cancelled ==>
              (s.db.execution.status == AwaitingHuman <==>
                s.db.execution.usage.attempts == s.db.execution.budget.maxAttempts && AllFailed(s.history.consumed))
    ensures s.db.execution.status == Building ==>
              Attempts !in s.db.execution.budget.Exceeded(Plus(s.db.execution.usage, report.Charge()))
  {
    ReachableInv(s);
  }

  /** A request to cancel is granted until the execution is delivered or cancelled, and then always noted for the
      workflow; afterwards it is refused. */
  lemma CancellationIsGranted(s: Sys, actor: string)
    requires Reachable(s)
    ensures var n := Apply(s, RequestCancellation(actor));
            if s.db.execution.status in {AwaitingApproval, Queued, Building, Delivering, AwaitingHuman} then
              && n.db.execution.cancellationRequested && n.db.commands == s.db.commands + [CancelCommand(actor)]
              && n.db.execution.status == s.db.execution.status
            else
              n.db == s.db && s.db.execution.status in {Delivered, Cancelled}
  {
    StatusAndJob(s);
  }

  /** Each run of the workflow starts at most three attempts of the delivery. */
  lemma ThreeAttemptsPerRun(s: Sys)
    requires Reachable(s)
    ensures |s.attempts| <= 3 * s.workflow.runs && s.workflow.attempts <= 3
    ensures s.workflow.phase == Executing ==>
              (|Apply(s, StartAttempt).attempts| == |s.attempts| + 1 <==> s.workflow.attempts < 3)
  {
    ReachableInv(s);
  }

  lemma AttemptsAreConsumed(s: Sys)
    requires Inv(s)
    ensures s.db.execution.usage.attempts == |s.history.consumed| <= s.db.execution.budget.maxAttempts
  {
  }

  /** The measure behind the bound: a committing pass of the polling loop uses up exactly one attempt. */
  lemma PassesUseUpAttempts(s: Sys, i: nat)
    requires Reachable(s)
    ensures var n := RunPoll(s, i);
            if |n.history.consumed| == |s.history.consumed| then n.db == s.db
            else
              && |n.history.consumed| == |s.history.consumed| + 1
              && 0 <= n.db.execution.budget.maxAttempts - n.db.execution.usage.attempts
                   < s.db.execution.budget.maxAttempts - s.db.execution.usage.attempts
  {
    hide Inv, Db.PollJob;
    ReachableInv(s);
    PollInv(s, i);
    PassFrame(s.db);
    AttemptsAreConsumed(s);
    AttemptsAreConsumed(RunPoll(s, i));
  }

  /** The timeline is exactly 1, …, n, so the stored maximum plus one is the length plus one. */
  lemma TimelineNumbered(s: Sys)
    requires Reachable(s)
    ensures forall k :: 0 <= k < |s.db.log| ==> s.db.log[k].sequence == k + 1
    ensures LastSequence(s.db.log) + 1 == |s.db.log| + 1
  {
    ReachableInv(s);
    LastOfNumbered(s.db.log);
  }

  lemma PassExtendsTimeline(db: Db)
    ensures db.log <= AfterPoll(db, db.PollJob()).log
  {
    if db.job.Some? {
      AgentEventsEnterTimeline(db.log, db.job.value.result.GetOr(MISSING_RESULT).events);
    }
  }

  lemma StepExtendsTimeline(s: Sys, step: Step)
    ensures s.db.log <= Apply(s, step).db.log
  {
    if step.Poll? {
      PassExtendsTimeline(s.db);
      assert RunPoll(s, step.attempt).db in {s.db, AfterPoll(s.db, s.db.PollJob())};
    } else {
      hide Db.PollJob;
    }
  }

  /** Events are only ever appended. */
  lemma {:induction false} TimelineGrows(s: Sys, steps: seq<Step>)
    ensures s.db.log <= Exec(s, steps).db.log
    decreases |steps|
  {
    if steps != [] {
      StepExtendsTimeline(s, steps[0]);
      TimelineGrows(Apply(s, steps[0]), steps[1..]);
    }
  }
}
