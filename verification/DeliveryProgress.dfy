/** What the protocol does achieve: from acceptance to BUILDING, and from BUILDING through the repair loop, the
    reports of a runner decide the outcome by a simple rule. */
module DeliveryProgress {
  import opened Wrappers
  import opened Executions
  import opened RunnerJobs
  import opened DeliveryTransactions
  import opened DeliveryWorkflows
  import opened DeliveryProtocol
  import opened DeliveryInvariant
  import opened DeliverySafety
  import opened DeliveryCancellation

  /** BUILDING, with a queued job and attempt `i` polling for it. */
  ghost predicate Building(s: Sys, i: nat) {
    && Inv(s)
    && s.db.execution.status == Status.Building
    && s.db.job.Some? && s.db.job.value.status == JobQueued
    && At(s, i, Polling)
  }

  /** One runner leases, reports, and the attempt reads the report. */
  function Cycle(s: Sys, i: nat, runner: Runner, report: Completion): Sys {
    RunPoll(RunComplete(LeaseTo(s, runner), runner.id, report), i)
  }

  /** The reports of one runner, one after the other. */
  function Steps(i: nat, runner: Runner, reports: seq<Completion>): seq<Step> {
    if reports == [] then []
    else [Lease(runner), Complete(runner.id, reports[0]), Poll(i)] + Steps(i, runner, reports[1..])
  }

  /** The dispatcher, the workflow and the commands are as they were. */
  predicate SameControl(s: Sys, n: Sys) {
    && n.workflow == s.workflow && n.dispatched == s.dispatched && n.db.commands == s.db.commands
    && |n.attempts| == |s.attempts|
  }

  lemma Reported(s: Sys, i: nat, runner: Runner, report: Completion)
    requires Building(s, i) && runner.pool == s.db.execution.runnerPool
    ensures var n := RunComplete(LeaseTo(s, runner), runner.id, report);
            && Inv(n) && At(n, i, Polling)
            && n.db.job.Some? && n.db.job.value.status == JobCompleted && n.db.job.value.result == Some(report)
            && n.db.execution == s.db.execution && n.history.consumed == s.history.consumed
            && SameControl(s, n)
  {
    LeaseInv(s, runner);
    CompleteInv(LeaseTo(s, runner), runner.id, report);
    assert s.db.job.value.Offered(runner, s.now);
  }

  /** What one pass does with a report: the four outcomes of the polling loop, exactly. */
  lemma PassVerdict(db: Db, report: Completion)
    requires db.execution.status == Status.Building
    requires db.job.Some? && db.job.value.status == JobCompleted && db.job.value.result == Some(report)
    ensures var polled, e, u := db.PollJob(), db.execution, Plus(db.execution.usage, report.Charge());
            var verified := Append(AppendAgentEvents(db.log, report.events), ResultKind, "verification.completed");
            && AfterPoll(db, polled).commands == db.commands
            && if !e.budget.Within(u) then polled == Raised
            else if report.agentSuccess && report.validationPassed then
              && polled.ReadyToDeliver? && polled.commitSha == report.commitSha && polled.db.job == db.job
              && polled.db.log == verified
              && polled.db.execution == e.(status := Delivering, usage := u, version := e.version + 3)
            else if u.attempts >= e.budget.maxAttempts then
              && polled.HandedToHuman? && polled.db.job == db.job && polled.db.log == verified
              && polled.db.execution == e.(status := AwaitingHuman, usage := u, version := e.version + 3)
            else
              && polled.RepairQueued? && polled.db.job == Some(Job(db.job.value.pool, JobQueued, None, None, None))
              && polled.db.log == Append(verified, DecisionKind, "repair.queued")
              && polled.db.execution == e.(usage := u, version := e.version + 4)
  {
  }

  /** When a pass has nothing to settle: it waits for a job that is not completed, and raises where there is no job or
      the execution is not BUILDING. */
  lemma PassWithoutVerdict(db: Db)
    ensures db.job.None? ==> db.PollJob() == Raised
    ensures db.job.Some? && db.job.value.status in {JobQueued, JobLeased} ==> db.PollJob() == NotCompleted
    ensures db.job.Some? && db.job.value.status == JobCompleted && db.execution.status != Status.Building ==>
              db.PollJob() == Raised
    ensures db.PollJob() in {Raised, NotCompleted} ==> AfterPoll(db, db.PollJob()) == db
  {
  }

  /** A completed job without a result document counts as one failed attempt that cost nothing. */
  lemma MissingResultFails(db: Db)
    requires db.execution.status == Status.Building
    requires db.job.Some? && db.job.value.status == JobCompleted && db.job.value.result.None?
    ensures var polled, e := db.PollJob(), db.execution;
            && (polled.Raised? <==> !e.budget.Within(Plus(e.usage, Usage(1, 0, 0, 0))))
            && (!polled.Raised? ==>
                  && (polled.HandedToHuman? || polled.RepairQueued?)
                  && polled.db.execution.usage == Plus(e.usage, Usage(1, 0, 0, 0)))
  {
  }

  lemma PassDecides(s: Sys, i: nat, report: Completion)
    requires At(s, i, Polling) && s.db.execution.status == Status.Building
    requires s.db.job.Some? && s.db.job.value.status == JobCompleted && s.db.job.value.result == Some(report)
    ensures var n, e, u := RunPoll(s, i), s.db.execution, Plus(s.db.execution.usage, report.Charge());
            && n.db.job.Some? && n.db.execution.budget == e.budget && n.db.execution.runnerPool == e.runnerPool
            && SameControl(s, n)
            && if !e.budget.Within(u) then
                 n.db == s.db && At(n, i, Attempt.Failed)
               else
                 && n.history.consumed == s.history.consumed + [report] && n.db.execution.usage == u
                 && if report.Evidence() then
                      && n.db.execution.status == Delivering && At(n, i, CallingPullRequest(report.commitSha))
                      && n.db.job == s.db.job
                    else if u.attempts >= e.budget.maxAttempts then
                      n.db.execution.status == AwaitingHuman && At(n, i, Returned) && n.db.job == s.db.job
                    else
                      && n.db.execution.status == Status.Building && At(n, i, Polling)
                      && n.db.job.value.status == JobQueued
  {
    hide Db.PollJob, Budget.Within;
    PassVerdict(s.db, report);
    PassFrame(s.db);
  }

  ghost predicate Settled(s: Sys, i: nat) {
    && s.db.execution.status in {Status.Building, Delivering, AwaitingHuman}
    && s.db.job.Some? && s.db.job.value.status == JobCompleted && i < |s.attempts| && s.attempts[i] != Polling
    && (s.db.execution.status == Delivering ==> s.attempts[i].CallingPullRequest?)
  }

  lemma CycleOutcome(s: Sys, i: nat, runner: Runner, report: Completion)
    requires Building(s, i) && runner.pool == s.db.execution.runnerPool
    ensures var n, e, u := Cycle(s, i, runner, report), s.db.execution, Plus(s.db.execution.usage, report.Charge());
            && Inv(n) && n.db.execution.budget == e.budget && n.db.execution.runnerPool == e.runnerPool
            && SameControl(s, n)
            && if !e.budget.Within(u) then
                 n.db.execution.status == Status.Building && Settled(n, i)
               else
                 && n.history.consumed == s.history.consumed + [report]
                 && if report.Evidence() then n.db.execution.status == Delivering && Settled(n, i)
                    else if u.attempts >= e.budget.maxAttempts then
                      n.db.execution.status == AwaitingHuman && Settled(n, i) && At(n, i, Returned)
                    else Building(n, i)
  {
    hide Inv;
    Reported(s, i, runner, report) by {
      assert Building(s, i);
    }
    var r := RunComplete(LeaseTo(s, runner), runner.id, report);
    PollInv(r, i);
    hide RunPoll, RunComplete, LeaseTo;
    PassDecides(r, i, report);
  }

  /** The rule: the `k`-th report is the first with evidence, and everything up to it fits the budget. */
  ghost predicate DecidedBy(budget: Budget, before: seq<Completion>, reports: seq<Completion>, k: int) {
    && 0 <= k < |reports|
    && AllFailed(reports[..k]) && reports[k].Evidence()
    && budget.Within(Total(before + reports[..k + 1]))
  }

  lemma SettledStays(s: Sys, i: nat, runner: Runner, report: Completion)
    requires Settled(s, i)
    ensures Cycle(s, i, runner, report) == s
  {
  }

  lemma {:induction false} TotalGrows(before: seq<Completion>, more: seq<Completion>)
    ensures var t, u := Total(before), Total(before + more);
            && t.attempts <= u.attempts && t.turns <= u.turns
            && t.durationSeconds <= u.durationSeconds && t.costMinor <= u.costMinor
    ensures Total(before + more).attempts == Total(before).attempts + |more|
  {
    if more == [] {
      assert before + more == before;
    } else {
      var init := more[..|more| - 1];
      TotalGrows(before, init);
      assert (before + more)[..|before + more| - 1] == before + init;
    }
  }

  lemma StepsAreCycle(s: Sys, i: nat, runner: Runner, reports: seq<Completion>)
    requires reports != []
    ensures Exec(s, Steps(i, runner, reports)) == Exec(Cycle(s, i, runner, reports[0]), Steps(i, runner, reports[1..]))
  {
    hide RunPoll, RunComplete, LeaseTo;
    var first := [Lease(runner), Complete(runner.id, reports[0]), Poll(i)];
    ExecAppend(s, first, Steps(i, runner, reports[1..]));
    ExecThree(s, first[0], first[1], first[2]);
  }

  lemma {:induction false} SettledStaysForGood(s: Sys, i: nat, runner: Runner, reports: seq<Completion>)
    requires Settled(s, i)
    ensures Exec(s, Steps(i, runner, reports)) == s
    decreases |reports|
  {
    if reports != [] {
      StepsAreCycle(s, i, runner, reports);
      SettledStays(s, i, runner, reports[0]);
      SettledStaysForGood(s, i, runner, reports[1..]);
    }
  }

  lemma DecidedLater(budget: Budget, before: seq<Completion>, reports: seq<Completion>, k: int)
    requires reports != [] && !reports[0].Evidence()
    ensures DecidedBy(budget, before, reports, k) <==>
              k > 0 && DecidedBy(budget, before + [reports[0]], reports[1..], k - 1)
  {
    if 0 < k < |reports| {
      assert reports[..k] == [reports[0]] + reports[1..][..k - 1];
      assert before + reports[..k + 1] == (before + [reports[0]]) + reports[1..][..k];
      var shorter := reports[1..][..k - 1];
      forall j | 0 <= j < k - 1
        ensures shorter[j] == reports[..k][j + 1]
      {
      }
    }
  }

  lemma NothingDecides(budget: Budget, before: seq<Completion>, reports: seq<Completion>)
    requires reports != []
    requires !budget.Within(Total(before + [reports[0]]))
             || (!reports[0].Evidence() && Total(before + [reports[0]]).attempts >= budget.maxAttempts)
    ensures forall k :: !DecidedBy(budget, before, reports, k)
  {
    forall k
      ensures !DecidedBy(budget, before, reports, k)
    {
      if 0 <= k < |reports| {
        assert before + reports[..k + 1] == (before + [reports[0]]) + reports[1..k + 1];
        TotalGrows(before + [reports[0]], reports[1..k + 1]);
      }
    }
  }

  /** The repair loop refines the rule: fed any list of reports, it ends in DELIVERING exactly when some report
      decides, and never otherwise. */
  lemma {:induction false} RepairLoopFollowsRule(s: Sys, i: nat, runner: Runner, reports: seq<Completion>)
    requires Building(s, i) && runner.pool == s.db.execution.runnerPool
    ensures Exec(s, Steps(i, runner, reports)).db.execution.status == Delivering <==>
              exists k :: DecidedBy(s.db.execution.budget, s.history.consumed, reports, k)
    ensures var n := Exec(s, Steps(i, runner, reports));
            && SameControl(s, n)
            && (n.db.execution.status == Delivering ==> i < |n.attempts| && n.attempts[i].CallingPullRequest?)
    decreases |reports|
  {
    hide ControlInv, Cycle;
    var budget, before := s.db.execution.budget, s.history.consumed;
    if reports != [] {
      var report, n := reports[0], Cycle(s, i, runner, reports[0]);
      CycleOutcome(s, i, runner, report);
      StepsAreCycle(s, i, runner, reports);
      ChargeAdds(before, report);
      if Building(n, i) {
        RepairLoopFollowsRule(n, i, runner, reports[1..]);
        forall k
          ensures DecidedBy(budget, before, reports, k) <==>
                  k > 0 && DecidedBy(budget, before + [report], reports[1..], k - 1)
        {
          DecidedLater(budget, before, reports, k);
        }
        if k :| DecidedBy(budget, before + [report], reports[1..], k) {
          assert DecidedBy(budget, before, reports, k + 1);
        }
      } else {
        SettledStaysForGood(n, i, runner, reports[1..]);
        if report.Evidence() && budget.Within(Total(before + [report])) {
          assert reports[..1] == [report] && reports[..0] == [];
          assert DecidedBy(budget, before, reports, 0);
        } else {
          NothingDecides(budget, before, reports);
        }
      }
    }
  }

  const SIGN_OFF: seq<Step> := [ApproveExecution("reviewer"), FetchBatch(2), SendCommand]
  const WAKE_UP: seq<Step> := [SendCommand, RecordWaiting, Wake]
  const ENQUEUE: seq<Step> := [StartAttempt, Enqueue(0)]

  lemma SignOff(s: Sys, pool: int, budget: Budget, now: int)
    requires s == Initial(pool, budget, now)
    ensures var t := Exec(s, SIGN_OFF);
            && t == s.(db := s.db.ApproveExecution("reviewer").value, history := s.history.(stage := Queued),
                       batch := Batch(1, 2), workflow := Workflow(Recording, false, false, None, 0, 1))
            && t.db.commands == [StartCommand, ApproveCommand("reviewer")]
  {
    ExecThree(s, SIGN_OFF[0], SIGN_OFF[1], SIGN_OFF[2]);
  }

  lemma WakeUp(s: Sys)
    requires s.batch == Batch(1, 2) && s.workflow == Workflow(Recording, false, false, None, 0, 1)
    requires s.db.commands == [StartCommand, ApproveCommand("reviewer")]
    ensures Exec(s, WAKE_UP) ==
            s.(batch := Batch(2, 2), workflow := Workflow(Executing, true, false, Some("reviewer"), 0, 1))
  {
    ExecThree(s, WAKE_UP[0], WAKE_UP[1], WAKE_UP[2]);
  }

  /** The shortest way from acceptance to a polling attempt; START is sent but not yet marked as dispatched. */
  lemma StartUpBuilds(pool: int, budget: Budget, now: int)
    requires budget.Valid()
    ensures var s := Exec(Initial(pool, budget, now), SIGN_OFF + WAKE_UP + ENQUEUE);
            && Building(s, 0) && s.history.consumed == [] && |s.attempts| == 1
            && s.workflow == Workflow(Executing, true, false, Some("reviewer"), 1, 1)
            && s.dispatched == 0 && s.db.commands == [StartCommand, ApproveCommand("reviewer")]
            && s.db.execution.budget == budget && s.db.execution.runnerPool == pool
  {
    hide Inv, Exec;
    var s := Initial(pool, budget, now);
    InitialInv(pool, budget, now);
    RunInv(s, SIGN_OFF + WAKE_UP + ENQUEUE);
    ExecAppend(s, SIGN_OFF + WAKE_UP, ENQUEUE);
    ExecAppend(s, SIGN_OFF, WAKE_UP);
    SignOff(s, pool, budget, now);
    var signedOff := Exec(s, SIGN_OFF);
    WakeUp(signedOff);
    FirstAttempt(Exec(s, SIGN_OFF + WAKE_UP));
  }

  lemma FirstAttempt(s: Sys)
    requires s.workflow == Workflow(Executing, true, false, Some("reviewer"), 0, 1) && s.attempts == []
    requires s.db.execution.status == Queued && s.db.job.None?
    ensures var t := Exec(s, ENQUEUE);
            && t.db.execution.status == Status.Building && t.db.job == Some(NewJob(s.db.execution.runnerPool))
            && t.attempts == [Polling] && t.workflow == s.workflow.(attempts := 1)
            && t.dispatched == s.dispatched && t.db.commands == s.db.commands
            && t.history.consumed == s.history.consumed
            && t.db.execution.budget == s.db.execution.budget && t.db.execution.runnerPool == s.db.execution.runnerPool
  {
    ExecTwo(s, StartAttempt, Enqueue(0));
  }

  /** The other outcome: when the attempts are used up on failing reports, a human is asked. */
  lemma {:induction false} FailuresHandOver(s: Sys, i: nat, runner: Runner, reports: seq<Completion>)
    requires Building(s, i) && runner.pool == s.db.execution.runnerPool
    requires reports != [] && AllFailed(reports)
    requires |s.history.consumed| + |reports| == s.db.execution.budget.maxAttempts
    requires s.db.execution.budget.Within(Total(s.history.consumed + reports))
    ensures var n := Exec(s, Steps(i, runner, reports));
            && n.db.execution.status == AwaitingHuman && At(n, i, Returned) && SameControl(s, n)
    decreases |reports|
  {
    hide Building, Settled, Cycle, Budget.Within, SameControl, Total, At;
    var n, rest := Cycle(s, i, runner, reports[0]), reports[1..];
    assert s.history.consumed + reports == (s.history.consumed + [reports[0]]) + rest;
    WithinEarlier(s.db.execution.budget, s.history.consumed + [reports[0]], rest);
    OneFailure(s, i, runner, reports[0]);
    StepsAreCycle(s, i, runner, reports);
    SameControlTwice(s, n, Exec(n, Steps(i, runner, rest)));
    if rest == [] {
      SettledStaysForGood(n, i, runner, rest);
    } else {
      FailuresHandOver(n, i, runner, rest);
    }
  }

  lemma OneFailure(s: Sys, i: nat, runner: Runner, report: Completion)
    requires Building(s, i) && runner.pool == s.db.execution.runnerPool && !report.Evidence()
    requires s.db.execution.budget.Within(Total(s.history.consumed + [report]))
    ensures var n := Cycle(s, i, runner, report);
            && n.history.consumed == s.history.consumed + [report] && SameControl(s, n)
            && n.db.execution.budget == s.db.execution.budget && n.db.execution.runnerPool == s.db.execution.runnerPool
            && if |s.history.consumed| + 1 >= s.db.execution.budget.maxAttempts then
                 n.db.execution.status == AwaitingHuman && Settled(n, i) && At(n, i, Returned)
               else Building(n, i)
  {
    hide Cycle, Budget.Within, SameControl, Settled, At, ControlInv, Coupled, OneDeliverer, JobShape, Versioned;
    ChargeAdds(s.history.consumed, report);
    CycleOutcome(s, i, runner, report);
  }

  lemma SameControlTwice(s: Sys, n: Sys, t: Sys)
    ensures SameControl(s, n) && SameControl(n, t) ==> SameControl(s, t)
  {
  }

  lemma WithinEarlier(budget: Budget, before: seq<Completion>, more: seq<Completion>)
    requires budget.Within(Total(before + more))
    ensures budget.Within(Total(before))
  {
    TotalGrows(before, more);
  }

  /** From acceptance, every list of reports that decides leads to a delivery in progress. */
  lemma DecisiveReportsLeadToDelivery(pool: int, budget: Budget, now: int, runnerId: int, reports: seq<Completion>,
      k: int)
    returns (steps: seq<Step>)
    requires budget.Valid() && DecidedBy(budget, [], reports, k)
    ensures var s := Exec(Initial(pool, budget, now), steps);
            && s.db.execution.status == Delivering && s.workflow.runs == 1 && s.dispatched == 0
            && 0 < |s.attempts| && s.attempts[0].CallingPullRequest?
  {
    hide Inv;
    var s0 := Initial(pool, budget, now);
    StartUpBuilds(pool, budget, now);
    var building := SIGN_OFF + WAKE_UP + ENQUEUE;
    RepairLoopFollowsRule(Exec(s0, building), 0, Runner(runnerId, pool), reports);
    ExecAppend(s0, building, Steps(0, Runner(runnerId, pool), reports));
    steps := building + Steps(0, Runner(runnerId, pool), reports);
  }

  /** … and, when the pull-request service answers, to a delivered execution holding the answer. */
  lemma DecisiveReportsDeliver(pool: int, budget: Budget, now: int, runnerId: int, reports: seq<Completion>, k: int,
      reference: string)
    returns (steps: seq<Step>)
    requires budget.Valid() && DecidedBy(budget, [], reports, k)
    ensures var s := Exec(Initial(pool, budget, now), steps);
            s.db.execution.status == Delivered && s.db.execution.resultReference == Some(reference)
  {
    var before := DecisiveReportsLeadToDelivery(pool, budget, now, runnerId, reports, k);
    var last := [CallPullRequest(0, Some(reference)), Finish(0)];
    ExecAppend(Initial(pool, budget, now), before, last);
    CallAndFinish(Exec(Initial(pool, budget, now), before), reference);
    steps := before + last;
  }

  lemma OneReportDecides(budget: Budget, report: Completion)
    requires report.Evidence() && budget.Within(report.Charge())
    ensures DecidedBy(budget, [], [report], 0)
  {
    ChargeAdds([], report);
    var reports := [report];
    assert reports[..0 + 1] == [report];
    assert [] + [report] == [report];
  }

  lemma RequestDuringDelivery(s: Sys, actor: string)
    requires s.db.execution.status == Delivering
    ensures var t := Apply(s, RequestCancellation(actor));
            && t.db.execution.status == Delivering && t.db.execution.cancellationRequested
            && t.attempts == s.attempts && t.dispatched == s.dispatched && t.workflow == s.workflow
  {
  }

  lemma CallAndFinish(s: Sys, reference: string)
    requires s.db.execution.status == Delivering && 0 < |s.attempts| && s.attempts[0].CallingPullRequest?
    ensures var t := Exec(s, [CallPullRequest(0, Some(reference)), Finish(0)]);
            && t.db.execution.status == Delivered && t.db.execution.resultReference == Some(reference)
            && t.db.execution.cancellationRequested == s.db.execution.cancellationRequested
            && t.dispatched == s.dispatched && t.workflow == s.workflow
            && |t.db.log| == |s.db.log| + 1
  {
    ExecTwo(s, CallPullRequest(0, Some(reference)), Finish(0));
  }

  /** The failing side of DELIVERED being absorbing is real: with a cancellation requested while the pull request is
      being made, and the dispatcher down before it marked its batch, one run already leads there. */
  lemma DeliveryCanStillBeCancelled(budget: Budget) returns (s: Sys, steps: seq<Step>)
    requires budget.Valid()
    ensures Reachable(s) && s.db.execution.status == Delivered && s.workflow.runs == 1
    ensures Exec(s, steps).db.execution.status == Cancelled
  {
    hide Inv;
    var s0 := Initial(0, budget, 0);
    var report := Completion(true, true, 0, 0, 0, "", []);
    OneReportDecides(budget, report);
    var before := DecisiveReportsLeadToDelivery(0, budget, 0, 1, [report], 0);
    var request, last := [RequestCancellation("user")], [CallPullRequest(0, Some("1")), Finish(0)];
    var delivering := Exec(s0, before);
    ExecAppend(s0, before, request + last);
    ExecAppend(delivering, request, last);
    RequestDuringDelivery(delivering, "user");
    assert Exec(delivering, request) == Apply(delivering, request[0]);
    CallAndFinish(Exec(delivering, request), "1");
    s := Exec(s0, before + (request + last));
    ReachableInv(s);
    steps := PossibleCancelHappens(s);
  }
}
