/** The delivery protocol composed with the runners that feed it. */
module EndToEnd {
  import opened Wrappers
  import opened Executions
  import opened RunnerJobs
  import opened DeliveryTransactions
  import opened DeliveryWorkflows
  import opened DeliveryProtocol
  import opened DeliveryInvariant
  import opened DeliverySafety
  import opened DeliveryCancellation
  import opened RunnerDaemon

  /** One job that a runner's daemon has worked on: what its agent did, all that was done to the workspace, how many
      seconds it took, and whether it raised. */
  datatype JobRun = JobRun(runnerId: int, run: AgentRun, trace: seq<Action>, seconds: nat, raised: bool)

  /** Entry `k` is the work behind the `k`-th accepted report. */
  ghost predicate Reported(connected: bool, s: Sys, work: seq<JobRun>) {
    && |work| == |s.history.accepted|
    && forall k :: 0 <= k < |work| ==>
         && work[k].runnerId == s.history.accepted[k].runnerId
         && Faithful(connected, work[k].run, work[k].trace, s.history.accepted[k].report)
         && s.history.accepted[k].report.Charge() ==
              (if work[k].raised then Usage(1, 0, 0, 0) else Usage(1, work[k].run.turns, work[k].seconds, 0))
  }

  /** The turns and seconds of jobs that did not raise. */
  function TurnsOf(work: seq<JobRun>): nat {
    if work == [] then 0
    else TurnsOf(work[..|work| - 1]) + (if work[|work| - 1].raised then 0 else work[|work| - 1].run.turns)
  }

  function SecondsOf(work: seq<JobRun>): nat {
    if work == [] then 0
    else SecondsOf(work[..|work| - 1]) + (if work[|work| - 1].raised then 0 else work[|work| - 1].seconds)
  }

  lemma {:induction false} TotalOfWork(reports: seq<Completion>, work: seq<JobRun>)
    requires |reports| == |work|
    requires forall k :: 0 <= k < |work| ==>
               reports[k].Charge() ==
                 (if work[k].raised then Usage(1, 0, 0, 0) else Usage(1, work[k].run.turns, work[k].seconds, 0))
    ensures Total(reports) == Usage(|work|, TurnsOf(work), SecondsOf(work), 0)
  {
    if work != [] {
      TotalOfWork(reports[..|work| - 1], work[..|work| - 1]);
    }
  }

  /** The bill: an execution's persisted usage is what the agents did in the jobs it consumed, in turns and seconds;
      a job that raised counts as an attempt and nothing else, and no job costs money. */
  lemma UsageIsTheWorkDone(connected: bool, s: Sys, work: seq<JobRun>)
    requires Reachable(s) && Reported(connected, s, work)
    ensures var n := |s.history.consumed|;
            && n <= |work| <= n + 1
            && s.db.execution.usage == Usage(n, TurnsOf(work[..n]), SecondsOf(work[..n]), 0)
  {
    hide Faithful, Inv, Reachable, Total, TurnsOf, SecondsOf, Completion.Charge;
    ReachableInv(s);
    ChargedIsTotal(s);
    var billed := work[..|s.history.consumed|];
    assert forall k :: 0 <= k < |billed| ==> billed[k] == work[k];
    TotalOfWork(s.history.consumed, billed);
  }

  lemma ChargedIsTotal(s: Sys)
    requires Inv(s)
    ensures s.db.execution.usage == Total(s.history.consumed)
    ensures |s.history.consumed| <= |s.history.accepted| <= |s.history.consumed| + 1
    ensures forall k :: 0 <= k < |s.history.consumed| ==> s.history.consumed[k] == s.history.accepted[k].report
  {
  }

  /** The last action pushes `sha`, which was HEAD, onto the last remote head seen; the last validation had passed,
      and neither the agent nor a rebase has changed the workspace since. */
  ghost predicate EndsWithVerifiedPush(trace: seq<Action>, sha: string) {
    && trace != [] && trace[|trace| - 1] == Pushed(sha)
    && Head(trace[..|trace| - 1]) == Some(sha)
    && Verified(trace[..|trace| - 1])
    && Base(trace[..|trace| - 1]).Some? && Base(trace[..|trace| - 1]) == Remote(trace[..|trace| - 1])
    && Rebases(trace[..|trace| - 1]) <= 2
  }

  lemma DecidedByLastReport(s: Sys)
    requires Inv(s) && s.history.pullRequests != []
    ensures s.db.execution.approval == Approved
    ensures |s.history.consumed| == |s.history.accepted| > 0
    ensures var k := |s.history.accepted| - 1;
            && s.history.consumed[k] == s.history.accepted[k].report && s.history.consumed[k].Evidence()
            && forall i :: 0 <= i < k ==> !s.history.accepted[i].report.Evidence()
  {
    hide ControlInv, Versioned, Numbered, CommandsMatch;
    var k := |s.history.accepted| - 1;
    assert forall i :: 0 <= i < k ==> s.history.consumed[..k][i] == s.history.accepted[i].report;
  }

  /** End to end: the one pull request of an execution is for the commit that the runner of the last accepted report
      pushed as the last action of that very job. Its agent had succeeded without touching a workflow file, its
      workspace was verified as pushed, and a reviewer had approved the execution. */
  lemma DeliveredCommitWasVerifiedAndPushed(s: Sys, work: seq<JobRun>)
    requires Reachable(s) && Reported(true, s, work)
    requires s.history.pullRequests != [] || s.db.execution.status == Delivered
    ensures |s.history.pullRequests| == 1 && s.db.execution.approval == Approved
    ensures |work| == |s.history.accepted| > 0
    ensures var last, accepted := work[|work| - 1], s.history.accepted[|work| - 1];
            && EndsWithVerifiedPush(last.trace, s.history.pullRequests[0])
            && last.run.success && !TouchesWorkflows(last.run.staged)
            && accepted.runnerId == last.runnerId && accepted.report.commitSha == s.history.pullRequests[0]
    ensures forall k :: 0 <= k < |work| - 1 ==> !s.history.accepted[k].report.Evidence()
  {
    hide Inv, Reachable, Verified, TouchesWorkflows, Base, Remote, Head, Rebases;
    ReachableInv(s);
    AtMostOnePullRequest(s);
    DecidedByLastReport(s);
    var k := |work| - 1;
    var trace := work[k].trace;
    assert Faithful(true, work[k].run, trace, s.history.accepted[k].report);
    assert SafePush(trace, |trace| - 1);
  }

  /** What happens next: some party takes a step, or a runner daemon works on a job and hands its report in. */
  datatype Move =
    | Take(step: Step)
    | WorkOnJob(runnerId: int, world: World, run: AgentRun, duration: nat)

  lemma ReachableStep(s: Sys, step: Step)
    requires Reachable(s)
    ensures Reachable(Apply(s, step))
  {
    var pool: int, budget: Budget, now: int, steps: seq<Step> :|
      budget.Valid() && s == Exec(Initial(pool, budget, now), steps);
    ExecAppend(Initial(pool, budget, now), steps, [step]);
    assert Exec(s, [step]) == Apply(s, step);
  }

  lemma OnlyCompletionsAreAccepted(s: Sys, step: Step)
    requires !step.Complete?
    ensures Apply(s, step).history.accepted == s.history.accepted
  {
    hide Db.PollJob;
  }

  /** The composed system, run for real: the daemons' own reports are the only ones handed in, each with the trace of
      the workspace it was made in; a report that arrives without the lease is refused and leaves no entry. */
  method Operate(pool: int, budget: Budget, now: int, hasRepository: bool, substitute: bool, moves: seq<Move>)
    returns (s: Sys, work: seq<JobRun>)
    requires budget.Valid()
    requires forall k :: 0 <= k < |moves| && moves[k].Take? ==> !moves[k].step.Complete?
    ensures Reachable(s) && Reported(hasRepository && !substitute, s, work)
    ensures hasRepository && !substitute && s.history.pullRequests != [] ==>
              && |s.history.pullRequests| == 1 && s.db.execution.approval == Approved
              && work != [] && EndsWithVerifiedPush(work[|work| - 1].trace, s.history.pullRequests[0])
    ensures |s.history.consumed| <= |work|
    ensures var billed := work[..|s.history.consumed|];
            s.db.execution.usage == Usage(|billed|, TurnsOf(billed), SecondsOf(billed), 0)
  {
    hide Inv, Faithful, Apply, Initial, EndsWithVerifiedPush;
    s, work := Initial(pool, budget, now), [];
    assert s == Exec(s, []);
    assert s.history.accepted == [] by {
      NothingAccepted(pool, budget, now);
    }
    for k := 0 to |moves|
      invariant Reachable(s) && Reported(hasRepository && !substitute, s, work)
    {
      match moves[k]
      case Take(step) =>
        ReachableStep(s, step);
        OnlyCompletionsAreAccepted(s, step);
        s := Apply(s, step);
      case WorkOnJob(runnerId, world, run, duration) =>
        var w := new Workspace(world);
        var report, raised := Work(w, hasRepository, substitute, run, duration);
        var next := Apply(s, Complete(runnerId, report));
        ReachableStep(s, Complete(runnerId, report));
        CompletionIsAccepted(s, runnerId, report);
        if |next.history.accepted| > |s.history.accepted| {
          work := work + [JobRun(runnerId, run, w.trace, duration, raised)];
        }
        s := next;
    }
    UsageIsTheWorkDone(hasRepository && !substitute, s, work);
    if hasRepository && !substitute && s.history.pullRequests != [] {
      DeliveredCommitWasVerifiedAndPushed(s, work);
    }
  }

  lemma NothingAccepted(pool: int, budget: Budget, now: int)
    ensures Initial(pool, budget, now).history.accepted == []
  {
  }

  lemma CompletionIsAccepted(s: Sys, runnerId: int, report: Completion)
    ensures Apply(s, Complete(runnerId, report)).history.accepted in
              {s.history.accepted, s.history.accepted + [Accepted(runnerId, report)]}
  {
  }
}
