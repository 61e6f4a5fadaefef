/** One execution's commands inside the queue of all: the order in which they reach the workflow, and when they stop
    the queue for everyone. */
module DeliveryDispatch {
  import opened Wrappers
  import opened Executions
  import opened RunnerJobs
  import opened DeliveryTransactions
  import opened DeliveryWorkflows
  import opened DeliveryProtocol
  import opened DeliveryInvariant
  import opened DeliverySafety
  import opened DeliveryCancellation
  import opened DeliveryProgress
  import Dispatcher
  import opened DispatcherQueue

  /** START goes first: no approval or cancellation is ever sent before some run has been started, so sending one
      fails exactly when every run started so far has closed. */
  lemma StartGoesFirst(s: Sys)
    requires Reachable(s) && s.batch.Batch? && s.batch.cursor < s.batch.end
    ensures s.batch.end <= |s.db.commands|
    ensures s.db.commands[s.batch.cursor].StartCommand? <==> s.batch.cursor == 0
    ensures s.batch.cursor > 0 ==> s.workflow.runs > 0 && (Send(s).batch.NoBatch? <==> s.workflow.phase == Closed)
    ensures s.batch.cursor == 0 ==> Send(s).workflow.Open()
  {
    ReachableInv(s);
  }

  /** The queue of all executions shows the execution `x` in state `s`: its command `j` has the id `ids[j]`. */
  ghost predicate Shows(q: Dispatcher.Queue, s: Sys, x: int, ids: seq<nat>) {
    && Dispatcher.WorkflowOf(q.server, x) == s.workflow
    && |ids| == |s.db.commands|
    && (forall j :: 0 <= j < |ids| ==>
          ids[j] < |q.commands| && q.commands[ids[j]] == Dispatcher.CommandRow(x, s.db.commands[j], j < s.dispatched))
    && (forall i, j :: 0 <= i < j < |ids| ==> ids[i] < ids[j])
    && (forall id :: 0 <= id < |q.commands| && q.commands[id].executionId == x ==> id in ids)
  }

  /** An execution's oldest waiting command is doomed exactly when it is a signal and every run has closed. */
  lemma DoomedIffClosed(q: Dispatcher.Queue, s: Sys, x: int, ids: seq<nat>)
    requires Reachable(s) && Shows(q, s, x, ids) && s.dispatched < |s.db.commands|
    ensures Doomed(q, ids[s.dispatched]) <==> s.dispatched > 0 && s.workflow.phase == Closed
  {
    hide Inv;
    ReachableInv(s);
    QueueFacts(s);
    var b := ids[s.dispatched];
    forall a: nat | a < b && Undispatched(q, a) && q.commands[a].executionId == x
      ensures !q.commands[a].command.StartCommand?
    {
      var j :| 0 <= j < |ids| && ids[j] == a;
      assert j >= s.dispatched;
    }
  }

  lemma QueueFacts(s: Sys)
    requires Inv(s)
    ensures s.db.commands != [] && s.dispatched <= |s.db.commands|
    ensures forall j :: 0 <= j < |s.db.commands| ==> (s.db.commands[j].StartCommand? <==> j == 0)
    ensures s.dispatched > 0 ==> s.workflow.phase != NotStarted
  {
  }

  const RESEND: seq<Step> := [CrashDispatcher, FetchBatch(2), SendCommand]
  const COMMIT: seq<Step> := [SendCommand, CommitBatch]
  const CLOSE_AND_CANCEL: seq<Step> := [CompleteRun(0), RequestCancellation("user")]

  lemma CommitsBoth(s: Sys)
    requires s.workflow == Workflow(Executing, true, false, Some("reviewer"), 1, 1)
    requires s.dispatched == 0 && s.db.commands == [StartCommand, ApproveCommand("reviewer")]
    ensures Exec(s, RESEND + COMMIT) == s.(batch := NoBatch, dispatched := 2)
  {
    ExecAppend(s, RESEND, COMMIT);
    ExecThree(s, RESEND[0], RESEND[1], RESEND[2]);
    ExecTwo(Exec(s, RESEND), COMMIT[0], COMMIT[1]);
  }

  lemma ClosesAndCancels(s: Sys)
    requires s.workflow == Workflow(Executing, true, false, Some("reviewer"), 1, 1)
    requires At(s, 0, Returned) && |s.attempts| == 1 && s.db.execution.status == AwaitingHuman
    ensures var t := Exec(s, CLOSE_AND_CANCEL);
            && t.db.commands == s.db.commands + [CancelCommand("user")] && t.dispatched == s.dispatched
            && t.workflow == s.workflow.(phase := Closed) && t.db.execution.status == AwaitingHuman
  {
    ExecTwo(s, CLOSE_AND_CANCEL[0], CLOSE_AND_CANCEL[1]);
  }

  lemma {:induction false} FailedReports(n: nat) returns (reports: seq<Completion>)
    ensures |reports| == n && AllFailed(reports) && Total(reports) == Usage(n, 0, 0, 0)
  {
    if n == 0 {
      reports := [];
    } else {
      var rest := FailedReports(n - 1);
      var failure := Completion(false, false, 0, 0, 0, "", []);
      reports := rest + [failure];
      ChargeAdds(rest, failure);
    }
  }

  /** An ordinary way there: every attempt fails, a human is asked, the run closes, and someone cancels. */
  lemma CancelAfterHandOver(pool: int, budget: Budget, now: int) returns (steps: seq<Step>)
    requires budget.Valid()
    ensures var s := Exec(Initial(pool, budget, now), steps);
            && s.db.execution.status == AwaitingHuman && s.workflow.runs == 1 && s.workflow.phase == Closed
            && s.dispatched == 2
            && s.db.commands == [StartCommand, ApproveCommand("reviewer"), CancelCommand("user")]
  {
    hide Exec, Inv, DeliveryProgress.Building, Total, Initial;
    var s0, runner := Initial(pool, budget, now), Runner(0, pool);
    var begin := SIGN_OFF + WAKE_UP + ENQUEUE;
    StartUpBuilds(pool, budget, now);
    var reports := FailedReports(budget.maxAttempts);
    var fail := Steps(0, runner, reports);
    assert [] + reports == reports;
    FailuresHandOver(Exec(s0, begin), 0, runner, reports);
    ExecAppend(s0, begin, fail);
    var handed := Exec(s0, begin + fail);
    CommitsBoth(handed);
    ExecAppend(s0, begin + fail, RESEND + COMMIT);
    ClosesAndCancels(Exec(s0, begin + fail + (RESEND + COMMIT)));
    ExecAppend(s0, begin + fail + (RESEND + COMMIT), CLOSE_AND_CANCEL);
    steps := begin + fail + (RESEND + COMMIT) + CLOSE_AND_CANCEL;
  }

  predicate OnlyDispatched(q: Dispatcher.Queue, n: nat) {
    forall r :: 0 <= r < |q.commands| ==> (q.commands[r].dispatched <==> r < n)
  }

  /** … and with that one cancellation next in line, no command of any execution is ever dispatched again. */
  lemma OneCancellationStopsTheQueue(pool: int, budget: Budget, now: int, x: int) returns (s: Sys, q: Dispatcher.Queue)
    requires budget.Valid()
    ensures Reachable(s) && s.db.execution.status == AwaitingHuman && s.workflow.runs == 1
    ensures Shows(q, s, x, [0, 1, 2])
    ensures forall states :: QueueRun(states) && states[0] == q ==> OnlyDispatched(states[|states| - 1], 2)
  {
    hide Exec, Initial;
    var steps := CancelAfterHandOver(pool, budget, now);
    s := Exec(Initial(pool, budget, now), steps);
    var rows := [Dispatcher.CommandRow(x, StartCommand, true),
        Dispatcher.CommandRow(x, ApproveCommand("reviewer"), true),
                 Dispatcher.CommandRow(x, CancelCommand("user"), false)];
    q := Dispatcher.Queue(rows, map[x := s.workflow]);
    assert Shows(q, s, x, [0, 1, 2]);
    DoomedIffClosed(q, s, x, [0, 1, 2]);
    assert Ahead(rows, 1) == 0;
    assert Ahead(rows, 2) == 0;
    forall states | QueueRun(states) && states[0] == q
      ensures OnlyDispatched(states[|states| - 1], 2)
    {
      OneDoomedRowStopsAll(states, 2);
      DispatchedStays(states, 0);
      DispatchedStays(states, 1);
    }
  }
}
