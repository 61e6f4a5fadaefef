/** When a cancellation takes effect, and exactly when a delivery can still be turned into a cancellation. */
module DeliveryCancellation {
  import opened Wrappers
  import opened Executions
  import opened RunnerJobs
  import opened DeliveryTransactions
  import opened DeliveryWorkflows
  import opened DeliveryProtocol
  import opened DeliveryInvariant
  import opened DeliverySafety

  lemma {:induction false} ExecAppend(s: Sys, first: seq<Step>, second: seq<Step>)
    ensures Exec(s, first + second) == Exec(Exec(s, first), second)
    decreases |first|
  {
    if first == [] {
      assert first + second == second;
    } else {
      assert (first + second)[0] == first[0] && (first + second)[1..] == first[1..] + second;
      ExecAppend(Apply(s, first[0]), first[1..], second);
    }
  }

  lemma ExecTwo(s: Sys, a: Step, b: Step)
    ensures Exec(s, [a, b]) == Apply(Apply(s, a), b)
  {
    assert [a, b][1..] == [b];
    assert Exec(Apply(s, a), [b]) == Exec(Apply(Apply(s, a), b), []);
  }

  lemma ExecThree(s: Sys, a: Step, b: Step, c: Step)
    ensures Exec(s, [a, b, c]) == Apply(Apply(Apply(s, a), b), c)
  {
    assert [a, b, c][1..] == [b, c];
    ExecTwo(Apply(s, a), b, c);
  }

  lemma StepOnlyStartsRuns(s: Sys, step: Step)
    ensures s.workflow.runs <= Apply(s, step).workflow.runs
  {
  }

  lemma {:induction false} RunsOnlyGrow(s: Sys, steps: seq<Step>)
    ensures s.workflow.runs <= Exec(s, steps).workflow.runs
    decreases |steps|
  {
    hide Apply;
    if steps != [] {
      StepOnlyStartsRuns(s, steps[0]);
      RunsOnlyGrow(Apply(s, steps[0]), steps[1..]);
    }
  }

  /** The current run has been cancelled before it decided, or has decided to cancel. */
  ghost predicate BoundToCancel(s: Sys, run: nat, attempts: nat) {
    && s.workflow.runs == run
    && |s.attempts| == attempts
    && s.workflow.phase in {Recording, Waiting, Cancelling, Closed}
    && (s.workflow.Undecided() ==> s.workflow.cancelled)
  }

  lemma BoundToCancelStep(s: Sys, step: Step, run: nat, attempts: nat)
    requires Inv(s) && BoundToCancel(s, run, attempts) && Apply(s, step).workflow.runs <= run
    ensures BoundToCancel(Apply(s, step), run, attempts)
  {
    hide RowsInv, NeedsBranch, OneBranch, UpToDate, Db.PollJob;
  }

  lemma {:induction false} BoundToCancelRun(s: Sys, steps: seq<Step>, run: nat, attempts: nat)
    requires Inv(s) && BoundToCancel(s, run, attempts) && Exec(s, steps).workflow.runs <= run
    ensures Inv(Exec(s, steps)) && BoundToCancel(Exec(s, steps), run, attempts)
    decreases |steps|
  {
    hide Inv, BoundToCancel;
    if steps != [] {
      RunsOnlyGrow(Apply(s, steps[0]), steps[1..]);
      BoundToCancelStep(s, steps[0], run, attempts);
      StepInv(s, steps[0]);
      BoundToCancelRun(Apply(s, steps[0]), steps[1..], run, attempts);
    }
  }

  /** Cancel wins: once the cancel signal has been handled before the run left its wait, in whatever order with an
      approval, that run never starts an attempt of the delivery. If no earlier run has started one either, nothing
      is spent and no pull request is made, and the execution can only end as CANCELLED. */
  lemma CancelWinsBeforeWakeUp(s: Sys, steps: seq<Step>)
    requires Reachable(s) && s.workflow.Undecided() && s.workflow.cancelled
    requires Exec(s, steps).workflow.runs == s.workflow.runs
    ensures var n := Exec(s, steps);
            && |n.attempts| == |s.attempts|
            && n.workflow.phase in {Recording, Waiting, Cancelling, Closed}
    ensures s.workflow.runs == 1 ==> s.attempts == []
    ensures s.attempts == [] ==>
              var n := Exec(s, steps);
              && n.db.job.None? && n.history.pullRequests == []
              && n.db.execution.usage == NO_USAGE
              && n.db.execution.status in {AwaitingApproval, Queued, Cancelled}
  {
    ReachableInv(s);
    BoundToCancelRun(s, steps, s.workflow.runs, |s.attempts|);
  }

  /** Some later run of the workflow may still look at the cancellation request: its START may be sent again, or a
      run is open and undecided, or the cancel activity has already been scheduled. */
  predicate CancelStillPossible(s: Sys) {
    s.db.execution.cancellationRequested && (s.dispatched == 0 || s.workflow.Undecided() || s.cancelScheduled)
  }

  ghost predicate DeliveredForGood(s: Sys, reference: Option<string>) {
    && s.db.execution.status == Delivered
    && s.db.execution.resultReference == reference
    && !CancelStillPossible(s)
  }

  lemma DeliveredForGoodStep(s: Sys, step: Step, reference: Option<string>)
    requires Inv(s) && DeliveredForGood(s, reference)
    ensures DeliveredForGood(Apply(s, step), reference)
  {
    hide Numbered, Charged, JobShape, Versioned, OneBranch, NeedsBranch, UpToDate;
  }

  lemma {:induction false} DeliveredForGoodRun(s: Sys, steps: seq<Step>, reference: Option<string>)
    requires Inv(s) && DeliveredForGood(s, reference)
    ensures DeliveredForGood(Exec(s, steps), reference)
    decreases |steps|
  {
    hide Inv, DeliveredForGood;
    if steps != [] {
      DeliveredForGoodStep(s, steps[0], reference);
      StepInv(s, steps[0]);
      DeliveredForGoodRun(Apply(s, steps[0]), steps[1..], reference);
    }
  }

  /** The dispatcher sends the rest of its batch to an open run. */
  function Sends(n: nat): seq<Step> {
    if n == 0 then [] else [SendCommand] + Sends(n - 1)
  }

  lemma {:induction false} SendRest(s: Sys, n: nat)
    requires Inv(s) && s.workflow.Open() && s.batch.Batch? && s.batch.cursor + n == s.batch.end
    ensures var t := Exec(s, Sends(n));
            && Inv(t) && t.batch == Batch(s.batch.end, s.batch.end) && t.workflow.phase == s.workflow.phase
            && t.db == s.db && t.cancelScheduled == s.cancelScheduled
    decreases n
  {
    hide Inv, Apply;
    if n != 0 {
      SendOne(s);
      assert Sends(n)[0] == SendCommand && Sends(n)[1..] == Sends(n - 1);
      SendRest(Apply(s, SendCommand), n - 1);
    }
  }

  lemma SendOne(s: Sys)
    requires Inv(s) && s.workflow.Open() && s.batch.Batch? && s.batch.cursor < s.batch.end
    ensures var t := Apply(s, SendCommand);
            && Inv(t) && t.batch == Batch(s.batch.cursor + 1, s.batch.end) && t.workflow.phase == s.workflow.phase
            && t.workflow.Open() && t.db == s.db && t.cancelScheduled == s.cancelScheduled
  {
    hide RowsInv, UpToDate, WorkflowMatches, OneBranch, NeedsBranch;
    StepInv(s, SendCommand);
  }

  /** An undecided run can be shown every command, woken, and its cancel activity run. */
  lemma UndecidedCanCancel(s: Sys) returns (steps: seq<Step>)
    requires Inv(s) && s.workflow.Undecided() && s.db.execution.cancellationRequested
    ensures Exec(s, steps).db.execution.status == Cancelled
  {
    hide Numbered, Charged, JobShape, Coupled, OneDeliverer, Versioned, CommandsMatch, WorkflowMatches, OneBranch,
        NeedsBranch, UpToDate;
    var n := |s.db.commands| - s.dispatched;
    var fetch := [CrashDispatcher, FetchBatch(|s.db.commands|)];
    RunInv(s, fetch);
    ExecTwo(s, CrashDispatcher, FetchBatch(|s.db.commands|));
    var fetched := Exec(s, fetch);
    SendRest(fetched, n);
    ExecAppend(s, fetch, Sends(n));
    var sent := Exec(fetched, Sends(n));
    var tail := [RecordWaiting, Wake, CancelActivity];
    ExecAppend(s, fetch + Sends(n), tail);
    AllSentThenCancelled(sent);
    steps := fetch + Sends(n) + tail;
  }

  lemma AllSentThenCancelled(s: Sys)
    requires Inv(s) && s.workflow.Undecided() && s.db.execution.cancellationRequested
    requires s.batch == Batch(|s.db.commands|, |s.db.commands|)
    ensures Exec(s, [RecordWaiting, Wake, CancelActivity]).db.execution.status == Cancelled
  {
    hide Inv, Exec;
    AllSentIsSeen(s);
    var woken := Apply(Apply(s, RecordWaiting), Wake);
    assert woken.cancelScheduled && woken.db == s.db;
    ExecThree(s, RecordWaiting, Wake, CancelActivity);
  }

  lemma AllSentIsSeen(s: Sys)
    requires Inv(s) && s.workflow.Undecided() && s.db.execution.cancellationRequested
    requires s.batch == Batch(|s.db.commands|, |s.db.commands|)
    ensures s.workflow.cancelled
  {
    hide Numbered, Charged, JobShape, Coupled, OneDeliverer, Versioned, OneBranch, NeedsBranch, WorkflowMatches;
    var j :| 0 <= j < |s.db.commands| && s.db.commands[j].CancelCommand?;
    assert Seen(s.workflow, s.db.commands[j]);
  }

  /** An executing run can be brought to an end: its attempts are used up and the last one times out. */
  lemma ExecutingCanClose(s: Sys) returns (steps: seq<Step>)
    requires Inv(s) && s.workflow.phase == Executing
    ensures var t := Exec(s, steps);
            && t.workflow.phase == Closed && t.db == s.db && t.dispatched == s.dispatched
    decreases MAXIMUM_ATTEMPTS - s.workflow.attempts
  {
    hide RowsInv, UpToDate, OneBranch, NeedsBranch, BatchMatches;
    if s.workflow.attempts < MAXIMUM_ATTEMPTS {
      var next := Apply(s, StartAttempt);
      StepInv(s, StartAttempt);
      var rest := ExecutingCanClose(next);
      steps := [StartAttempt] + rest;
    } else {
      steps := [FailRun];
      assert Exec(s, steps) == Apply(s, FailRun);
    }
  }

  /** While START is not marked as dispatched, a crashed dispatcher sends it again, and under the id of a closed run
      that begins another, undecided one. */
  lemma ClosedCanStartAgain(s: Sys) returns (steps: seq<Step>)
    requires Inv(s) && s.workflow.phase == Closed && s.dispatched == 0
    ensures var t := Exec(s, steps); t.workflow.Undecided() && t.db == s.db
  {
    hide Numbered, Charged, JobShape, Coupled, OneDeliverer, Versioned, OneBranch, NeedsBranch, WorkflowMatches;
    steps := [CrashDispatcher, FetchBatch(|s.db.commands|), SendCommand];
    var fetched := Fetch(s.(batch := NoBatch), |s.db.commands|);
    ExecThree(s, CrashDispatcher, FetchBatch(|s.db.commands|), SendCommand);
  }

  lemma PossibleCancelHappens(s: Sys) returns (steps: seq<Step>)
    requires Inv(s) && s.db.execution.status == Delivered && CancelStillPossible(s)
    ensures Exec(s, steps).db.execution.status == Cancelled
  {
    if s.cancelScheduled {
      steps := [CancelActivity];
      assert Exec(s, steps) == Apply(s, CancelActivity);
    } else if s.workflow.Undecided() {
      steps := UndecidedCanCancel(s);
    } else {
      var close: seq<Step> := [];
      if s.workflow.phase == Executing {
        close := ExecutingCanClose(s);
      }
      var closed := Exec(s, close);
      RunInv(s, close);
      var again := ClosedCanStartAgain(closed);
      RunInv(closed, again);
      var finish := UndecidedCanCancel(Exec(closed, again));
      ExecAppend(s, close, again);
      ExecAppend(s, close + again, finish);
      steps := close + again + finish;
    }
  }

  /** DELIVERED is absorbing, with its reference, exactly when no run of the workflow can still look at a
      cancellation request; `cancel` itself has no terminal-state guard. */
  lemma DeliveredIsAbsorbingIff(s: Sys)
    requires Reachable(s) && s.db.execution.status == Delivered
    ensures (forall steps :: && Exec(s, steps).db.execution.status == Delivered
                             && Exec(s, steps).db.execution.resultReference == s.db.execution.resultReference)
            <==> !CancelStillPossible(s)
  {
    ReachableInv(s);
    if CancelStillPossible(s) {
      var steps := PossibleCancelHappens(s);
      assert Exec(s, steps).db.execution.status != Delivered;
    } else {
      forall steps
        ensures Exec(s, steps).db.execution.status == Delivered
        ensures Exec(s, steps).db.execution.resultReference == s.db.execution.resultReference
      {
        DeliveredForGoodRun(s, steps, s.db.execution.resultReference);
      }
    }
  }

  /** In particular a delivery of the only run stays, once that run's START is marked as dispatched or when nobody
      asked for a cancellation. */
  lemma OneRunDeliversForGood(s: Sys, steps: seq<Step>)
    requires Reachable(s) && s.db.execution.status == Delivered && s.workflow.runs == 1
    requires s.dispatched > 0 || !s.db.execution.cancellationRequested
    ensures Exec(s, steps).db.execution.status == Delivered
    ensures Exec(s, steps).db.execution.resultReference == s.db.execution.resultReference
  {
    ReachableInv(s);
    DeliveredForGoodRun(s, steps, s.db.execution.resultReference);
  }
}
