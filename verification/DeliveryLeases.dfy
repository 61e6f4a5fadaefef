/** The lease of a runner job over timed runs of the delivery protocol. */
module DeliveryLeases {
  import opened Wrappers
  import opened Executions
  import opened RunnerJobs
  import opened DeliveryTransactions
  import opened DeliveryWorkflows
  import opened DeliveryProtocol
  import opened DeliveryInvariant
  import opened DeliveryCancellation

  predicate Holds(s: Sys, runnerId: int) {
    s.db.job.Some? && s.db.job.value.HeldBy(runnerId)
  }

  /** Whenever the runner holds the job, its last lease or heartbeat is at most 45 seconds old. */
  predicate RenewsInTime(s: Sys, steps: seq<Step>, runnerId: int)
    decreases |steps|
  {
    && (Holds(s, runnerId) && s.db.job.value.leasedAt.Some? ==> s.now - s.db.job.value.leasedAt.value <= 45)
    && (steps != [] ==> RenewsInTime(Apply(s, steps[0]), steps[1..], runnerId))
  }

  lemma StepOnlyAccepts(s: Sys, step: Step)
    ensures s.history.accepted <= Apply(s, step).history.accepted
  {
    hide Db.PollJob;
  }

  lemma {:induction false} AcceptedOnlyGrows(s: Sys, steps: seq<Step>)
    ensures s.history.accepted <= Exec(s, steps).history.accepted
    decreases |steps|
  {
    hide Apply;
    if steps != [] {
      StepOnlyAccepts(s, steps[0]);
      AcceptedOnlyGrows(Apply(s, steps[0]), steps[1..]);
    }
  }

  lemma NothingToRead(db: Db)
    ensures db.job.Some? && db.job.value.status != JobCompleted ==> db.PollJob() == NotCompleted
  {
  }

  lemma TimelyHolderKeepsJob(s: Sys, step: Step, runnerId: int)
    requires Inv(s) && Holds(s, runnerId) && RenewsInTime(s, [step], runnerId)
    ensures var n := Apply(s, step);
            if n.history.accepted == s.history.accepted then Holds(n, runnerId)
            else exists report :: n.history.accepted == s.history.accepted + [Accepted(runnerId, report)]
  {
    hide Numbered, Charged, Coupled, OneDeliverer, Versioned, CommandsMatch, ControlInv, Db.PollJob;
    NothingToRead(s.db);
    if step.Complete? && step.runnerId == runnerId {
      assert Apply(s, step).history.accepted == s.history.accepted + [Accepted(runnerId, step.report)];
    }
  }

  /** A live lease is never stolen: a runner that always renews within 45 seconds holds the job until a completion
      is accepted, and that completion is its own. */
  lemma {:induction false} LiveLeaseNeverStolen(s: Sys, steps: seq<Step>, runnerId: int)
    requires Inv(s) && Holds(s, runnerId) && RenewsInTime(s, steps, runnerId)
    ensures var before, after := s.history.accepted, Exec(s, steps).history.accepted;
            if after == before then Holds(Exec(s, steps), runnerId)
            else |after| > |before| && after[|before|].runnerId == runnerId
    decreases |steps|
  {
    hide Inv, Holds;
    if steps != [] {
      var n := Apply(s, steps[0]);
      assert RenewsInTime(s, [steps[0]], runnerId) by {
        assert [steps[0]][1..] == [];
        assert RenewsInTime(n, steps[1..], runnerId);
      }
      TimelyHolderKeepsJob(s, steps[0], runnerId);
      StepInv(s, steps[0]);
      AcceptedOnlyGrows(n, steps[1..]);
      if n.history.accepted == s.history.accepted {
        LiveLeaseNeverStolen(n, steps[1..], runnerId);
      }
    }
  }

  /** 45 seconds is the exact bound: another runner of the pool takes a held job over if and only if the last
      renewal is older. */
  lemma TakenOverIffStale(s: Sys, holder: int, runner: Runner)
    requires Inv(s) && Holds(s, holder) && runner.id != holder && runner.pool == s.db.execution.runnerPool
    ensures s.db.job.value.leasedAt.Some?
    ensures Holds(LeaseTo(s, runner), runner.id) <==> s.now - s.db.job.value.leasedAt.value > 45
    ensures Holds(LeaseTo(s, runner), holder) <==> s.now - s.db.job.value.leasedAt.value <= 45
  {
    hide Numbered, Charged, Coupled, OneDeliverer, Versioned, CommandsMatch, ControlInv;
  }

  /** The seconds that pass during some steps. */
  function Elapsed(steps: seq<Step>): nat
    decreases |steps|
  {
    if steps == [] then 0 else (if steps[0].Tick? then steps[0].seconds else 0) + Elapsed(steps[1..])
  }

  /** If the runner holds the job, its renewal will not be older than 45 seconds when the steps are over. */
  predicate FreshFor(s: Sys, seconds: nat, runnerId: int) {
    Holds(s, runnerId) && s.db.job.value.leasedAt.Some? ==> s.now - s.db.job.value.leasedAt.value + seconds <= 45
  }

  lemma StaysFresh(s: Sys, step: Step, seconds: nat, runnerId: int)
    requires seconds + (if step.Tick? then step.seconds else 0) <= 45
    requires FreshFor(s, seconds + (if step.Tick? then step.seconds else 0), runnerId)
    ensures FreshFor(Apply(s, step), seconds, runnerId)
  {
    if step.Poll? {
      PassHoldsNothingNew(s.db, runnerId);
    }
    hide Db.PollJob;
  }

  /** A pass of the polling loop gives nobody a lease. */
  lemma PassHoldsNothingNew(db: Db, runnerId: int)
    ensures var n := AfterPoll(db, db.PollJob());
            n.job.Some? && n.job.value.HeldBy(runnerId) ==> n.job == db.job
  {
  }

  lemma {:induction false} FreshMeansInTime(s: Sys, steps: seq<Step>, runnerId: int)
    requires Elapsed(steps) <= 45 && FreshFor(s, Elapsed(steps), runnerId)
    ensures RenewsInTime(s, steps, runnerId)
    decreases |steps|
  {
    hide Apply;
    if steps != [] {
      StaysFresh(s, steps[0], Elapsed(steps[1..]), runnerId);
      FreshMeansInTime(Apply(s, steps[0]), steps[1..], runnerId);
    }
  }

  /** The step gives the runner the job, or is the holder's heartbeat. */
  predicate TakesOrRenews(s: Sys, step: Step, runnerId: int) {
    || (step.Lease? && step.runner.id == runnerId && s.db.LeaseJob(step.runner, s.now).Some?)
    || (step.Heartbeat? && step.runnerId == runnerId && s.db.HeartbeatJob(runnerId, s.now).Some?)
  }

  /** A lease or a heartbeat is good for 45 seconds: whatever happens meanwhile, the runner still holds the job, or
      the next report accepted was its own. */
  lemma RenewalHoldsForFortyFiveSeconds(s: Sys, step: Step, steps: seq<Step>, runnerId: int)
    requires Inv(s) && TakesOrRenews(s, step, runnerId) && Elapsed(steps) <= 45
    ensures Holds(Apply(s, step), runnerId)
    ensures var before, after := s.history.accepted, Exec(Apply(s, step), steps).history.accepted;
            if after == before then Holds(Exec(Apply(s, step), steps), runnerId)
            else |after| > |before| && after[|before|].runnerId == runnerId
  {
    hide Inv;
    var n := Apply(s, step);
    StepInv(s, step);
    FreshMeansInTime(n, steps, runnerId);
    hide RenewsInTime;
    LiveLeaseNeverStolen(n, steps, runnerId);
  }

  lemma JobAfterRenewal(s: Sys, step: Step, runnerId: int)
    requires Inv(s) && TakesOrRenews(s, step, runnerId)
    ensures var n := Apply(s, step);
            && n.now == s.now && n.db.job.Some? && n.db.job.value.HeldBy(runnerId)
            && n.db.job.value.leasedAt == Some(s.now) && n.db.job.value.pool == s.db.execution.runnerPool
  {
    hide ControlInv, Numbered, Charged, Coupled, OneDeliverer, Versioned, CommandsMatch;
  }

  /** Any second more and it is not: unless it renews, another runner of the pool may take over. */
  lemma RenewalEndsAfterFortyFiveSeconds(s: Sys, step: Step, runnerId: int, other: Runner)
    requires Inv(s) && TakesOrRenews(s, step, runnerId)
    requires other.id != runnerId && other.pool == s.db.execution.runnerPool
    ensures Holds(Exec(Apply(s, step), [Tick(45), Lease(other)]), runnerId)
    ensures Holds(Exec(Apply(s, step), [Tick(46), Lease(other)]), other.id)
  {
    hide Inv, Exec;
    var n := Apply(s, step);
    JobAfterRenewal(s, step, runnerId);
    ExecTwo(n, Tick(45), Lease(other));
    ExecTwo(n, Tick(46), Lease(other));
  }
}
