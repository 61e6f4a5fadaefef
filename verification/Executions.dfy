/** The execution aggregate of the delivery service: its persisted row, its transitions, and the mutable object
    that every transaction loads from a row, changes, and writes back. */
module Executions {
  import opened Wrappers

  datatype Status =
    | AwaitingApproval | Queued | Provisioning | Planning | AwaitingPlanApproval | Building | Verifying
    | Repairing | Delivering | Delivered | Failed | Cancelled | AwaitingHuman

  datatype Approval = Pending | Approved | Rejected

  datatype Usage = Usage(attempts: int, turns: int, durationSeconds: int, costMinor: int)

  const NO_USAGE := Usage(0, 0, 0, 0)

  function Plus(u: Usage, v: Usage): Usage {
    Usage(u.attempts + v.attempts, u.turns + v.turns, u.durationSeconds + v.durationSeconds, u.costMinor + v.costMinor)
  }

  datatype Dimension = Duration | Attempts | Turns | Cost

  datatype Budget = Budget(maxDurationSeconds: int, maxAttempts: int, maxTurns: int, maxCostMinor: int) {
    /** The control plane refuses any other budget before an event carrying it exists. */
    predicate Valid() {
      maxDurationSeconds >= 1 && maxAttempts >= 1 && maxTurns >= 1 && maxCostMinor >= 0
    }

    predicate Over(u: Usage, d: Dimension) {
      match d
      case Duration => u.durationSeconds > maxDurationSeconds
      case Attempts => u.attempts > maxAttempts
      case Turns => u.turns > maxTurns
      case Cost => u.costMinor > maxCostMinor
    }

    predicate Within(u: Usage) {
      && u.durationSeconds <= maxDurationSeconds && u.attempts <= maxAttempts
      && u.turns <= maxTurns && u.costMinor <= maxCostMinor
    }

    /** The dimensions a `BudgetExceeded` error would list; the check passes when there are none. */
    function Exceeded(u: Usage): (exceeded: seq<Dimension>)
      ensures Duration in exceeded <==> u.durationSeconds > maxDurationSeconds
      ensures Attempts in exceeded <==> u.attempts > maxAttempts
      ensures Turns in exceeded <==> u.turns > maxTurns
      ensures Cost in exceeded <==> u.costMinor > maxCostMinor
      ensures exceeded == [] <==> Within(u)
    {
      OneIfOver(u, Duration) + OneIfOver(u, Attempts) + OneIfOver(u, Turns) + OneIfOver(u, Cost)
    }

    function OneIfOver(u: Usage, d: Dimension): (one: seq<Dimension>)
      ensures forall e :: e in one <==> e == d && Over(u, d)
      ensures one == [] <==> !Over(u, d)
    {
      if Over(u, d) then [d] else []
    }
  }

  /** A row of `executions`. Every transition returns None where the aggregate raises. */
  datatype Row = Row(
    runnerPool: int,
    budget: Budget,
    approval: Approval,
    status: Status,
    usage: Usage,
    version: nat,
    cancellationRequested: bool,
    resultReference: Option<string>)
  {
    function Moved(target: Status): Row {
      this.(status := target, version := version + 1)
    }

    function Transition(expected: Status, target: Status): Option<Row> {
      if status == expected then Some(Moved(target)) else None
    }

    function Approve(): Option<Row> {
      if status == AwaitingApproval then Some(Moved(Queued).(approval := Approved)) else None
    }

    function StartBuilding(): Option<Row> {
      if status == Planning || status == Repairing then Some(Moved(Building)) else None
    }

    function RequestRepair(): Option<Row> {
      if status != Verifying then None
      else Some(Moved(if usage.attempts >= budget.maxAttempts then AwaitingHuman else Repairing))
    }

    function Deliver(reference: string): Option<Row> {
      if status == Delivering then Some(Moved(Delivered).(resultReference := Some(reference))) else None
    }

    function RecordUsage(charge: Usage): Option<Row> {
      var next := Plus(usage, charge);
      if budget.Within(next) then Some(this.(usage := next, version := version + 1)) else None
    }

    function RequestCancellation(): Option<Row> {
      if status in {Delivered, Failed, Cancelled} then None
      else Some(this.(cancellationRequested := true, version := version + 1))
    }

    function Cancel(): Option<Row> {
      if cancellationRequested then Some(Moved(Cancelled)) else None
    }
  }

  /** The row `accept_ready_work_item` inserts. */
  function NewRow(runnerPool: int, budget: Budget): Row {
    Row(runnerPool, budget, Pending, AwaitingApproval, NO_USAGE, 1, false, None)
  }

  /** The in-memory aggregate. A method that reports false has raised and left every field as it was. */
  class Execution {
    const runnerPool: int
    const budget: Budget
    var approval: Approval
    var status: Status
    var attemptCount: int
    var turnCount: int
    var durationSeconds: int
    var costMinor: int
    var version: nat
    var cancellationRequested: bool
    var resultReference: Option<string>

    function ToRow(): Row
      reads this
    {
      Row(runnerPool, budget, approval, status, Usage(attemptCount, turnCount, durationSeconds, costMinor), version,
          cancellationRequested, resultReference)
    }

    constructor FromRow(row: Row)
      ensures ToRow() == row
    {
      runnerPool := row.runnerPool;
      budget := row.budget;
      approval := row.approval;
      status := row.status;
      attemptCount := row.usage.attempts;
      turnCount := row.usage.turns;
      durationSeconds := row.usage.durationSeconds;
      costMinor := row.usage.costMinor;
      version := row.version;
      cancellationRequested := row.cancellationRequested;
      resultReference := row.resultReference;
    }

    method Transition(expected: Status, target: Status) returns (ok: bool)
      modifies this
      ensures ok <==> old(status) == expected
      ensures ok ==> ToRow() == old(ToRow()).(status := target, version := old(version) + 1)
      ensures ok <==> old(ToRow()).Transition(expected, target).Some?
      ensures ToRow() == old(ToRow()).Transition(expected, target).GetOr(old(ToRow()))
    {
      if status != expected {
        return false;
      }
      status := target;
      version := version + 1;
      return true;
    }

    method Approve() returns (ok: bool)
      modifies this
      ensures ok <==> old(status) == AwaitingApproval
      ensures ok ==> ToRow() == old(ToRow()).(status := Queued, approval := Approved, version := old(version) + 1)
      ensures ok <==> old(ToRow()).Approve().Some?
      ensures ToRow() == old(ToRow()).Approve().GetOr(old(ToRow()))
    {
      if status != AwaitingApproval {
        return false;
      }
      approval := Approved;
      status := Queued;
      version := version + 1;
      return true;
    }

    method StartBuilding() returns (ok: bool)
      modifies this
      ensures ok <==> old(status) in {Planning, Repairing}
      ensures ok ==> ToRow() == old(ToRow()).(status := Building, version := old(version) + 1)
      ensures ok <==> old(ToRow()).StartBuilding().Some?
      ensures ToRow() == old(ToRow()).StartBuilding().GetOr(old(ToRow()))
    {
      if status !in {Planning, Repairing} {
        return false;
      }
      status := Building;
      version := version + 1;
      return true;
    }

    method RequestRepair() returns (ok: bool)
      modifies this
      ensures ok <==> old(status) == Verifying
      ensures ok ==> status == if old(attemptCount) < budget.maxAttempts then Repairing else AwaitingHuman
      ensures ok ==> ToRow() == old(ToRow()).(status := status, version := old(version) + 1)
      ensures ok <==> old(ToRow()).RequestRepair().Some?
      ensures ToRow() == old(ToRow()).RequestRepair().GetOr(old(ToRow()))
    {
      if status != Verifying {
        return false;
      }
      if attemptCount >= budget.maxAttempts {
        status := AwaitingHuman;
      } else {
        status := Repairing;
      }
      version := version + 1;
      return true;
    }

    method Deliver(reference: string) returns (ok: bool)
      modifies this
      ensures ok <==> old(status) == Delivering
      ensures ok ==>
                ToRow() == old(ToRow()).(
                  status := Delivered, resultReference := Some(reference), version := old(version) + 1)
      ensures ok <==> old(ToRow()).Deliver(reference).Some?
      ensures ToRow() == old(ToRow()).Deliver(reference).GetOr(old(ToRow()))
    {
      if status != Delivering {
        return false;
      }
      resultReference := Some(reference);
      status := Delivered;
      version := version + 1;
      return true;
    }

    method RecordUsage(attempts: int, turns: int, duration: int, cost: int) returns (ok: bool)
      modifies this
      ensures ok <==>
                && old(attemptCount) + attempts <= budget.maxAttempts && old(turnCount) + turns <= budget.maxTurns
                && old(durationSeconds) + duration <= budget.maxDurationSeconds
                && old(costMinor) + cost <= budget.maxCostMinor
      ensures ok ==>
                && attemptCount == old(attemptCount) + attempts && turnCount == old(turnCount) + turns
                && durationSeconds == old(durationSeconds) + duration && costMinor == old(costMinor) + cost
                && ToRow() == old(ToRow()).(usage := ToRow().usage, version := old(version) + 1)
      ensures ok <==> old(ToRow()).RecordUsage(Usage(attempts, turns, duration, cost)).Some?
      ensures ToRow() == old(ToRow()).RecordUsage(Usage(attempts, turns, duration, cost)).GetOr(old(ToRow()))
    {
      var nextAttempts := attemptCount + attempts;
      var nextTurns := turnCount + turns;
      var nextDuration := durationSeconds + duration;
      var nextCost := costMinor + cost;
      if budget.Exceeded(Usage(nextAttempts, nextTurns, nextDuration, nextCost)) != [] {
        return false;
      }
      attemptCount := nextAttempts;
      turnCount := nextTurns;
      durationSeconds := nextDuration;
      costMinor := nextCost;
      version := version + 1;
      return true;
    }

    method RequestCancellation() returns (ok: bool)
      modifies this
      ensures ok <==> old(status) !in {Delivered, Failed, Cancelled}
      ensures ok ==> ToRow() == old(ToRow()).(cancellationRequested := true, version := old(version) + 1)
      ensures ok <==> old(ToRow()).RequestCancellation().Some?
      ensures ToRow() == old(ToRow()).RequestCancellation().GetOr(old(ToRow()))
    {
      if status in {Delivered, Failed, Cancelled} {
        return false;
      }
      cancellationRequested := true;
      version := version + 1;
      return true;
    }

    method Cancel() returns (ok: bool)
      modifies this
      ensures ok <==> old(cancellationRequested)
      ensures ok ==> ToRow() == old(ToRow()).(status := Cancelled, version := old(version) + 1)
      ensures ok <==> old(ToRow()).Cancel().Some?
      ensures ToRow() == old(ToRow()).Cancel().GetOr(old(ToRow()))
    {
      if !cancellationRequested {
        return false;
      }
      status := Cancelled;
      version := version + 1;
      return true;
    }
  }
}
