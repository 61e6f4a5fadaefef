/** The workflow of one execution id: its signal flags, the branch it takes on waking, and how the server reacts to
    the dispatcher's calls. */
module DeliveryWorkflows {
  import opened Wrappers
  import opened DeliveryTransactions

  /** The retry policy of the `execute-delivery` activity. */
  const MAXIMUM_ATTEMPTS := 3

  datatype Phase = NotStarted | Recording | Waiting | Cancelling | Executing | Closed

  /** `runs` counts the workflow runs ever started under this id, `attempts` the attempts of the current run's
      `execute-delivery` activity. */
  datatype Workflow = Workflow(
    phase: Phase,
    approved: bool,
    cancelled: bool,
    approvalActor: Option<string>,
    attempts: nat,
    runs: nat)
  {
    predicate Open() {
      phase in {Recording, Waiting, Cancelling, Executing}
    }

    /** Before the run has left its wait. */
    predicate Undecided() {
      phase in {Recording, Waiting}
    }

    /** The effect of one dispatched command. Starting an open run is suppressed; starting under the id of a closed
        run begins another; signalling when nothing is open is an error, which ends the dispatcher process. */
    function Dispatch(command: Command): Option<Workflow> {
      match command
      case StartCommand =>
        if Open() then Some(this) else Some(Workflow(Recording, false, false, None, 0, runs + 1))
      case ApproveCommand(actor) =>
        if Open() then Some(this.(approved := true, approvalActor := Some(actor))) else None
      case CancelCommand(_) =>
        if Open() then Some(this.(cancelled := true)) else None
    }

    /** The end of `wait_condition`: cancellation is looked at first. */
    function Wake(): Option<Workflow> {
      if phase != Waiting || !(approved || cancelled) then None
      else Some(this.(phase := if cancelled then Cancelling else Executing))
    }
  }

  const NEW_WORKFLOW := Workflow(NotStarted, false, false, None, 0, 0)

  /** The workflow object itself. `Run` is a coroutine; each method is one stretch between two suspensions. */
  class DeliveryWorkflow {
    var phase: Phase
    var approved: bool
    var cancelled: bool
    var approvalActor: Option<string>
    var attempts: nat
    const run: nat

    function State(): Workflow
      reads this
    {
      Workflow(phase, approved, cancelled, approvalActor, attempts, run)
    }

    constructor Start(ghost previous: Workflow, run: nat)
      requires !previous.Open() && run == previous.runs + 1
      ensures State() == Workflow(Recording, false, false, None, 0, run)
      ensures Some(State()) == previous.Dispatch(StartCommand)
    {
      phase := Recording;
      approved := false;
      cancelled := false;
      approvalActor := None;
      attempts := 0;
      this.run := run;
    }

    method Approve(actor: string)
      requires State().Open()
      modifies this
      ensures State() == old(State()).(approved := true, approvalActor := Some(actor))
      ensures Some(State()) == old(State()).Dispatch(ApproveCommand(actor))
    {
      approved := true;
      approvalActor := Some(actor);
    }

    method Cancel(actor: string)
      requires State().Open()
      modifies this
      ensures State() == old(State()).(cancelled := true)
      ensures Some(State()) == old(State()).Dispatch(CancelCommand(actor))
    {
      cancelled := true;
    }

    method RecordWaiting()
      requires phase == Recording
      modifies this
      ensures State() == old(State()).(phase := Waiting)
    {
      phase := Waiting;
    }

    method Wake() returns (woke: bool)
      requires phase == Waiting
      modifies this
      ensures woke <==> approved || cancelled
      ensures State() == old(State()).(
                phase := if cancelled then Cancelling else if approved then Executing else Waiting)
      ensures woke <==> old(State()).Wake().Some?
      ensures State() == old(State()).Wake().GetOr(old(State()))
    {
      if !approved && !cancelled {
        return false;
      }
      if cancelled {
        phase := Cancelling;
        return true;
      }
      phase := Executing;
      return true;
    }
  }
}
