/** The workflow dispatcher over the commands of all executions: ordered, at least once, one commit per batch. */
module Dispatcher {
  import opened Wrappers
  import opened DeliveryTransactions
  import opened DeliveryWorkflows

  const BATCH_LIMIT := 50

  datatype CommandRow = CommandRow(executionId: int, command: Command, dispatched: bool)

  type Server = map<int, Workflow>

  function WorkflowOf(server: Server, id: int): Workflow {
    if id in server then server[id] else NEW_WORKFLOW
  }

  function Send(server: Server, row: CommandRow): Option<Server> {
    match WorkflowOf(server, row.executionId).Dispatch(row.command)
    case None => None
    case Some(w) => Some(server[row.executionId := w])
  }

  function SendAll(server: Server, rows: seq<CommandRow>): Option<Server> {
    if rows == [] then Some(server)
    else
      match SendAll(server, rows[..|rows| - 1])
      case None => None
      case Some(sent) => Send(sent, rows[|rows| - 1])
  }

  /** The ids a batch selects: undispatched, in id order, at most `limit`. */
  function Pending(commands: seq<CommandRow>, from: nat, limit: nat): (ids: seq<nat>)
    requires from <= |commands|
    ensures |ids| <= limit
    ensures forall k :: 0 <= k < |ids| ==> from <= ids[k] < |commands| && !commands[ids[k]].dispatched
    ensures forall j, k :: 0 <= j < k < |ids| ==> ids[j] < ids[k]
    ensures |ids| < limit ==> forall id :: from <= id < |commands| && !commands[id].dispatched ==> id in ids
    decreases |commands| - from
  {
    if limit == 0 || from == |commands| then []
    else if commands[from].dispatched then Pending(commands, from + 1, limit)
    else [from] + Pending(commands, from + 1, limit - 1)
  }

  function Rows(commands: seq<CommandRow>, ids: seq<nat>): (rows: seq<CommandRow>)
    requires forall k :: 0 <= k < |ids| ==> ids[k] < |commands|
    ensures |rows| == |ids| && forall k :: 0 <= k < |ids| ==> rows[k] == commands[ids[k]]
  {
    seq(|ids|, (k: int) requires 0 <= k < |ids| && ids[k] < |commands| => commands[ids[k]])
  }

  /** `dispatched_at` set on the given ids, one after the other. */
  function Mark(commands: seq<CommandRow>, ids: seq<nat>): seq<CommandRow> {
    if ids == [] then commands
    else
      var before, last := Mark(commands, ids[..|ids| - 1]), ids[|ids| - 1];
      if last < |before| then before[last := before[last].(dispatched := true)] else before
  }

  lemma {:induction false} MarkedExactly(commands: seq<CommandRow>, ids: seq<nat>)
    ensures |Mark(commands, ids)| == |commands|
    ensures forall id :: 0 <= id < |commands| ==>
              Mark(commands, ids)[id] == commands[id].(dispatched := commands[id].dispatched || id in ids)
  {
    if ids != [] {
      MarkedExactly(commands, ids[..|ids| - 1]);
      assert ids == ids[..|ids| - 1] + [ids[|ids| - 1]];
    }
  }

  lemma NextRow(server: Server, rows: seq<CommandRow>, commands: seq<CommandRow>, ids: seq<nat>, i: nat, sent: Server)
    requires i < |ids| == |rows| && SendAll(server, rows[..i]) == Some(sent)
    ensures SendAll(server, rows[..i + 1]) == Send(sent, rows[i])
    ensures Mark(commands, ids[..i + 1]) ==
              var before := Mark(commands, ids[..i]);
              if ids[i] < |before| then before[ids[i] := before[ids[i]].(dispatched := true)] else before
  {
    assert rows[..i + 1][..i] == rows[..i] && ids[..i + 1][..i] == ids[..i];
  }

  ghost predicate SentPrefix(before: Server, rows: seq<CommandRow>, after: Server) {
    exists k :: 0 <= k <= |rows| && SendAll(before, rows[..k]) == Some(after)
  }

  /** The command table of all executions and the workflow server. */
  datatype Queue = Queue(commands: seq<CommandRow>, server: Server) {
    function BatchIds(): seq<nat> {
      Pending(commands, 0, BATCH_LIMIT)
    }

    function BatchRows(): seq<CommandRow> {
      Rows(commands, BatchIds())
    }
  }

  /** Every row of the batch was sent, and every one marked. */
  ghost predicate Committed(before: Queue, after: Queue) {
    && SendAll(before.server, before.BatchRows()) == Some(after.server)
    && after.commands == Mark(before.commands, before.BatchIds())
  }

  /** The marks are rolled back while what was sent stays sent. */
  ghost predicate RolledBack(before: Queue, after: Queue) {
    after.commands == before.commands && SentPrefix(before.server, before.BatchRows(), after.server)
  }

  class CommandDispatcher {
    var commands: seq<CommandRow>
    var server: Server

    function State(): Queue
      reads this
    {
      Queue(commands, server)
    }

    /** One turn of the endless loop. After `crashAfter` sends, the process may die; a failing send ends it as well. */
    method DispatchBatch(crashAfter: Option<nat>) returns (committed: bool)
      modifies this
      ensures if committed then Committed(old(State()), State()) else RolledBack(old(State()), State())
      ensures committed <==>
                && (crashAfter.None? || crashAfter.value >= |old(State()).BatchRows()|)
                && SendAll(old(server), old(State()).BatchRows()).Some?
    {
      hide Pending, Rows, SendAll, Mark, Send;
      var ids := Pending(commands, 0, BATCH_LIMIT);
      var rows := Rows(commands, ids);
      var marked := commands;
      NothingSent(server, rows, commands, ids);
      for i := 0 to |ids|
        invariant commands == old(commands) && |marked| == |commands|
        invariant SendAll(old(server), rows[..i]) == Some(server)
        invariant marked == Mark(commands, ids[..i])
        invariant crashAfter.Some? ==> crashAfter.value >= i
      {
        assert SentPrefix(old(server), rows, server);
        if crashAfter == Some(i) {
          return false;
        }
        var sent := Send(server, rows[i]);
        NextRow(old(server), rows, commands, ids, i, server);
        if sent.None? {
          if SendAll(old(server), rows).Some? {
            PrefixSucceeds(old(server), rows, i + 1);
          }
          return false;
        }
        server := sent.value;
        marked := marked[ids[i] := marked[ids[i]].(dispatched := true)];
      }
      assert rows[..|rows|] == rows && ids[..|ids|] == ids;
      commands := marked;
      return true;
    }
  }

  lemma NothingSent(server: Server, rows: seq<CommandRow>, commands: seq<CommandRow>, ids: seq<nat>)
    ensures SendAll(server, rows[..0]) == Some(server) && Mark(commands, ids[..0]) == commands
  {
  }

  /** What one execution's workflow sees of a list of commands. */
  function DispatchAll(w: Workflow, commands: seq<Command>): Option<Workflow> {
    if commands == [] then Some(w)
    else
      match DispatchAll(w, commands[..|commands| - 1])
      case None => None
      case Some(next) => next.Dispatch(commands[|commands| - 1])
  }

  function CommandsOf(rows: seq<CommandRow>, id: int): seq<Command> {
    if rows == [] then []
    else
      var last := rows[|rows| - 1];
      CommandsOf(rows[..|rows| - 1], id) + (if last.executionId == id then [last.command] else [])
  }

  /** Batches mix executions, but each workflow sees only its own commands, in order. */
  lemma {:induction false} SendAllPerExecution(server: Server, rows: seq<CommandRow>, id: int)
    requires SendAll(server, rows).Some?
    ensures DispatchAll(WorkflowOf(server, id), CommandsOf(rows, id)) ==
            Some(WorkflowOf(SendAll(server, rows).value, id))
  {
    if rows != [] {
      var before, last := rows[..|rows| - 1], rows[|rows| - 1];
      SendAllPerExecution(server, before, id);
      if last.executionId == id {
        var commands := CommandsOf(rows, id);
        assert commands[..|commands| - 1] == CommandsOf(before, id);
      } else {
        assert CommandsOf(rows, id) == CommandsOf(before, id);
      }
    }
  }

  predicate AnyApprove(commands: seq<Command>) {
    exists k :: 0 <= k < |commands| && commands[k].ApproveCommand?
  }

  predicate AnyCancel(commands: seq<Command>) {
    exists k :: 0 <= k < |commands| && commands[k].CancelCommand?
  }

  function LastActor(commands: seq<Command>, actor: Option<string>): Option<string> {
    if commands == [] then actor
    else if commands[|commands| - 1].ApproveCommand? then Some(commands[|commands| - 1].actor)
    else LastActor(commands[..|commands| - 1], actor)
  }

  /** Signals accumulate; nothing a dispatcher sends takes a flag back. */
  lemma {:induction false} OpenRunCollects(w: Workflow, commands: seq<Command>)
    requires w.Open()
    ensures DispatchAll(w, commands) == Some(w.(approved := w.approved || AnyApprove(commands),
                                               cancelled := w.cancelled || AnyCancel(commands),
                                               approvalActor := LastActor(commands, w.approvalActor)))
  {
    if commands != [] {
      var before, n := commands[..|commands| - 1], |commands| - 1;
      OpenRunCollects(w, before);
      assert AnyApprove(commands) <==> AnyApprove(before) || commands[n].ApproveCommand? by {
        assert forall k :: 0 <= k < n ==> before[k] == commands[k];
        if AnyApprove(before) {
          var k :| 0 <= k < |before| && before[k].ApproveCommand?;
          assert commands[k].ApproveCommand?;
        }
      }
      assert AnyCancel(commands) <==> AnyCancel(before) || commands[n].CancelCommand? by {
        if AnyCancel(before) {
          var k :| 0 <= k < |before| && before[k].CancelCommand?;
          assert commands[k].CancelCommand?;
        }
        if AnyCancel(commands) && !commands[n].CancelCommand? {
          var k :| 0 <= k < |commands| && commands[k].CancelCommand?;
          assert before[k].CancelCommand?;
        }
      }
    }
  }

  predicate SameFlags(w: Workflow, v: Workflow) {
    w.approved == v.approved && w.cancelled == v.cancelled && w.approvalActor == v.approvalActor && w.runs == v.runs
  }

  /** The run itself has moved on, without a new signal and without closing. */
  predicate Progressed(w: Workflow, v: Workflow) {
    SameFlags(w, v) && (w.Open() <==> v.Open()) && (!w.Open() ==> v == w)
  }

  lemma PrefixFlags(commands: seq<Command>, k: nat, actor: Option<string>)
    requires k <= |commands|
    ensures AnyApprove(commands[..k]) ==> AnyApprove(commands)
    ensures AnyCancel(commands[..k]) ==> AnyCancel(commands)
    ensures LastActor(commands, LastActor(commands[..k], actor)) == LastActor(commands, actor)
  {
    if AnyApprove(commands[..k]) {
      var j :| 0 <= j < k && commands[..k][j].ApproveCommand?;
      assert commands[j].ApproveCommand?;
    }
    if AnyCancel(commands[..k]) {
      var j :| 0 <= j < k && commands[..k][j].CancelCommand?;
      assert commands[j].CancelCommand?;
    }
    LastActorAfterPrefix(commands, k, actor);
  }

  lemma {:induction false} LastActorAfterPrefix(commands: seq<Command>, k: nat, actor: Option<string>)
    requires k <= |commands|
    ensures LastActor(commands, LastActor(commands[..k], actor)) == LastActor(commands, actor)
    decreases |commands|
  {
    var n := |commands| - 1;
    if k == |commands| {
      assert commands[..k] == commands;
      LastActorIdempotent(commands, actor);
    } else if !commands[n].ApproveCommand? {
      assert commands[..n][..k] == commands[..k];
      LastActorAfterPrefix(commands[..n], k, actor);
    }
  }

  lemma {:induction false} LastActorIdempotent(commands: seq<Command>, actor: Option<string>)
    ensures LastActor(commands, LastActor(commands, actor)) == LastActor(commands, actor)
  {
    if commands != [] && !commands[|commands| - 1].ApproveCommand? {
      LastActorIdempotent(commands[..|commands| - 1], actor);
    }
  }

  /** One workflow's view of a replay. */
  lemma ReplayOneWorkflow(w: Workflow, commands: seq<Command>, k: nat, sent: Workflow, later: Workflow, once: Workflow)
    requires w.phase != Closed && k <= |commands|
    requires DispatchAll(w, commands[..k]) == Some(sent) && Progressed(sent, later)
    requires DispatchAll(w, commands) == Some(once)
    ensures DispatchAll(later, commands).Some?
    ensures SameFlags(DispatchAll(later, commands).value, once)
    ensures later.Open() ==> DispatchAll(later, commands).value.phase == later.phase
  {
    PrefixFlags(commands, k, w.approvalActor);
    if w.Open() {
      OpenRunCollects(w, commands);
      OpenRunCollects(w, commands[..k]);
      OpenRunCollects(later, commands);
    } else if commands != [] {
      StartOpensRun(w, commands);
      var started := w.Dispatch(StartCommand).value;
      OpenRunCollects(started, commands);
      if k > 0 {
        StartOpensRun(w, commands[..k]);
        OpenRunCollects(started, commands[..k]);
        OpenRunCollects(later, commands);
        PrefixFlags(commands, k, started.approvalActor);
      } else {
        assert commands[..k] == [];
      }
    }
  }

  /** Commands reach a workflow that is not open only behind its START. */
  lemma {:induction false} StartOpensRun(w: Workflow, commands: seq<Command>)
    requires !w.Open() && commands != [] && DispatchAll(w, commands).Some?
    ensures commands[0].StartCommand?
    ensures DispatchAll(w, commands) == DispatchAll(w.Dispatch(StartCommand).value, commands)
    decreases |commands|
  {
    var n := |commands| - 1;
    if n == 0 {
      assert commands[..n] == [];
    } else {
      StartOpensRun(w, commands[..n]);
    }
  }

  /** Replaying a batch that was sent up to any point and never committed, while the runs it reached may have moved
      on but are still open, leaves every workflow with the flags one clean pass gives, on the branch it is on. */
  lemma ReplayIsInvisible(server: Server, rows: seq<CommandRow>, k: nat, sent: Server, later: Server, once: Server,
      id: int)
    requires forall i :: WorkflowOf(server, i).phase != Closed
    requires k <= |rows| && SendAll(server, rows[..k]) == Some(sent)
    requires forall i :: Progressed(WorkflowOf(sent, i), WorkflowOf(later, i))
    requires SendAll(server, rows) == Some(once)
    ensures SendAll(later, rows).Some?
    ensures SameFlags(WorkflowOf(SendAll(later, rows).value, id), WorkflowOf(once, id))
    ensures WorkflowOf(later, id).Open() ==>
              WorkflowOf(SendAll(later, rows).value, id).phase == WorkflowOf(later, id).phase
  {
    ReplaySucceeds(server, rows, |rows|, k, sent, later, once);
    assert rows[..|rows|] == rows;
    SendAllPerExecution(server, rows, id);
    SendAllPerExecution(server, rows[..k], id);
    SendAllPerExecution(later, rows, id);
    var m := CommandsOfPrefix(rows, k, id);
    ReplayOneWorkflow(WorkflowOf(server, id), CommandsOf(rows, id), m, WorkflowOf(sent, id), WorkflowOf(later, id),
        WorkflowOf(once, id));
  }

  lemma {:induction false} CommandsOfPrefix(rows: seq<CommandRow>, k: nat, id: int) returns (m: nat)
    requires k <= |rows|
    ensures m <= |CommandsOf(rows, id)| && CommandsOf(rows, id)[..m] == CommandsOf(rows[..k], id)
    decreases |rows|
  {
    if k == |rows| {
      assert rows[..k] == rows;
      m := |CommandsOf(rows, id)|;
    } else {
      assert rows[..|rows| - 1][..k] == rows[..k];
      m := CommandsOfPrefix(rows[..|rows| - 1], k, id);
    }
  }

  lemma {:induction false} PrefixSucceeds(server: Server, rows: seq<CommandRow>, j: nat)
    requires j <= |rows| && SendAll(server, rows).Some?
    ensures SendAll(server, rows[..j]).Some?
    decreases |rows|
  {
    if j == |rows| {
      assert rows[..j] == rows;
    } else {
      assert rows[..|rows| - 1][..j] == rows[..j];
      PrefixSucceeds(server, rows[..|rows| - 1], j);
    }
  }

  /** A workflow nothing has been sent to yet is as it was before the first try. */
  lemma UntouchedWorkflow(server: Server, rows: seq<CommandRow>, k: nat, sent: Server, later: Server, id: int)
    requires WorkflowOf(server, id).phase != Closed
    requires k <= |rows| && SendAll(server, rows[..k]) == Some(sent)
    requires Progressed(WorkflowOf(sent, id), WorkflowOf(later, id))
    ensures WorkflowOf(later, id).Open() || WorkflowOf(later, id) == WorkflowOf(server, id)
  {
    var w, commands := WorkflowOf(server, id), CommandsOf(rows[..k], id);
    SendAllPerExecution(server, rows[..k], id);
    if w.Open() {
      OpenRunCollects(w, commands);
    } else if commands != [] {
      StartOpensRun(w, commands);
      OpenRunCollects(w.Dispatch(StartCommand).value, commands);
    }
  }

  /** No send of the replay fails: it would have to fail for a workflow that is not open, and there the first try
      fails as well. */
  lemma {:induction false} ReplaySucceeds(server: Server, rows: seq<CommandRow>, j: nat, k: nat, sent: Server,
      later: Server, once: Server)
    requires forall i :: WorkflowOf(server, i).phase != Closed
    requires j <= |rows| && k <= |rows| && SendAll(server, rows[..k]) == Some(sent)
    requires forall i :: Progressed(WorkflowOf(sent, i), WorkflowOf(later, i))
    requires SendAll(server, rows) == Some(once)
    ensures SendAll(later, rows[..j]).Some?
    decreases j
  {
    if j == 0 {
      assert rows[..0] == [];
    } else {
      ReplaySucceeds(server, rows, j - 1, k, sent, later, once);
      assert rows[..j][..j - 1] == rows[..j - 1];
      var id, before := rows[j - 1].executionId, rows[..j - 1];
      UntouchedWorkflow(server, rows, k, sent, later, id);
      PrefixSucceeds(server, rows, j);
      PrefixSucceeds(server, rows, j - 1);
      SendAllPerExecution(later, before, id);
      SendAllPerExecution(server, before, id);
      if WorkflowOf(later, id).Open() {
        OpenRunCollects(WorkflowOf(later, id), CommandsOf(before, id));
      }
    }
  }
}
