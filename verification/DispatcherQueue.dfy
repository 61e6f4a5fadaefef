/** Exactly which waiting commands can still be dispatched: batches mix the commands of all executions and commit all
    or nothing, so one signal that cannot be delivered holds up everything behind it. */
module DispatcherQueue {
  import opened Wrappers
  import opened DeliveryTransactions
  import opened DeliveryWorkflows
  import opened Dispatcher

  predicate Undispatched(q: Queue, id: nat) {
    id < |q.commands| && !q.commands[id].dispatched
  }

  /** How many waiting rows have a lower id. */
  function Ahead(commands: seq<CommandRow>, id: nat): nat
    requires id <= |commands|
  {
    if id == 0 then 0 else Ahead(commands, id - 1) + (if commands[id - 1].dispatched then 0 else 1)
  }

  /** A waiting signal for a workflow that has no open run, with no START waiting before it. */
  predicate Doomed(q: Queue, id: nat) {
    && Undispatched(q, id)
    && !q.commands[id].command.StartCommand?
    && !WorkflowOf(q.server, q.commands[id].executionId).Open()
    && forall a :: 0 <= a < id && Undispatched(q, a) && q.commands[a].executionId == q.commands[id].executionId ==>
         !q.commands[a].command.StartCommand?
  }

  lemma {:induction false} AheadGrows(commands: seq<CommandRow>, a: nat, b: nat)
    requires a <= b <= |commands|
    ensures Ahead(commands, a) <= Ahead(commands, b)
    ensures a < b && !commands[a].dispatched ==> Ahead(commands, a) < Ahead(commands, b)
    decreases b
  {
    if a < b {
      AheadGrows(commands, a, b - 1);
    }
  }

  /** A batch is the waiting rows with fewer than fifty waiting rows ahead of them. */
  lemma {:induction false} PendingIsFirst(commands: seq<CommandRow>, from: nat, limit: nat, id: nat)
    requires from <= |commands|
    ensures id in Pending(commands, from, limit) <==>
              from <= id < |commands| && !commands[id].dispatched && Ahead(commands, id) < Ahead(commands, from) + limit
    decreases |commands| - from
  {
    hide Pending, Ahead;
    PendingStep(commands, from, limit, id);
    if from <= id < |commands| {
      AheadGrows(commands, from, id);
    }
    if limit != 0 && from < |commands| {
      AheadStep(commands, from);
      PendingIsFirst(commands, from + 1, if commands[from].dispatched then limit else limit - 1, id);
    }
  }

  lemma AheadStep(commands: seq<CommandRow>, id: nat)
    requires id < |commands|
    ensures Ahead(commands, id + 1) == Ahead(commands, id) + (if commands[id].dispatched then 0 else 1)
  {
  }

  lemma PendingStep(commands: seq<CommandRow>, from: nat, limit: nat, id: nat)
    requires from <= |commands|
    ensures id in Pending(commands, from, limit) <==>
              limit != 0 && from < |commands| &&
              if commands[from].dispatched then id in Pending(commands, from + 1, limit)
              else id == from || id in Pending(commands, from + 1, limit - 1)
  {
  }

  lemma InBatch(q: Queue, id: nat)
    ensures id in q.BatchIds() <==> Undispatched(q, id) && Ahead(q.commands, id) < BATCH_LIMIT
  {
    PendingIsFirst(q.commands, 0, BATCH_LIMIT, id);
  }

  predicate HasStart(rows: seq<CommandRow>, executionId: int) {
    exists i :: 0 <= i < |rows| && rows[i].executionId == executionId && rows[i].command.StartCommand?
  }

  lemma HasStartLast(rows: seq<CommandRow>, row: CommandRow, executionId: int)
    ensures HasStart(rows + [row], executionId) <==>
              HasStart(rows, executionId) || (row.executionId == executionId && row.command.StartCommand?)
  {
    var all := rows + [row];
    assert all[|rows|] == row;
    if HasStart(rows, executionId) {
      var i :| 0 <= i < |rows| && rows[i].executionId == executionId && rows[i].command.StartCommand?;
      assert all[i] == rows[i];
    }
  }

  /** Sending opens a workflow's run by its START only, and closes none. */
  lemma {:induction false} OpenAfter(server: Server, rows: seq<CommandRow>, executionId: int)
    requires SendAll(server, rows).Some?
    ensures WorkflowOf(SendAll(server, rows).value, executionId).Open() <==>
              WorkflowOf(server, executionId).Open() || HasStart(rows, executionId)
  {
    if rows != [] {
      var before, last := rows[..|rows| - 1], rows[|rows| - 1];
      OpenAfter(server, before, executionId);
      HasStartLast(before, last, executionId);
      assert before + [last] == rows;
    }
  }

  predicate Fails(server: Server, rows: seq<CommandRow>, i: nat) {
    && i < |rows| && !rows[i].command.StartCommand?
    && !WorkflowOf(server, rows[i].executionId).Open()
    && !HasStart(rows[..i], rows[i].executionId)
  }

  /** A list of commands can be sent exactly when none of them is a signal without a run. */
  lemma {:induction false} SendsUnlessOneFails(server: Server, rows: seq<CommandRow>)
    ensures SendAll(server, rows).Some? <==> forall i :: !Fails(server, rows, i)
  {
    if rows != [] {
      var n := |rows| - 1;
      var before := rows[..n];
      SendsUnlessOneFails(server, before);
      assert forall i: nat :: i < n ==> before[..i] == rows[..i];
      assert forall i: nat :: i < n ==> (Fails(server, before, i) <==> Fails(server, rows, i));
      if SendAll(server, before).Some? {
        OpenAfter(server, before, rows[n].executionId);
        assert SendAll(server, rows).None? <==> Fails(server, rows, n);
      } else {
        var i: nat :| Fails(server, before, i);
        assert Fails(server, rows, i);
      }
    }
  }

  /** A START that waits before a row of the batch is in the batch, before that row. */
  lemma StartIsInBatch(q: Queue, i: nat, a: nat) returns (k: nat)
    requires i < |q.BatchIds()| && a < q.BatchIds()[i] && Undispatched(q, a)
    ensures k < i && q.BatchIds()[k] == a
  {
    hide Pending, Ahead;
    var ids := q.BatchIds();
    InBatch(q, ids[i]);
    InBatch(q, a);
    AheadGrows(q.commands, a, ids[i]);
    k :| 0 <= k < |ids| && ids[k] == a;
  }

  lemma BatchRow(q: Queue, k: nat)
    requires k < |q.BatchIds()|
    ensures Undispatched(q, q.BatchIds()[k]) && q.BatchRows()[k] == q.commands[q.BatchIds()[k]]
    ensures forall i :: 0 <= i < k ==> q.BatchIds()[i] < q.BatchIds()[k]
  {
    hide Pending, Rows;
  }

  /** A row of the batch fails in its place exactly when it is doomed. */
  lemma FailsIffDoomed(q: Queue, i: nat)
    requires i < |q.BatchIds()|
    ensures Fails(q.server, q.BatchRows(), i) <==> Doomed(q, q.BatchIds()[i])
  {
    hide Pending, Rows, Ahead;
    var ids, rows := q.BatchIds(), q.BatchRows();
    var b := ids[i];
    BatchRow(q, i);
    if HasStart(rows[..i], rows[i].executionId) {
      var k :| 0 <= k < i && rows[..i][k].executionId == rows[i].executionId && rows[..i][k].command.StartCommand?;
      BatchRow(q, k);
    }
    if a: nat :| a < b && Undispatched(q, a) && q.commands[a].executionId == q.commands[b].executionId
                 && q.commands[a].command.StartCommand? {
      var k := StartIsInBatch(q, i, a);
      BatchRow(q, k);
      assert rows[..i][k] == q.commands[a];
    }
  }

  /** The next batch commits, if nothing crashes, exactly when no doomed row has fewer than fifty rows ahead. */
  lemma BatchSendsIff(q: Queue)
    ensures SendAll(q.server, q.BatchRows()).Some? <==>
              forall b: nat :: Doomed(q, b) ==> Ahead(q.commands, b) >= 50
  {
    hide Pending, Rows, Fails, Doomed;
    var ids, rows := q.BatchIds(), q.BatchRows();
    SendsUnlessOneFails(q.server, rows);
    if i: nat :| Fails(q.server, rows, i) {
      BatchIndex(q, i);
      FailsIffDoomed(q, i);
      InBatch(q, ids[i]);
      DoomedWaits(q, ids[i]);
    }
    if b: nat :| Doomed(q, b) && b < |q.commands| && Ahead(q.commands, b) < BATCH_LIMIT {
      DoomedWaits(q, b);
      InBatch(q, b);
      var i :| 0 <= i < |ids| && ids[i] == b;
      FailsIffDoomed(q, i);
    }
    forall b: nat | Doomed(q, b)
      ensures b < |q.commands|
    {
      DoomedWaits(q, b);
    }
  }

  lemma DoomedWaits(q: Queue, b: nat)
    requires Doomed(q, b)
    ensures Undispatched(q, b)
  {
  }

  lemma BatchIndex(q: Queue, i: nat)
    requires Fails(q.server, q.BatchRows(), i)
    ensures i < |q.BatchIds()|
  {
  }

  /** Marking a batch moves everything behind it up by fifty. */
  lemma {:induction false} AheadAfter(q: Queue, after: Queue, id: nat)
    requires after.commands == Mark(q.commands, q.BatchIds()) && id <= |q.commands|
    ensures |after.commands| == |q.commands|
    ensures Ahead(after.commands, id) ==
              if Ahead(q.commands, id) <= BATCH_LIMIT then 0 else Ahead(q.commands, id) - BATCH_LIMIT
  {
    hide Pending, Mark;
    MarkedExactly(q.commands, q.BatchIds());
    if id > 0 {
      AheadAfter(q, after, id - 1);
      InBatch(q, id - 1);
    }
  }

  lemma WaitsAfter(q: Queue, after: Queue, id: nat)
    requires after.commands == Mark(q.commands, q.BatchIds())
    ensures |after.commands| == |q.commands|
    ensures Undispatched(after, id) <==> Undispatched(q, id) && Ahead(q.commands, id) >= BATCH_LIMIT
    ensures id < |q.commands| ==> after.commands[id].(dispatched := true) == q.commands[id].(dispatched := true)
  {
    hide Pending, Mark;
    MarkedExactly(q.commands, q.BatchIds());
    InBatch(q, id);
  }

  ghost predicate Appended(a: Queue, b: Queue, row: CommandRow) {
    !row.dispatched && b == Queue(a.commands + [row], a.server)
  }

  ghost predicate RunMoved(a: Queue, b: Queue, id: int, w: Workflow) {
    WorkflowOf(a.server, id).Open() && b == Queue(a.commands, a.server[id := w])
  }

  /** What can happen to the queue: an API request appends a command, an open run moves on or closes, or the
      dispatcher makes one turn, which commits or not. */
  ghost predicate Moved(a: Queue, b: Queue) {
    || (exists row :: Appended(a, b, row))
    || (exists id, w :: RunMoved(a, b, id, w))
    || Committed(a, b)
    || RolledBack(a, b)
  }

  ghost predicate QueueRun(states: seq<Queue>) {
    states != [] && forall i :: 0 <= i < |states| - 1 ==> Moved(states[i], states[i + 1])
  }

  /** A doomed row no later than in the batch that the row `r` would be in. */
  predicate StuckBehind(q: Queue, r: nat, b: nat) {
    Undispatched(q, r) && Doomed(q, b) && Ahead(q.commands, b) / BATCH_LIMIT <= Ahead(q.commands, r) / BATCH_LIMIT
  }

  lemma {:induction false} AheadOfPrefix(commands: seq<CommandRow>, more: seq<CommandRow>, id: nat)
    requires id <= |commands| && commands <= more
    ensures Ahead(more, id) == Ahead(commands, id)
  {
    if id > 0 {
      AheadOfPrefix(commands, more, id - 1);
    }
  }

  lemma StillDoomed(q: Queue, after: Queue, b: nat)
    requires Doomed(q, b) && q.commands <= after.commands
    requires !WorkflowOf(after.server, q.commands[b].executionId).Open()
    ensures Doomed(after, b) && Ahead(after.commands, b) == Ahead(q.commands, b)
  {
    AheadOfPrefix(q.commands, after.commands, b);
  }

  /** Whatever part of a batch gets through, it starts no run for the doomed row. */
  lemma PrefixStartsNoRun(q: Queue, k: nat, b: nat)
    requires Doomed(q, b) && k <= |q.BatchRows()| && SendAll(q.server, q.BatchRows()[..k]).Some?
    ensures !HasStart(q.BatchRows()[..k], q.commands[b].executionId)
  {
    hide Pending, Rows, SendAll;
    var ids, rows := q.BatchIds(), q.BatchRows();
    if HasStart(rows[..k], q.commands[b].executionId) {
      var i :| 0 <= i < k && rows[..k][i].executionId == q.commands[b].executionId
          && rows[..k][i].command.StartCommand?;
      var a := ids[i];
      assert rows[i] == q.commands[a] && Undispatched(q, a);
      assert b < a;
      InBatch(q, a);
      InBatch(q, b);
      AheadGrows(q.commands, b, a);
      var j :| 0 <= j < |ids| && ids[j] == b;
      assert j < i;
      FailsIffDoomed(q, j);
      assert rows[..k][..j] == rows[..j];
      assert Fails(q.server, rows[..k], j);
      SendsUnlessOneFails(q.server, rows[..k]);
    }
  }

  lemma SentStaysStuck(q: Queue, after: Queue, r: nat, b: nat)
    requires StuckBehind(q, r, b) && RolledBack(q, after)
    ensures StuckBehind(after, r, b)
  {
    hide Doomed, HasStart, SendAll, Pending, Rows;
    DoomedWaits(q, b);
    var k :| 0 <= k <= |q.BatchRows()| && SendAll(q.server, q.BatchRows()[..k]) == Some(after.server);
    PrefixStartsNoRun(q, k, b);
    OpenAfter(q.server, q.BatchRows()[..k], q.commands[b].executionId);
    DoomedHasNoRun(q, b);
    StillDoomed(q, after, b);
  }

  lemma DoomedHasNoRun(q: Queue, b: nat)
    requires Doomed(q, b)
    ensures !WorkflowOf(q.server, q.commands[b].executionId).Open()
  {
  }

  lemma CommittedStaysStuck(q: Queue, after: Queue, r: nat, b: nat)
    requires StuckBehind(q, r, b) && Committed(q, after)
    ensures StuckBehind(after, r, b)
  {
    hide Pending, Rows, SendAll, Mark, HasStart, Ahead;
    var rows := q.BatchRows();
    OneBatchLess(Ahead(q.commands, b));
    OneBatchLess(Ahead(q.commands, r));
    BatchSendsIff(q);
    assert rows[..|rows|] == rows;
    PrefixStartsNoRun(q, |rows|, b);
    OpenAfter(q.server, rows, q.commands[b].executionId);
    AheadAfter(q, after, b);
    AheadAfter(q, after, r);
    WaitsAfter(q, after, r);
    WaitsAfter(q, after, b);
    forall a: nat | a < b
      ensures Undispatched(after, a) ==> Undispatched(q, a)
      ensures after.commands[a].(dispatched := true) == q.commands[a].(dispatched := true)
    {
      WaitsAfter(q, after, a);
    }
    CommittedStillDoomed(q, after, b);
  }

  lemma CommittedStillDoomed(q: Queue, after: Queue, b: nat)
    requires Doomed(q, b) && Undispatched(after, b) && |after.commands| == |q.commands|
    requires after.commands[b].(dispatched := true) == q.commands[b].(dispatched := true)
    requires !WorkflowOf(after.server, q.commands[b].executionId).Open()
    requires forall a: nat :: a < b ==>
               && (Undispatched(after, a) ==> Undispatched(q, a))
               && after.commands[a].(dispatched := true) == q.commands[a].(dispatched := true)
    ensures Doomed(after, b)
  {
    forall a: nat | a <= b
      ensures after.commands[a].executionId == q.commands[a].executionId
              && after.commands[a].command == q.commands[a].command
    {
      assert after.commands[a].(dispatched := true) == q.commands[a].(dispatched := true);
    }
  }

  lemma MovedStaysStuck(q: Queue, after: Queue, r: nat, b: nat)
    requires StuckBehind(q, r, b) && Moved(q, after)
    ensures StuckBehind(after, r, b) && |after.commands| >= |q.commands|
  {
    hide Committed, RolledBack;
    if Committed(q, after) {
      CommittedStaysStuck(q, after, r, b);
      CommittedKeepsRows(q, after);
    } else if RolledBack(q, after) {
      SentStaysStuck(q, after, r, b);
      RolledBackKeepsRows(q, after);
    } else {
      AheadOfPrefix(q.commands, after.commands, r);
      StillDoomed(q, after, b);
    }
  }

  lemma CommittedKeepsRows(q: Queue, after: Queue)
    requires Committed(q, after)
    ensures |after.commands| == |q.commands|
  {
    MarkedExactly(q.commands, q.BatchIds());
  }

  lemma RolledBackKeepsRows(q: Queue, after: Queue)
    requires RolledBack(q, after)
    ensures after.commands == q.commands
  {
  }

  lemma {:induction false} StuckForGood(states: seq<Queue>, r: nat, b: nat)
    requires QueueRun(states) && StuckBehind(states[0], r, b)
    ensures StuckBehind(states[|states| - 1], r, b)
    decreases |states|
  {
    hide StuckBehind, Moved;
    var n := |states| - 1;
    if n > 0 {
      StuckForGood(states[..n], r, b);
      MovedStaysStuck(states[n - 1], states[n], r, b);
    }
  }

  /** Rows in earlier or the same batch as `r` are not doomed. */
  ghost predicate ClearUpTo(q: Queue, r: nat) {
    forall b: nat :: Doomed(q, b) && r < |q.commands| ==> Ahead(q.commands, b) / 50 > Ahead(q.commands, r) / 50
  }

  lemma OneBatchLess(n: nat)
    ensures n >= BATCH_LIMIT ==> (n - BATCH_LIMIT) / BATCH_LIMIT == n / BATCH_LIMIT - 1
    ensures n < BATCH_LIMIT ==> n / BATCH_LIMIT == 0
  {
  }

  lemma CommittedStaysClear(q: Queue, after: Queue, r: nat)
    requires Undispatched(q, r) && ClearUpTo(q, r) && Committed(q, after) && Ahead(q.commands, r) >= BATCH_LIMIT
    ensures Undispatched(after, r) && ClearUpTo(after, r)
    ensures Ahead(after.commands, r) == Ahead(q.commands, r) - BATCH_LIMIT
  {
    hide Pending, Rows, SendAll, Mark, HasStart, Doomed, Ahead;
    WaitsAfter(q, after, r);
    AheadAfter(q, after, r);
    OneBatchLess(Ahead(q.commands, r));
    forall b: nat | Doomed(after, b)
      ensures b < |after.commands|
    {
      DoomedWaits(after, b);
    }
    forall b: nat | Doomed(after, b)
      ensures Ahead(after.commands, b) / BATCH_LIMIT > Ahead(after.commands, r) / BATCH_LIMIT
    {
      DoomedWaits(after, b);
      WaitsAfter(q, after, b);
      AheadAfter(q, after, b);
      OneBatchLess(Ahead(q.commands, b));
      DoomedAfterMeansBefore(q, after, b);
    }
  }

  lemma DoomedAfterMeansBefore(q: Queue, after: Queue, b: nat)
    requires Committed(q, after) && Doomed(after, b)
    ensures Doomed(q, b)
  {
    hide Pending, Rows, SendAll, Mark;
    var ids, rows := q.BatchIds(), q.BatchRows();
    WaitsAfter(q, after, b);
    var x := q.commands[b].executionId;
    OpenAfter(q.server, rows, x);
    forall a: nat | a < b && Undispatched(q, a) && q.commands[a].executionId == x
      ensures !q.commands[a].command.StartCommand?
    {
      WaitsAfter(q, after, a);
      InBatch(q, a);
      if a in ids {
        var i :| 0 <= i < |ids| && ids[i] == a;
        assert rows[i] == q.commands[a];
      }
    }
  }

  /** One batch after the other reaches a row that nothing doomed stands before or beside. */
  lemma {:induction false} BatchesReach(q: Queue, r: nat) returns (states: seq<Queue>)
    requires Undispatched(q, r) && ClearUpTo(q, r)
    ensures QueueRun(states) && states[0] == q
    ensures var last := states[|states| - 1]; r < |last.commands| && !Undispatched(last, r)
    decreases Ahead(q.commands, r)
  {
    hide Pending, Rows, SendAll, Mark, Doomed;
    BatchSendsIff(q) by {
      assert ClearUpTo(q, r);
    }
    var after := Queue(Mark(q.commands, q.BatchIds()), SendAll(q.server, q.BatchRows()).value);
    WaitsAfter(q, after, r);
    if Ahead(q.commands, r) < BATCH_LIMIT {
      states := [q, after];
    } else {
      CommittedStaysClear(q, after, r);
      var rest := BatchesReach(after, r);
      states := [q] + rest;
      assert forall i :: 0 < i < |states| ==> states[i] == rest[i - 1];
    }
  }

  /** Exactly the rows that can still be dispatched: those with no doomed row in their own batch or an earlier one.
      For any other row, no sequence of turns, requests and moves of the workflows ever marks it. */
  lemma CanBeDispatchedIff(q: Queue, r: nat)
    requires Undispatched(q, r)
    ensures (exists states :: QueueRun(states) && states[0] == q && !Undispatched(states[|states| - 1], r)) <==>
            ClearUpTo(q, r)
  {
    if ClearUpTo(q, r) {
      var states := BatchesReach(q, r);
    } else {
      var b: nat :| Doomed(q, b) && Ahead(q.commands, b) / BATCH_LIMIT <= Ahead(q.commands, r) / BATCH_LIMIT;
      forall states | QueueRun(states) && states[0] == q
        ensures Undispatched(states[|states| - 1], r)
      {
        StuckForGood(states, r, b);
      }
    }
  }

  /** A doomed row in the next batch stops the whole queue: of all executions' rows, old or yet to come, none is ever
      marked again, and no batch ever commits. */
  lemma {:induction false} OneDoomedRowStopsAll(states: seq<Queue>, b: nat)
    requires QueueRun(states) && Doomed(states[0], b) && Ahead(states[0].commands, b) < 50
    ensures var last := states[|states| - 1];
            && Doomed(last, b) && Ahead(last.commands, b) < BATCH_LIMIT
            && SendAll(last.server, last.BatchRows()).None?
            && |last.commands| >= |states[0].commands|
            && forall r :: 0 <= r < |last.commands| && last.commands[r].dispatched ==>
                 r < |states[0].commands| && states[0].commands[r].dispatched
    decreases |states|
  {
    hide Moved, Doomed;
    var n := |states| - 1;
    if n == 0 {
      BatchSendsIff(states[0]);
    } else {
      OneDoomedRowStopsAll(states[..n], b);
      StopsAllStep(states[n - 1], states[n], b);
    }
  }

  lemma StopsAllStep(q: Queue, after: Queue, b: nat)
    requires Doomed(q, b) && Ahead(q.commands, b) < BATCH_LIMIT && Moved(q, after)
    ensures Doomed(after, b) && Ahead(after.commands, b) < BATCH_LIMIT
    ensures SendAll(after.server, after.BatchRows()).None?
    ensures |after.commands| >= |q.commands|
    ensures forall r :: 0 <= r < |after.commands| && after.commands[r].dispatched ==>
              r < |q.commands| && q.commands[r].dispatched
  {
    hide Doomed, SendAll, Pending, Rows;
    DoomedWaits(q, b);
    BatchSendsIff(q);
    MovedStaysStuck(q, after, b, b);
    assert q.commands <= after.commands;
    AheadOfPrefix(q.commands, after.commands, b);
    BatchSendsIff(after);
  }

  lemma {:induction false} DispatchedStays(states: seq<Queue>, r: nat)
    requires QueueRun(states) && r < |states[0].commands| && states[0].commands[r].dispatched
    ensures var last := states[|states| - 1]; r < |last.commands| && last.commands[r].dispatched
    decreases |states|
  {
    hide Moved;
    var n := |states| - 1;
    if n > 0 {
      DispatchedStays(states[..n], r);
      DispatchedStaysStep(states[n - 1], states[n], r);
    }
  }

  lemma DispatchedStaysStep(q: Queue, after: Queue, r: nat)
    requires Moved(q, after) && r < |q.commands| && q.commands[r].dispatched
    ensures r < |after.commands| && after.commands[r].dispatched
  {
    if Committed(q, after) {
      MarkedExactly(q.commands, q.BatchIds());
    }
  }
}
