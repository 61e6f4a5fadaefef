/** The feed from the control plane's outbox over an at-least-once bus into the delivery service's inbox. */
module EventFeed {
  import opened Wrappers
  import opened FiniteSets
  import ControlPlane
  import Executions
  import opened DeliveryTransactions
  import opened Dispatcher

  const ROUTE_LIMIT := 100

  datatype OutboxRow = OutboxRow(organization: int, data: ControlPlane.ReadyEvent, published: bool)

  datatype Message = Message(id: int, organization: int, data: ControlPlane.ReadyEvent)

  predicate Least(s: set<int>, m: int) {
    m in s && forall k :: k in s ==> m <= k
  }

  function Minimum(s: set<int>): (m: int)
    requires |s| > 0
    ensures Least(s, m)
  {
    MinimumExists(s);
    var m :| Least(s, m);
    m
  }

  lemma {:induction false} MinimumExists(s: set<int>)
    requires |s| > 0
    ensures exists m :: Least(s, m)
  {
    var x := SomeMember(s);
    if |s| == 1 {
      assert |s - {x}| == 0;
      assert forall k :: k in s ==> k == x || k in s - {x};
      assert Least(s, x);
    } else {
      MinimumExists(s - {x});
      var m :| Least(s - {x}, m);
      assert forall k :: k in s ==> k == x || k in s - {x};
      assert Least(s, if m < x then m else x);
    }
  }

  /** The routes one batch selects. */
  function Batch(routes: set<int>, limit: nat): (ids: seq<int>)
    ensures |ids| == if |routes| <= limit then |routes| else limit
    ensures forall k :: 0 <= k < |ids| ==> ids[k] in routes
    decreases limit
  {
    if limit == 0 || |routes| == 0 then []
    else
      var first := Minimum(routes);
      [first] + Batch(routes - {first}, limit - 1)
  }

  predicate Smallest(ids: seq<int>, routes: set<int>) {
    && (forall j, k :: 0 <= j < k < |ids| ==> ids[j] < ids[k])
    && (forall e, k :: e in routes && e !in ids && 0 <= k < |ids| ==> ids[k] < e)
  }

  /** They are the smallest ids, in order. */
  lemma {:induction false} BatchIsSmallest(routes: set<int>, limit: nat)
    ensures Smallest(Batch(routes, limit), routes)
    decreases limit
  {
    if limit != 0 && |routes| != 0 {
      var first := Minimum(routes);
      BatchIsSmallest(routes - {first}, limit - 1);
      FirstIsSmallest(routes, first, Batch(routes - {first}, limit - 1));
    }
  }

  lemma FirstIsSmallest(routes: set<int>, first: int, rest: seq<int>)
    requires Least(routes, first) && Smallest(rest, routes - {first})
    requires forall k :: 0 <= k < |rest| ==> rest[k] in routes - {first}
    ensures Smallest([first] + rest, routes)
  {
    var ids := [first] + rest;
    forall e, k | e in routes && e !in ids && 0 <= k < |ids|
      ensures ids[k] < e
    {
      assert ids[0] == first;
      assert e in routes - {first} && e !in rest;
      assert k > 0 ==> ids[k] == rest[k - 1];
    }
  }

  /** The outbox tables, the bus, and the transaction of the one publisher process, if it is inside one. */
  datatype Publisher = Publisher(outbox: map<int, OutboxRow>, routes: set<int>, bus: seq<Message>, batch: seq<int>,
      sent: nat) {

    /** The event and its route are written by one transaction; a taken id violates the primary key. */
    function Emit(id: int, organization: int, data: ControlPlane.ReadyEvent): Publisher {
      if id in outbox then this
      else this.(outbox := outbox[id := OutboxRow(organization, data, false)], routes := routes + {id})
    }

    function Select(): Publisher {
      if batch == [] then this.(batch := Batch(routes, ROUTE_LIMIT), sent := 0) else this
    }

    /** A route without its event is only deleted. */
    function PublishNext(): Publisher {
      if sent >= |batch| then this
      else if batch[sent] !in outbox then this.(sent := sent + 1)
      else
        var row := outbox[batch[sent]];
        this.(bus := bus + [Message(batch[sent], row.organization, row.data)], sent := sent + 1)
    }

    function Commit(): Publisher {
      if sent < |batch| then this
      else this.(
        outbox := (map e | e in outbox :: if e in batch then outbox[e].(published := true) else outbox[e]),
        routes := (set e | e in routes && e !in batch),
        batch := [], sent := 0)
    }

    /** The transaction rolls back; the bus keeps what it has. */
    function Crash(): Publisher {
      this.(batch := [], sent := 0)
    }

    function PublishSome(n: nat): Publisher {
      if n == 0 then this else PublishSome(n - 1).PublishNext()
    }
  }

  function MessagesOf(outbox: map<int, OutboxRow>, ids: seq<int>): seq<Message> {
    if ids == [] then []
    else
      var e := ids[|ids| - 1];
      MessagesOf(outbox, ids[..|ids| - 1]) +
      (if e in outbox then [Message(e, outbox[e].organization, outbox[e].data)] else [])
  }

  lemma {:induction false} PublishSomeSends(p: Publisher, n: nat)
    requires p.sent == 0 && n <= |p.batch|
    ensures p.PublishSome(n) == p.(bus := p.bus + MessagesOf(p.outbox, p.batch[..n]), sent := n)
  {
    if n > 0 {
      PublishSomeSends(p, n - 1);
      assert p.batch[..n][..n - 1] == p.batch[..n - 1];
    }
  }

  lemma NothingPublished(p: Publisher)
    requires p.sent == 0
    ensures p.PublishSome(0) == p.(sent := 0)
  {
  }

  lemma PublishedOneMore(p: Publisher, n: nat)
    ensures p.PublishSome(n + 1) == p.PublishSome(n).PublishNext()
  {
  }

  class OutboxPublisher {
    var outbox: map<int, OutboxRow>
    var routes: set<int>
    var bus: seq<Message>

    function State(): Publisher
      reads this
    {
      Publisher(outbox, routes, bus, [], 0)
    }

    /** `publish_batch`; a publish raises, or the process dies, after `crashAfter` routes. */
    method PublishBatch(crashAfter: Option<nat>) returns (committed: bool, published: nat)
      modifies this
      ensures var selected := old(State()).Select();
              State() == if committed then selected.PublishSome(|selected.batch|).Commit()
                         else if crashAfter.Some? && crashAfter.value < |selected.batch|
                         then selected.PublishSome(crashAfter.value).Crash()
                         else State()
      ensures committed <==> crashAfter.None? || crashAfter.value >= |old(State()).Select().batch|
      ensures |bus| == |old(bus)| + published
      ensures committed ==>
                var ids := Batch(old(routes), ROUTE_LIMIT);
                && (forall e :: e in routes <==> e in old(routes) && e !in ids)
                && (forall e :: e in outbox <==> e in old(outbox))
                && (forall e :: e in outbox ==>
                      outbox[e] == if e in ids then old(outbox)[e].(published := true) else old(outbox)[e])
    {
      hide Batch, Publisher.PublishSome;
      ghost var selected := State().Select();
      NothingPublished(selected);
      var batch := Batch(routes, ROUTE_LIMIT);
      var events, remaining := outbox, routes;
      published := 0;
      for i := 0 to |batch|
        invariant outbox == old(outbox) && routes == old(routes) && events.Keys == outbox.Keys
        invariant selected.PublishSome(i) == selected.(bus := bus, sent := i)
        invariant forall e :: e in events ==>
                    events[e] == if e in batch[..i] then outbox[e].(published := true) else outbox[e]
        invariant remaining == set e | e in routes && e !in batch[..i]
        invariant |bus| == |old(bus)| + published
        invariant crashAfter.Some? ==> crashAfter.value >= i
      {
        if crashAfter == Some(i) {
          return false, published;
        }
        var id := batch[i];
        assert batch[..i + 1] == batch[..i] + [id];
        PublishedOneMore(selected, i);
        if id !in events {
          remaining := remaining - {id};
          continue;
        }
        bus := bus + [Message(id, events[id].organization, events[id].data)];
        events := events[id := events[id].(published := true)];
        remaining := remaining - {id};
        published := published + 1;
      }
      assert batch[..|batch|] == batch;
      ghost var done := selected.PublishSome(|batch|).Commit();
      assert forall e :: e in events ==> events[e] == done.outbox[e];
      outbox, routes := events, remaining;
      return true, published;
    }
  }

  /** A row of `executions` together with what the event said about it. */
  datatype ExecutionRecord = ExecutionRecord(
    organization: int, workItem: int, project: int, title: string, description: string, criteria: seq<string>,
    repository: int, provider: int, row: Executions.Row)

  function BudgetOf(budget: ControlPlane.Budget): Executions.Budget {
    Executions.Budget(budget.maxDurationSeconds, budget.maxAttempts, budget.maxTurns, budget.maxCostMinor)
  }

  function RecordOf(organization: int, data: ControlPlane.ReadyEvent): ExecutionRecord {
    ExecutionRecord(
      organization, data.workItem, data.project, data.title, data.description, data.criteria,
      data.target.repository, data.target.provider,
      Executions.NewRow(data.target.pool, BudgetOf(data.budget)))
  }

  predicate HasKey(record: ExecutionRecord, organization: int, workItem: int) {
    record.organization == organization && record.workItem == workItem
  }

  predicate Accepted(executions: map<int, ExecutionRecord>, organization: int, workItem: int) {
    exists x :: x in executions && HasKey(executions[x], organization, workItem)
  }

  /** The bounds that the API's request model sets; anything else is refused before the service sees it. */
  predicate Admissible(data: ControlPlane.ReadyEvent) {
    && 30 <= data.budget.maxDurationSeconds <= 86400
    && 1 <= data.budget.maxAttempts <= 10
    && 1 <= data.budget.maxTurns <= 100
    && 0 <= data.budget.maxCostMinor <= 10000000
    && |data.budget.currency| == 3
    && (forall k :: 0 <= k < 3 ==> 'A' <= data.budget.currency[k] <= 'Z')
    && 1 <= |data.title| <= 300 && 1 <= |data.description| <= 10000 && 1 <= |data.criteria| <= 100
  }

  /** The delivery service's tables that the feed touches. */
  datatype Intake = Intake(
    providers: set<(int, int)>, inbox: set<int>, executions: map<int, ExecutionRecord>, commands: seq<CommandRow>)
  {
    /** None where it raises. */
    function Accept(organization: int, data: ControlPlane.ReadyEvent, id: int): Option<Intake> {
      if Accepted(executions, organization, data.workItem) then Some(this)
      else if (organization, data.target.provider) !in providers || id in executions then None
      else Some(this.(
        executions := executions[id := RecordOf(organization, data)],
        commands := commands + [CommandRow(id, StartCommand, false)]))
    }

    /** The inbox row and its effect are one transaction; what raises leaves neither. */
    function Process(m: Message, id: int): Option<Intake> {
      if m.id in inbox then Some(this) else this.(inbox := inbox + {m.id}).Accept(m.organization, m.data, id)
    }

    /** A member asks for an execution directly; no inbox row is involved. */
    function Request(organization: int, data: ControlPlane.ReadyEvent, id: int): Option<Intake> {
      if Admissible(data) then Accept(organization, data, id) else None
    }
  }

  class AcceptanceService {
    var providers: set<(int, int)>
    var inbox: set<int>
    var executions: map<int, ExecutionRecord>
    var commands: seq<CommandRow>

    function Tables(): Intake
      reads this
    {
      Intake(providers, inbox, executions, commands)
    }

    method AddExecution(id: int, record: ExecutionRecord) returns (added: bool)
      requires id !in executions
      modifies this`executions
      ensures added <==> forall x :: x in old(executions) ==>
                           old(executions)[x].organization != record.organization
                           || old(executions)[x].workItem != record.workItem
      ensures executions == if added then old(executions)[id := record] else old(executions)
    {
      if Accepted(executions, record.organization, record.workItem) {
        return false;
      }
      executions := executions[id := record];
      return true;
    }

    /** `accept_ready_work_item`; the new execution's id is the caller's. */
    method AcceptReadyWorkItem(organization: int, data: ControlPlane.ReadyEvent, id: int) returns (ok: bool)
      modifies this`executions, this`commands
      ensures ok ==> id in executions && id !in old(executions) ==>
                var e := executions[id];
                && e.organization == organization && e.workItem == data.workItem && e.project == data.project
                && e.title == data.title && e.description == data.description && e.criteria == data.criteria
                && e.repository == data.target.repository && e.provider == data.target.provider
                && e.row.runnerPool == data.target.pool
                && e.row.budget.maxDurationSeconds == data.budget.maxDurationSeconds
                && e.row.budget.maxAttempts == data.budget.maxAttempts
                && e.row.budget.maxTurns == data.budget.maxTurns
                && e.row.budget.maxCostMinor == data.budget.maxCostMinor
      ensures ok <==> old(Tables()).Accept(organization, data, id).Some?
      ensures Tables() == old(Tables()).Accept(organization, data, id).GetOr(old(Tables()))
    {
      if Accepted(executions, organization, data.workItem) {
        return true;
      }
      if (organization, data.target.provider) !in providers || id in executions {
        return false;
      }
      var added := AddExecution(id, RecordOf(organization, data));
      if added {
        commands := commands + [CommandRow(id, StartCommand, false)];
      }
      return true;
    }

    /** `process_event`; the message is acknowledged only after it returns true. */
    method ProcessEvent(m: Message, id: int) returns (ok: bool)
      modifies this
      ensures ok <==> old(Tables()).Process(m, id).Some?
      ensures Tables() == old(Tables()).Process(m, id).GetOr(old(Tables()))
    {
      var before := inbox;
      if m.id in inbox {
        return true;
      }
      inbox := inbox + {m.id};
      ok := AcceptReadyWorkItem(m.organization, m.data, id);
      if !ok {
        inbox := before;
      }
    }

    /** The API's own way in. */
    method RequestExecution(organization: int, data: ControlPlane.ReadyEvent, id: int) returns (ok: bool)
      modifies this
      ensures ok <==>
                && 30 <= data.budget.maxDurationSeconds <= 86400 && 1 <= data.budget.maxAttempts <= 10
                && 1 <= data.budget.maxTurns <= 100 && 0 <= data.budget.maxCostMinor <= 10000000
                && |data.budget.currency| == 3 && (forall k :: 0 <= k < 3 ==> 'A' <= data.budget.currency[k] <= 'Z')
                && 1 <= |data.title| <= 300 && 1 <= |data.description| <= 10000 && 1 <= |data.criteria| <= 100
                && (Accepted(old(executions), organization, data.workItem)
                    || ((organization, data.target.provider) in providers && id !in old(executions)))
      ensures ok <==> old(Tables()).Request(organization, data, id).Some?
      ensures Tables() == old(Tables()).Request(organization, data, id).GetOr(old(Tables()))
    {
      if !Admissible(data) {
        return false;
      }
      ok := AcceptReadyWorkItem(organization, data, id);
    }
  }
}
