/** What the feed guarantees end to end: nothing lost, one execution and one START per work item, the intake's own
    words wherever the event came first, and an outcome that does not depend on the order of delivery. */
module EventFeedExactlyOnce {
  import opened Wrappers
  import opened FiniteSets
  import ControlPlane
  import Provenance = ControlPlaneProvenance
  import Executions
  import opened DeliveryTransactions
  import opened Dispatcher
  import opened EventFeed
  import opened EventFeedSafety
  import DeliveryProtocol
  import DeliverySafety

  function ExecutionsOf(executions: map<int, ExecutionRecord>, organization: int, workItem: int): set<int> {
    set x | x in executions && executions[x].organization == organization && executions[x].workItem == workItem
  }

  /** An event of the work item has its inbox row. */
  ghost predicate Processed(f: Feed, organization: int, workItem: int) {
    exists e :: e in f.intake.inbox && IsEventOf(f.publisher.outbox, e, organization, workItem)
  }

  /** Somebody asked for the work item's execution before any event of it was processed. */
  ghost predicate Requested(f: Feed, organization: int, workItem: int) {
    exists x :: x in f.intake.executions && HasKey(f.intake.executions[x], organization, workItem)
                && x in f.origins && f.origins[x].FromRequest?
  }

  /** A work item has one execution with one START once its event is processed or its execution asked for, and none
      before; redelivery, reordering, crashes and repeated requests make no difference. */
  lemma ExactlyOnce(steps: seq<Step>, organization: int, workItem: int)
    ensures var f := Exec(NEW_FEED, steps);
            var mine := ExecutionsOf(f.intake.executions, organization, workItem);
            && |mine| == (if Processed(f, organization, workItem) || Requested(f, organization, workItem) then 1 else 0)
            && forall x :: x in mine ==> CommandsOf(f.intake.commands, x) == [StartCommand]
  {
    hide Exec, CommandsOf, RecordOf, Admissible;
    ExecInv(steps);
    var f := Exec(NEW_FEED, steps);
    var executions := f.intake.executions;
    var mine := ExecutionsOf(executions, organization, workItem);
    if |mine| > 0 {
      var x := SomeMember(mine);
      forall y | y in mine
        ensures y == x
      {
        assert SameKey(executions[y], executions[x]);
      }
      Singleton(mine, x);
      KnownKey(f, organization, workItem, x);
    } else {
      NoMember(mine);
      forall x | x in executions
        ensures !HasKey(executions[x], organization, workItem)
      {
        assert x !in mine;
      }
      UnknownKey(f, organization, workItem);
    }
  }

  lemma KnownKey(f: Feed, organization: int, workItem: int, x: int)
    requires Inv(f) && x in f.intake.executions && HasKey(f.intake.executions[x], organization, workItem)
    ensures Processed(f, organization, workItem) || Requested(f, organization, workItem)
  {
    hide RecordOf, Admissible;
    assert OriginOk(f.publisher.outbox, f.intake.inbox, f.origins[x], f.intake.executions[x]);
    if f.origins[x].FromEvent? {
      assert IsEventOf(f.publisher.outbox, f.origins[x].event, organization, workItem);
    }
  }

  lemma UnknownKey(f: Feed, organization: int, workItem: int)
    requires Inv(f) && !Accepted(f.intake.executions, organization, workItem)
    ensures !Processed(f, organization, workItem) && !Requested(f, organization, workItem)
  {
  }

  /** The work item of `m` already has an execution that says something else. */
  predicate TakenByAnother(f: Feed, m: Message) {
    exists x :: x in f.intake.executions && HasKey(f.intake.executions[x], m.organization, m.data.workItem)
                && f.intake.executions[x] != RecordOf(m.organization, m.data)
  }

  lemma StepKeepsExecutions(f: Feed, step: Step)
    ensures forall x :: x in f.intake.executions ==>
              x in Apply(f, step).intake.executions && Apply(f, step).intake.executions[x] == f.intake.executions[x]
  {
  }

  lemma {:induction false} ExecutionsStay(f: Feed, steps: seq<Step>)
    requires Inv(f)
    ensures Inv(Exec(f, steps))
    ensures forall x :: x in f.intake.executions ==>
              x in Exec(f, steps).intake.executions && Exec(f, steps).intake.executions[x] == f.intake.executions[x]
  {
    hide Inv, Apply;
    if steps != [] {
      ExecutionsStay(f, steps[..|steps| - 1]);
      StepInv(Exec(f, steps[..|steps| - 1]), steps[|steps| - 1]);
      StepKeepsExecutions(Exec(f, steps[..|steps| - 1]), steps[|steps| - 1]);
    }
  }

  /** When an event is processed for the first time, its work item's execution says what the event says, then and
      ever after, if and only if no execution that says something else was there before. */
  lemma EventWinsIffFirst(f: Feed, k: nat, id: int, rest: seq<Step>)
    requires Inv(f) && k < |f.publisher.bus| && f.publisher.bus[k].id !in f.intake.inbox
    requires f.publisher.bus[k].id in Apply(f, Deliver(k, id)).intake.inbox
    ensures var m, g := f.publisher.bus[k], Exec(Apply(f, Deliver(k, id)), rest);
            && Accepted(g.intake.executions, m.organization, m.data.workItem)
            && (HasRecord(g.intake.executions, RecordOf(m.organization, m.data)) <==> !TakenByAnother(f, m))
  {
    hide Inv, RecordOf, Exec, CommandsOf;
    var m, next := f.publisher.bus[k], Apply(f, Deliver(k, id));
    StepInv(f, Deliver(k, id));
    ExecutionsStay(next, rest);
    var x := ExecutionAfterDelivery(f, k, id);
    OneRecordPerKey(Exec(next, rest), x, m);
  }

  /** The execution that answers to a processed event. */
  lemma ExecutionAfterDelivery(f: Feed, k: nat, id: int) returns (x: int)
    requires k < |f.publisher.bus| && f.publisher.bus[k].id !in f.intake.inbox && Inv(f)
    requires f.publisher.bus[k].id in Apply(f, Deliver(k, id)).intake.inbox
    ensures var m, executions := f.publisher.bus[k], Apply(f, Deliver(k, id)).intake.executions;
            && x in executions && HasKey(executions[x], m.organization, m.data.workItem)
            && (executions[x] != RecordOf(m.organization, m.data) <==> TakenByAnother(f, m))
  {
    hide Inv;
    var m := f.publisher.bus[k];
    if Accepted(f.intake.executions, m.organization, m.data.workItem) {
      x :| x in f.intake.executions && HasKey(f.intake.executions[x], m.organization, m.data.workItem);
      OneRecordPerKey(f, x, m);
    } else {
      x := id;
    }
  }

  lemma OneRecordPerKey(f: Feed, x: int, m: Message)
    requires Inv(f) && x in f.intake.executions && HasKey(f.intake.executions[x], m.organization, m.data.workItem)
    ensures HasRecord(f.intake.executions, RecordOf(m.organization, m.data)) <==>
              f.intake.executions[x] == RecordOf(m.organization, m.data)
    ensures TakenByAnother(f, m) <==> f.intake.executions[x] != RecordOf(m.organization, m.data)
    ensures Accepted(f.intake.executions, m.organization, m.data.workItem)
  {
    forall y | y in f.intake.executions && HasKey(f.intake.executions[y], m.organization, m.data.workItem)
      ensures y == x
    {
      assert SameKey(f.intake.executions[y], f.intake.executions[x]);
    }
  }

  /** An execution accepted from an event says what a requester wrote in an intake, under the title of the
      specification version that a reviewer approved, and starts out awaiting approval with the budget the requester
      readied the work item with. */
  lemma ExecutionComesFromIntake(steps: seq<Step>, x: int)
    returns (e: int, item: ControlPlane.WorkItemRow, version: ControlPlane.VersionRow,
             specification: ControlPlane.SpecificationRow, intake: ControlPlane.IntakeRow)
    requires var f := Exec(NEW_FEED, steps);
             x in f.intake.executions && x in f.origins && f.origins[x].FromEvent?
    ensures var f := Exec(NEW_FEED, steps);
            var record := f.intake.executions[x];
            && e in f.publisher.outbox && record == Record(f.publisher.outbox, e)
            && Provenance.Faithful(
                 f.StoreOf(record.organization), f.publisher.outbox[e].data, item, version, specification, intake)
            && record.title == version.title && record.description == intake.problem
            && record.criteria == intake.functionality && record.project == intake.project
            && record.workItem in f.StoreOf(record.organization).workItems
            && item == f.StoreOf(record.organization).workItems[record.workItem]
            && item.budget.Some? && item.target.Some?
            && record.repository == item.target.value.repository && record.provider == item.target.value.provider
            && record.row.runnerPool == item.target.value.pool
            && record.row.budget.maxDurationSeconds == item.budget.value.maxDurationSeconds >= 1
            && record.row.budget.maxAttempts == item.budget.value.maxAttempts >= 1
            && record.row.budget.maxTurns == item.budget.value.maxTurns >= 1
            && record.row.budget.maxCostMinor == item.budget.value.maxCostMinor >= 0
            && record.row == Executions.NewRow(record.row.runnerPool, record.row.budget)
  {
    hide Exec, Admissible, CommandsOf, SameKey;
    ExecInv(steps);
    var f := Exec(NEW_FEED, steps);
    var record := f.intake.executions[x];
    assert OriginOk(f.publisher.outbox, f.intake.inbox, f.origins[x], record);
    e := f.origins[x].event;
    assert FromStore(f, e);
    var s := f.StoreOf(record.organization);
    assert Provenance.EventOk(s, e);
    item, version, specification, intake := Provenance.TraceEvent(s, e);
  }

  /** Any other execution says, within the API's bounds, what a member of the organization asked for. */
  lemma ExecutionComesFromRequest(steps: seq<Step>, x: int)
    requires var f := Exec(NEW_FEED, steps);
             x in f.intake.executions && (x in f.origins ==> !f.origins[x].FromEvent?)
    ensures var f := Exec(NEW_FEED, steps);
            var record := f.intake.executions[x];
            && x in f.origins && f.origins[x].FromRequest? && Admissible(f.origins[x].data)
            && var data := f.origins[x].data;
               && record.workItem == data.workItem && record.project == data.project
               && record.title == data.title && record.description == data.description
               && record.criteria == data.criteria
               && record.repository == data.target.repository && record.provider == data.target.provider
               && record.row.runnerPool == data.target.pool
               && record.row.budget.maxDurationSeconds == data.budget.maxDurationSeconds >= 30
               && record.row.budget.maxAttempts == data.budget.maxAttempts >= 1
               && record.row.budget.maxTurns == data.budget.maxTurns >= 1
               && record.row.budget.maxCostMinor == data.budget.maxCostMinor >= 0
               && record.row == Executions.NewRow(record.row.runnerPool, record.row.budget)
  {
    hide Exec, CommandsOf, SameKey;
    ExecInv(steps);
    var f := Exec(NEW_FEED, steps);
    assert OriginOk(f.publisher.outbox, f.intake.inbox, f.origins[x], f.intake.executions[x]);
  }

  /** An accepted execution is an initial state of the delivery protocol: its row, its one command and a budget that
      the protocol's theorems ask for. */
  lemma AcceptedStartsADelivery(steps: seq<Step>, x: int, now: int)
    requires x in Exec(NEW_FEED, steps).intake.executions
    ensures var f := Exec(NEW_FEED, steps);
            var row := f.intake.executions[x].row;
            var s := DeliveryProtocol.Initial(row.runnerPool, row.budget, now);
            && s.db.execution == row && s.db.commands == CommandsOf(f.intake.commands, x)
            && row.status == Executions.AwaitingApproval && row.usage == Executions.NO_USAGE
            && row.budget.Valid() && DeliverySafety.Reachable(s)
  {
    hide Exec, CommandsOf, Admissible;
    ExecInv(steps);
    var f := Exec(NEW_FEED, steps);
    if x in f.origins && f.origins[x].FromEvent? {
      var _, _, _, _, _ := ExecutionComesFromIntake(steps, x);
    } else {
      ExecutionComesFromRequest(steps, x);
    }
    var row := f.intake.executions[x].row;
    var s := DeliveryProtocol.Initial(row.runnerPool, row.budget, now);
    assert s == DeliveryProtocol.Exec(s, []);
  }

  predicate IsEventOf(outbox: map<int, OutboxRow>, e: int, organization: int, workItem: int) {
    e in outbox && HasKey(Record(outbox, e), organization, workItem)
  }

  lemma ReadyHasEvent(f: Feed, o: int, workItem: int) returns (e: int)
    requires StoresInv(f) && workItem in f.StoreOf(o).workItems
    requires f.StoreOf(o).workItems[workItem].status == ControlPlane.Ready
    ensures IsEventOf(f.publisher.outbox, e, o, workItem)
  {
    hide Provenance.Upstream;
    var s := f.StoreOf(o);
    assert Provenance.Inv(s);
    assert Provenance.Announced(s.outbox, workItem);
    e :| e in s.outbox && s.outbox[e].workItem == workItem;
    assert FromStore(f, e);
  }

  /** A READY work item has one event, which waits for the publisher or is on the bus. */
  lemma NothingLost(steps: seq<Step>, o: int, workItem: int) returns (e: int)
    requires workItem in Exec(NEW_FEED, steps).StoreOf(o).workItems
    requires Exec(NEW_FEED, steps).StoreOf(o).workItems[workItem].status == ControlPlane.Ready
    ensures var p := Exec(NEW_FEED, steps).publisher;
            && (forall i :: IsEventOf(p.outbox, i, o, workItem) <==> i == e)
            && e in p.outbox && (e in p.routes <==> !p.outbox[e].published)
            && (e in p.routes || OnBus(p.bus, e))
  {
    hide Exec, OnBus, StoresInv, IntakeInv;
    ExecInv(steps);
    var f := Exec(NEW_FEED, steps);
    KeysAreSingle(f);
    e := ReadyHasEvent(f, o, workItem);
    assert IsEventOf(f.publisher.outbox, e, o, workItem);
    forall i | IsEventOf(f.publisher.outbox, i, o, workItem)
      ensures i == e
    {
      assert SameKey(Record(f.publisher.outbox, i), Record(f.publisher.outbox, e));
    }
  }

  /** One committed `publish_batch`. */
  function Published(p: Publisher): Publisher {
    var selected := p.Select();
    selected.PublishSome(|selected.batch|).Commit()
  }

  function PublishedTimes(p: Publisher, n: nat): Publisher {
    if n == 0 then p else Published(PublishedTimes(p, n - 1))
  }

  lemma {:induction false} RemainingRoutes(routes: set<int>, ids: seq<int>)
    requires forall j, k :: 0 <= j < k < |ids| ==> ids[j] < ids[k]
    requires forall k :: 0 <= k < |ids| ==> ids[k] in routes
    ensures |set e | e in routes && e !in ids| == |routes| - |ids|
  {
    if ids == [] {
      assert (set e | e in routes && e !in ids) == routes;
    } else {
      var before, last := ids[..|ids| - 1], ids[|ids| - 1];
      RemainingRoutes(routes, before);
      var kept := set e | e in routes && e !in before;
      assert ids == before + [last];
      assert last in kept;
      Without(kept, last, set e | e in routes && e !in ids);
    }
  }

  lemma {:induction false} PublishSomeInv(p: Publisher, n: nat)
    requires PublisherInv(p)
    ensures PublisherInv(p.PublishSome(n))
  {
    if n > 0 {
      PublishSomeInv(p, n - 1);
      PublishNextInv(p.PublishSome(n - 1));
    }
  }

  /** A batch settles as many routes as it may. */
  lemma BatchShrinks(p: Publisher)
    requires PublisherInv(p) && p.batch == []
    ensures PublisherInv(Published(p)) && Published(p).batch == []
    ensures Published(p).outbox.Keys == p.outbox.Keys
    ensures |Published(p).routes| == if |p.routes| <= ROUTE_LIMIT then 0 else |p.routes| - ROUTE_LIMIT
  {
    hide PublisherInv, Batch, MessagesOf;
    var selected := p.Select();
    var n := |selected.batch|;
    SelectInv(p);
    PublishSomeInv(selected, n);
    CommitInv(selected.PublishSome(n));
    PublishSomeSends(selected, n);
    BatchIsSmallest(p.routes, ROUTE_LIMIT);
    RemainingRoutes(p.routes, selected.batch);
  }

  /** With no new events, one committed batch per hundred routes puts every event on the bus. */
  lemma {:induction false} BatchesDrainTheOutbox(p: Publisher, n: nat)
    requires PublisherInv(p) && p.batch == []
    ensures var after := PublishedTimes(p, n);
            && PublisherInv(after) && after.batch == [] && after.outbox.Keys == p.outbox.Keys
            && |after.routes| == (if |p.routes| <= 100 * n then 0 else |p.routes| - 100 * n)
            && (|p.routes| <= 100 * n ==> forall e :: e in p.outbox ==>
                 after.outbox[e].published && OnBus(after.bus, e))
  {
    hide Published, OnBus;
    var after := PublishedTimes(p, n);
    if n > 0 {
      BatchesDrainTheOutbox(p, n - 1);
      BatchShrinks(PublishedTimes(p, n - 1));
    }
    if |after.routes| == 0 {
      NoMember(after.routes);
    }
  }

  datatype Delivery = Delivery(k: nat, id: int)

  /** Messages of the bus handed to the consumer one after the other, in any order and any number of times. */
  function DeliverAll(f: Feed, ds: seq<Delivery>): Feed {
    if ds == [] then f
    else Apply(DeliverAll(f, ds[..|ds| - 1]), Deliver(ds[|ds| - 1].k, ds[|ds| - 1].id))
  }

  /** The ids that `uuid4` would draw are new. */
  predicate FreshIds(f: Feed, ds: seq<Delivery>) {
    && (forall i :: 0 <= i < |ds| ==> ds[i].id !in f.intake.executions)
    && (forall i, j :: 0 <= i < j < |ds| ==> ds[i].id != ds[j].id)
  }

  /** The work item of the event has an execution. */
  predicate Known(f: Feed, e: int) {
    && e in f.publisher.outbox
    && Accepted(f.intake.executions, f.publisher.outbox[e].organization, f.publisher.outbox[e].data.workItem)
  }

  /** An event can be processed where its work item has an execution or its provider configuration exists. */
  predicate Processable(f: Feed, e: int) {
    && e in f.publisher.outbox
    && (Known(f, e)
        || (f.publisher.outbox[e].organization, f.publisher.outbox[e].data.target.provider) in f.intake.providers)
  }

  /** `e` is delivered and can be processed. */
  predicate Delivers(f: Feed, ds: seq<Delivery>, e: int) {
    Processable(f, e) && exists i :: 0 <= i < |ds| && ds[i].k < |f.publisher.bus| && f.publisher.bus[ds[i].k].id == e
  }

  lemma DeliversLast(f: Feed, ds: seq<Delivery>, d: Delivery, e: int)
    ensures Delivers(f, ds + [d], e) <==>
              Delivers(f, ds, e) || (Processable(f, e) && d.k < |f.publisher.bus| && f.publisher.bus[d.k].id == e)
  {
    hide Processable;
    var all := ds + [d];
    assert forall i :: 0 <= i < |ds| ==> all[i] == ds[i];
    assert all[|ds|] == d;
    if Delivers(f, ds, e) {
      var i :| 0 <= i < |ds| && ds[i].k < |f.publisher.bus| && f.publisher.bus[ds[i].k].id == e;
      assert all[i].k < |f.publisher.bus|;
    }
  }

  /** A delivered event without an execution before gives one that says what it says. */
  ghost predicate Added(f: Feed, ds: seq<Delivery>, record: ExecutionRecord) {
    exists e :: e in f.publisher.outbox && Delivers(f, ds, e) && !Known(f, e) && record == Record(f.publisher.outbox, e)
  }

  /** The inbox gains exactly the delivered events that can be processed, and the executions exactly their records. */
  ghost predicate Settled(f: Feed, ds: seq<Delivery>, after: Feed) {
    && after.publisher == f.publisher && after.stores == f.stores && after.intake.providers == f.intake.providers
    && (forall e :: e in after.intake.inbox <==> e in f.intake.inbox || Delivers(f, ds, e))
    && (forall record :: HasRecord(after.intake.executions, record) <==>
          HasRecord(f.intake.executions, record) || Added(f, ds, record))
    && (forall x :: x in after.intake.executions ==> x in f.intake.executions || Drawn(ds, x))
  }

  predicate Drawn(ds: seq<Delivery>, x: int) {
    exists i :: 0 <= i < |ds| && ds[i].id == x
  }

  lemma AddedLast(f: Feed, ds: seq<Delivery>, d: Delivery, record: ExecutionRecord)
    ensures Added(f, ds + [d], record) <==>
              || Added(f, ds, record)
              || (&& d.k < |f.publisher.bus| && Processable(f, f.publisher.bus[d.k].id)
                  && !Known(f, f.publisher.bus[d.k].id)
                  && record == Record(f.publisher.outbox, f.publisher.bus[d.k].id))
  {
    hide Delivers, Known, Record, Processable;
    forall e
      ensures Delivers(f, ds + [d], e) <==>
                Delivers(f, ds, e) || (Processable(f, e) && d.k < |f.publisher.bus| && f.publisher.bus[d.k].id == e)
    {
      DeliversLast(f, ds, d, e);
    }
    if Added(f, ds + [d], record) {
      var e :| e in f.publisher.outbox && Delivers(f, ds + [d], e) && !Known(f, e)
          && record == Record(f.publisher.outbox, e);
    }
    if d.k < |f.publisher.bus| && Processable(f, f.publisher.bus[d.k].id) {
      ProcessableIsEvent(f, f.publisher.bus[d.k].id);
    }
  }

  lemma ProcessableIsEvent(f: Feed, e: int)
    requires Processable(f, e)
    ensures e in f.publisher.outbox
  {
  }

  /** Deliveries so far change nothing about whether a work item without an inbox row has an execution. */
  lemma KnownStays(f: Feed, ds: seq<Delivery>, before: Feed, e: int)
    requires Inv(f) && Inv(before) && Settled(f, ds, before)
    requires e in f.publisher.outbox && e !in before.intake.inbox
    ensures Known(before, e) <==> Known(f, e)
  {
    hide IntakeInv, StoresInv, PublisherInv, Processable;
    var record := Record(f.publisher.outbox, e);
    KeysAreSingle(f);
    if Known(f, e) {
      var x :| x in f.intake.executions && HasKey(f.intake.executions[x], record.organization, record.workItem);
      assert HasRecord(f.intake.executions, f.intake.executions[x]);
      assert HasRecord(before.intake.executions, f.intake.executions[x]);
    }
    if Known(before, e) {
      var x :| x in before.intake.executions
          && HasKey(before.intake.executions[x], record.organization, record.workItem);
      assert HasRecord(before.intake.executions, before.intake.executions[x]);
      if Added(f, ds, before.intake.executions[x]) {
        AddedIsDelivered(f, ds, before.intake.executions[x], e);
      }
    }
  }

  lemma AddedIsDelivered(f: Feed, ds: seq<Delivery>, record: ExecutionRecord, e: int)
    requires OneEventPerKey(f.publisher.outbox) && e in f.publisher.outbox
    requires Added(f, ds, record) && SameKey(record, Record(f.publisher.outbox, e))
    ensures Delivers(f, ds, e)
  {
    hide Delivers, Known;
    var i :| i in f.publisher.outbox && Delivers(f, ds, i) && record == Record(f.publisher.outbox, i);
    assert SameKey(Record(f.publisher.outbox, i), Record(f.publisher.outbox, e));
  }

  /** What one more message does to tables that have not seen it. */
  lemma NewMessage(f: Feed, before: Feed, d: Delivery)
    requires Inv(f) && Inv(before) && before.publisher == f.publisher && before.intake.providers == f.intake.providers
    requires d.k < |f.publisher.bus| && f.publisher.bus[d.k].id !in before.intake.inbox
    requires d.id !in before.intake.executions
    requires Known(before, f.publisher.bus[d.k].id) <==> Known(f, f.publisher.bus[d.k].id)
    ensures var e, after := f.publisher.bus[d.k].id, Apply(before, Deliver(d.k, d.id));
            && e in f.publisher.outbox
            && after.publisher == f.publisher && after.stores == before.stores
            && after.intake.providers == f.intake.providers
            && after.intake.inbox == before.intake.inbox + (if Processable(f, e) then {e} else {})
            && after.intake.executions ==
                 if Processable(f, e) && !Known(f, e)
                 then before.intake.executions[d.id := Record(f.publisher.outbox, e)]
                 else before.intake.executions
  {
    hide IntakeInv, StoresInv, PublisherInv, Accepted, RecordOf;
    MessageOnBus(before.publisher, d.k);
    MessageRecord(f.publisher.outbox, f.publisher.bus[d.k]);
  }

  lemma OneDelivery(f: Feed, ds: seq<Delivery>, d: Delivery, before: Feed)
    requires Inv(f) && Inv(before) && Settled(f, ds, before) && FreshIds(f, ds + [d])
    ensures Settled(f, ds + [d], Apply(before, Deliver(d.k, d.id)))
  {
    hide Inv, Delivers, Added, Drawn, Apply, Record, Known, Processable, FreshIds;
    var all, after := ds + [d], Apply(before, Deliver(d.k, d.id));
    NextIsNew(f, ds, d, before);
    if d.k < |f.publisher.bus| {
      MessageOnBusOf(f, d.k);
    }
    forall e
      ensures Delivers(f, all, e) <==>
                Delivers(f, ds, e) || (Processable(f, e) && d.k < |f.publisher.bus| && f.publisher.bus[d.k].id == e)
    {
      DeliversLast(f, ds, d, e);
    }
    forall record
      ensures Added(f, all, record) <==>
                || Added(f, ds, record)
                || (&& d.k < |f.publisher.bus| && Processable(f, f.publisher.bus[d.k].id)
                    && !Known(f, f.publisher.bus[d.k].id)
                    && record == Record(f.publisher.outbox, f.publisher.bus[d.k].id))
    {
      AddedLast(f, ds, d, record);
    }
    if d.k < |f.publisher.bus| && f.publisher.bus[d.k].id !in before.intake.inbox {
      var e := f.publisher.bus[d.k].id;
      KnownStays(f, ds, before, e);
      NewMessage(f, before, d);
      forall record
        ensures HasRecord(after.intake.executions, record) <==>
                  || HasRecord(before.intake.executions, record)
                  || (Processable(f, e) && !Known(f, e) && record == Record(f.publisher.outbox, e))
      {
        RecordsAfter(before.intake.executions, d.id, Record(f.publisher.outbox, e), record);
      }
    } else {
      NothingToDeliver(before, d);
      if d.k < |f.publisher.bus| {
        SeenBefore(f, before, f.publisher.bus[d.k].id, ds);
      }
    }
  }

  lemma MessageOnBusOf(f: Feed, k: nat)
    requires Inv(f) && k < |f.publisher.bus|
    ensures f.publisher.bus[k].id in f.publisher.outbox
  {
    hide IntakeInv, StoresInv;
    MessageOnBus(f.publisher, k);
  }

  lemma NothingToDeliver(before: Feed, d: Delivery)
    requires d.k >= |before.publisher.bus| || before.publisher.bus[d.k].id in before.intake.inbox
    ensures Apply(before, Deliver(d.k, d.id)) == before
  {
  }

  /** A processed event either was processed at the start, and then has its execution, or was delivered since. */
  lemma SeenBefore(f: Feed, before: Feed, e: int, ds: seq<Delivery>)
    requires Inv(f) && Settled(f, ds, before) && e in before.intake.inbox && e in f.publisher.outbox
    ensures Known(f, e) || Added(f, ds, Record(f.publisher.outbox, e))
  {
    hide StoresInv, PublisherInv, Record;
  }

  lemma RecordsAfter(executions: map<int, ExecutionRecord>, id: int, new_: ExecutionRecord, record: ExecutionRecord)
    requires id !in executions
    ensures HasRecord(executions[id := new_], record) <==> HasRecord(executions, record) || record == new_
  {
    if HasRecord(executions, record) {
      var x :| x in executions && executions[x] == record;
      assert executions[id := new_][x] == record;
    }
    assert executions[id := new_][id] == new_;
  }

  lemma NextIsNew(f: Feed, ds: seq<Delivery>, d: Delivery, before: Feed)
    requires Settled(f, ds, before) && FreshIds(f, ds + [d])
    ensures d.id !in before.intake.executions
    ensures forall x :: Drawn(ds + [d], x) <==> Drawn(ds, x) || x == d.id
  {
    var all := ds + [d];
    assert all[|ds|] == d;
    assert forall i :: 0 <= i < |ds| ==> all[i] == ds[i];
    forall x
      ensures Drawn(all, x) <==> Drawn(ds, x) || x == d.id
    {
      if Drawn(ds, x) {
        var i :| 0 <= i < |ds| && ds[i].id == x;
        assert all[i].id == x;
      }
    }
  }

  /** Whatever the order and the repetitions, the inbox gains exactly the delivered events that can be processed, and
      the executions exactly the records of those whose work item had none. */
  lemma {:induction false} DeliveriesSettle(f: Feed, ds: seq<Delivery>)
    requires Inv(f) && FreshIds(f, ds)
    ensures Inv(DeliverAll(f, ds)) && Settled(f, ds, DeliverAll(f, ds))
  {
    hide Inv, Apply, Settled;
    if ds == [] {
      NothingDelivered(f);
    } else {
      var before, d := ds[..|ds| - 1], ds[|ds| - 1];
      assert ds == before + [d];
      DeliveriesSettle(f, before);
      OneDelivery(f, before, d, DeliverAll(f, before));
      StepInv(DeliverAll(f, before), Deliver(d.k, d.id));
    }
  }

  lemma NothingDelivered(f: Feed)
    ensures Settled(f, [], f)
  {
  }

  /** From any reachable state, two deliveries of the same messages leave the same inbox and the same executions up
      to their ids. */
  lemma {:induction false} OrderDoesNotMatter(steps: seq<Step>, ds: seq<Delivery>, es: seq<Delivery>)
    requires FreshIds(Exec(NEW_FEED, steps), ds) && FreshIds(Exec(NEW_FEED, steps), es)
    requires forall e :: Delivers(Exec(NEW_FEED, steps), ds, e) <==> Delivers(Exec(NEW_FEED, steps), es, e)
    ensures var a, b := DeliverAll(Exec(NEW_FEED, steps), ds).intake, DeliverAll(Exec(NEW_FEED, steps), es).intake;
            && (forall e :: e in a.inbox <==> e in b.inbox)
            && (forall record :: HasRecord(a.executions, record) <==> HasRecord(b.executions, record))
  {
    hide Exec, DeliverAll, Delivers, FreshIds, Inv, Known, Record, HasRecord, Drawn;
    ExecInv(steps);
    var f := Exec(NEW_FEED, steps);
    DeliveriesSettle(f, ds);
    DeliveriesSettle(f, es);
    assert forall record :: Added(f, ds, record) <==> Added(f, es, record);
  }
}
