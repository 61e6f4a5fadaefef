/** The control planes of all organizations, the publisher, the bus, the consumer and the members who ask for
    executions directly, with crashes, duplicates and any order of delivery; and what every run of them keeps. */
module EventFeedSafety {
  import opened Wrappers
  import ControlPlane
  import Provenance = ControlPlaneProvenance
  import Executions
  import opened DeliveryTransactions
  import opened Dispatcher
  import opened EventFeed

  /** What an execution was first accepted from. */
  datatype Origin = FromEvent(event: int) | FromRequest(data: ControlPlane.ReadyEvent)

  /** `origins` only records what happened; no step looks at it. */
  datatype Feed = Feed(
    stores: map<int, ControlPlane.Store>, publisher: Publisher, intake: Intake, origins: map<int, Origin>)
  {
    function StoreOf(organization: int): ControlPlane.Store {
      if organization in stores then stores[organization] else ControlPlane.EMPTY
    }
  }

  const NEW_FEED := Feed(map[], Publisher(map[], {}, [], [], 0), Intake({}, {}, map[], []), map[])

  datatype Step =
    | Command(organization: int, op: ControlPlane.Operation)
    | AddProvider(organization: int, provider: int)
    | SelectBatch
    | PublishNext
    | CommitBatch
    | CrashPublisher
    | Deliver(k: nat, id: int)
    | Request(organization: int, data: ControlPlane.ReadyEvent, id: int)

  function Apply(f: Feed, step: Step): Feed {
    match step
    case Command(o, op) => ApplyCommand(f, o, op)
    case AddProvider(o, provider) => f.(intake := f.intake.(providers := f.intake.providers + {(o, provider)}))
    case SelectBatch => f.(publisher := f.publisher.Select())
    case PublishNext => f.(publisher := f.publisher.PublishNext())
    case CommitBatch => f.(publisher := f.publisher.Commit())
    case CrashPublisher => f.(publisher := f.publisher.Crash())
    case Deliver(k, id) =>
      if k < |f.publisher.bus| then
        Committed(f, f.intake.Process(f.publisher.bus[k], id), id, FromEvent(f.publisher.bus[k].id))
      else f
    case Request(o, data, id) => Committed(f, f.intake.Request(o, data, id), id, FromRequest(data))
  }

  function Committed(f: Feed, next: Option<Intake>, id: int, origin: Origin): Feed {
    match next
    case None => f
    case Some(d) =>
      f.(intake := d,
         origins := if id in d.executions && id !in f.intake.executions then f.origins[id := origin] else f.origins)
  }

  /** Readying a work item writes its event and the event's route in the same transaction. */
  function ApplyCommand(f: Feed, o: int, op: ControlPlane.Operation): Feed {
    if op.ReadyWorkItem? && op.event in f.publisher.outbox then f
    else
      match ControlPlane.Commit(f.StoreOf(o), op)
      case None => f
      case Some(s) =>
        var moved := f.(stores := f.stores[o := s]);
        if op.ReadyWorkItem? then moved.(publisher := f.publisher.Emit(op.event, o, s.outbox[op.event])) else moved
  }

  function Exec(f: Feed, steps: seq<Step>): Feed {
    if steps == [] then f else Apply(Exec(f, steps[..|steps| - 1]), steps[|steps| - 1])
  }

  predicate OnBus(bus: seq<Message>, e: int) {
    exists k :: 0 <= k < |bus| && bus[k].id == e
  }

  ghost predicate PublisherInv(p: Publisher) {
    && (forall e :: e in p.routes <==> e in p.outbox && !p.outbox[e].published)
    && (forall e :: e in p.outbox && p.outbox[e].published ==> OnBus(p.bus, e))
    && (forall k :: 0 <= k < |p.bus| ==> IsMessage(p.outbox, p.bus[k]))
    && p.sent <= |p.batch|
    && (forall k :: 0 <= k < |p.batch| ==> p.batch[k] in p.routes)
    && (forall k :: 0 <= k < p.sent ==> OnBus(p.bus, p.batch[k]))
  }

  predicate IsMessage(outbox: map<int, OutboxRow>, m: Message) {
    m.id in outbox && m.organization == outbox[m.id].organization && m.data == outbox[m.id].data
  }

  ghost predicate FromStore(f: Feed, e: int)
    requires e in f.publisher.outbox
  {
    var row := f.publisher.outbox[e];
    e in f.StoreOf(row.organization).outbox && f.StoreOf(row.organization).outbox[e] == row.data
  }

  /** The outbox table holds exactly the stores' events. */
  ghost predicate StoresInv(f: Feed) {
    && (forall o :: Provenance.Inv(f.StoreOf(o)))
    && (forall e :: e in f.publisher.outbox ==> FromStore(f, e))
    && (forall o, e :: e in f.StoreOf(o).outbox ==> e in f.publisher.outbox && f.publisher.outbox[e].organization == o)
  }

  function Record(outbox: map<int, OutboxRow>, e: int): ExecutionRecord
    requires e in outbox
  {
    RecordOf(outbox[e].organization, outbox[e].data)
  }

  ghost predicate HasRecord(executions: map<int, ExecutionRecord>, record: ExecutionRecord) {
    exists x :: x in executions && executions[x] == record
  }

  predicate SameKey(a: ExecutionRecord, b: ExecutionRecord) {
    HasKey(a, b.organization, b.workItem)
  }

  /** An execution says what its event or its request said. */
  ghost predicate OriginOk(outbox: map<int, OutboxRow>, inbox: set<int>, origin: Origin, record: ExecutionRecord) {
    match origin
    case FromEvent(e) => e in inbox && e in outbox && record == Record(outbox, e)
    case FromRequest(data) => Admissible(data) && record == RecordOf(record.organization, data)
  }

  /** Each processed event's key has its one execution, and each execution its origin and its one START. */
  ghost predicate IntakeInv(outbox: map<int, OutboxRow>, d: Intake, origins: map<int, Origin>) {
    && (forall e :: e in d.inbox ==>
         e in outbox && Accepted(d.executions, outbox[e].organization, outbox[e].data.workItem))
    && (forall x :: x in d.executions ==> x in origins && OriginOk(outbox, d.inbox, origins[x], d.executions[x]))
    && (forall x, y :: x in d.executions && y in d.executions && x != y ==> !SameKey(d.executions[x], d.executions[y]))
    && (forall x :: CommandsOf(d.commands, x) == if x in d.executions then [StartCommand] else [])
  }

  ghost predicate OneEventPerKey(outbox: map<int, OutboxRow>) {
    forall a, b :: a in outbox && b in outbox && a != b ==> !SameKey(Record(outbox, a), Record(outbox, b))
  }

  ghost predicate Inv(f: Feed) {
    StoresInv(f) && PublisherInv(f.publisher) && IntakeInv(f.publisher.outbox, f.intake, f.origins)
  }

  lemma StillOnBus(bus: seq<Message>, m: Message, e: int)
    requires OnBus(bus, e) || m.id == e
    ensures OnBus(bus + [m], e)
  {
    if m.id == e {
      assert (bus + [m])[|bus|].id == e;
    } else {
      var k :| 0 <= k < |bus| && bus[k].id == e;
      assert (bus + [m])[k].id == e;
    }
  }

  lemma EmitInv(p: Publisher, id: int, o: int, data: ControlPlane.ReadyEvent)
    requires PublisherInv(p)
    ensures PublisherInv(p.Emit(id, o, data))
  {
    hide OnBus;
  }

  lemma SelectInv(p: Publisher)
    requires PublisherInv(p)
    ensures PublisherInv(p.Select())
  {
    hide OnBus;
  }

  lemma PublishNextInv(p: Publisher)
    requires PublisherInv(p)
    ensures PublisherInv(p.PublishNext())
  {
    if p.sent < |p.batch| {
      var e := p.batch[p.sent];
      var m := Message(e, p.outbox[e].organization, p.outbox[e].data);
      assert p.PublishNext().bus == p.bus + [m];
      forall i | OnBus(p.bus, i) || i == e
        ensures OnBus(p.bus + [m], i)
      {
        StillOnBus(p.bus, m, i);
      }
      hide OnBus;
      assert IsMessage(p.outbox, m);
    }
  }

  lemma CommitInv(p: Publisher)
    requires PublisherInv(p)
    ensures PublisherInv(p.Commit())
  {
    hide OnBus;
    if p.sent == |p.batch| {
      forall e | e in p.batch
        ensures OnBus(p.bus, e)
      {
        var k :| 0 <= k < |p.batch| && p.batch[k] == e;
      }
      assert forall k :: 0 <= k < |p.bus| ==> IsMessage(p.outbox, p.bus[k]);
    }
  }

  /** Events are never taken back or changed. */
  ghost predicate Keeps(a: map<int, OutboxRow>, b: map<int, OutboxRow>) {
    forall e :: e in a ==> e in b && b[e].organization == a[e].organization && b[e].data == a[e].data
  }

  lemma IntakeFrame(a: map<int, OutboxRow>, b: map<int, OutboxRow>, d: Intake, origins: map<int, Origin>)
    requires IntakeInv(a, d, origins) && Keeps(a, b)
    ensures IntakeInv(b, d, origins)
  {
    hide RecordOf, CommandsOf, SameKey, Accepted, Admissible;
    forall x | x in d.executions
      ensures OriginOk(b, d.inbox, origins[x], d.executions[x])
    {
      assert OriginOk(a, d.inbox, origins[x], d.executions[x]);
    }
  }

  lemma StoresFrame(f: Feed, g: Feed)
    requires StoresInv(f) && g.stores == f.stores
    requires Keeps(f.publisher.outbox, g.publisher.outbox) && g.publisher.outbox.Keys == f.publisher.outbox.Keys
    ensures StoresInv(g)
  {
    hide Provenance.Inv;
    assert forall o :: g.StoreOf(o) == f.StoreOf(o);
    forall e | e in g.publisher.outbox
      ensures FromStore(g, e)
    {
      assert e in f.publisher.outbox && FromStore(f, e);
    }
  }

  lemma KeysAreSingle(f: Feed)
    requires StoresInv(f)
    ensures OneEventPerKey(f.publisher.outbox)
  {
    var outbox := f.publisher.outbox;
    forall a, b | a in outbox && b in outbox && a != b
      ensures !SameKey(Record(outbox, a), Record(outbox, b))
    {
      assert FromStore(f, a) && FromStore(f, b);
      assert Provenance.OneEventEach(f.StoreOf(outbox[a].organization));
    }
  }

  lemma CommandOutbox(s: ControlPlane.Store, op: ControlPlane.Operation)
    requires ControlPlane.Commit(s, op).Some?
    ensures ControlPlane.Commit(s, op).value.outbox ==
              if op.ReadyWorkItem? then s.outbox[op.event := ControlPlane.Commit(s, op).value.outbox[op.event]]
              else s.outbox
    ensures op.ReadyWorkItem? ==> op.event !in s.outbox
  {
  }

  lemma CommandInv(f: Feed, o: int, op: ControlPlane.Operation)
    requires Inv(f)
    ensures Inv(ApplyCommand(f, o, op))
  {
    hide StoresInv, PublisherInv, IntakeInv, ControlPlane.Commit;
    CommandStores(f, o, op);
    var g := ApplyCommand(f, o, op);
    var s := ControlPlane.Commit(f.StoreOf(o), op);
    if s.Some? && op.ReadyWorkItem? && op.event !in f.publisher.outbox {
      CommandOutbox(f.StoreOf(o), op);
      EmitInv(f.publisher, op.event, o, s.value.outbox[op.event]);
      IntakeFrame(f.publisher.outbox, g.publisher.outbox, f.intake, f.origins);
    }
  }

  lemma CommandStores(f: Feed, o: int, op: ControlPlane.Operation)
    requires StoresInv(f)
    ensures StoresInv(ApplyCommand(f, o, op))
  {
    hide Provenance.Inv, ControlPlane.Commit;
    var g := ApplyCommand(f, o, op);
    var s := ControlPlane.Commit(f.StoreOf(o), op);
    if s.Some? && !(op.ReadyWorkItem? && op.event in f.publisher.outbox) {
      Provenance.StepInv(f.StoreOf(o), op);
      CommandOutbox(f.StoreOf(o), op);
      assert forall i :: g.StoreOf(i) == if i == o then s.value else f.StoreOf(i);
      forall e | e in g.publisher.outbox
        ensures FromStore(g, e)
      {
        assert e in f.publisher.outbox ==> FromStore(f, e);
      }
    }
  }

  lemma {:induction false} CommandsOfLast(commands: seq<CommandRow>, row: CommandRow, x: int)
    ensures CommandsOf(commands + [row], x) ==
            CommandsOf(commands, x) + (if row.executionId == x then [row.command] else [])
  {
    assert (commands + [row])[..|commands|] == commands;
  }

  /** A new execution, whatever it is accepted from. */
  lemma NewExecutionInv(
    outbox: map<int, OutboxRow>, d: Intake, origins: map<int, Origin>, inbox: set<int>,
    organization: int, data: ControlPlane.ReadyEvent, id: int, origin: Origin)
    requires IntakeInv(outbox, d, origins) && OriginOk(outbox, inbox, origin, RecordOf(organization, data))
    requires d.inbox <= inbox
    requires forall e :: e in inbox && e !in d.inbox ==>
               e in outbox && outbox[e].organization == organization && outbox[e].data.workItem == data.workItem
    requires !Accepted(d.executions, organization, data.workItem) && id !in d.executions
    ensures IntakeInv(outbox, Intake(d.providers, inbox, d.executions[id := RecordOf(organization, data)],
                                     d.commands + [CommandRow(id, StartCommand, false)]),
                      origins[id := origin])
  {
    hide CommandsOf, Admissible;
    var record := RecordOf(organization, data);
    var executions := d.executions[id := record];
    forall e | e in inbox
      ensures e in outbox && Accepted(executions, outbox[e].organization, outbox[e].data.workItem)
    {
      if e in d.inbox {
        var x :| x in d.executions && HasKey(d.executions[x], outbox[e].organization, outbox[e].data.workItem);
        assert HasKey(executions[x], outbox[e].organization, outbox[e].data.workItem);
      } else {
        assert HasKey(executions[id], organization, data.workItem);
      }
    }
    forall x
      ensures CommandsOf(d.commands + [CommandRow(id, StartCommand, false)], x) ==
              if x in executions then [StartCommand] else []
    {
      CommandsOfLast(d.commands, CommandRow(id, StartCommand, false), x);
    }
  }

  lemma KnownEventInv(outbox: map<int, OutboxRow>, d: Intake, origins: map<int, Origin>, m: Message)
    requires IntakeInv(outbox, d, origins) && IsMessage(outbox, m)
    requires Accepted(d.executions, m.organization, m.data.workItem)
    ensures IntakeInv(outbox, d.(inbox := d.inbox + {m.id}), origins)
  {
    hide CommandsOf, Admissible, Accepted, RecordOf, SameKey;
    forall x | x in d.executions
      ensures OriginOk(outbox, d.inbox + {m.id}, origins[x], d.executions[x])
    {
      assert OriginOk(outbox, d.inbox, origins[x], d.executions[x]);
    }
  }

  /** With one event per key, an event finds an execution only if it was processed before or the execution was asked
      for directly. */
  lemma FoundMeansProcessedOrRequested(outbox: map<int, OutboxRow>, d: Intake, origins: map<int, Origin>, m: Message,
      x: int)
    requires IntakeInv(outbox, d, origins) && OneEventPerKey(outbox) && IsMessage(outbox, m)
    requires x in d.executions && HasKey(d.executions[x], m.organization, m.data.workItem)
    ensures origins[x] == FromEvent(m.id) || origins[x].FromRequest?
    ensures origins[x].FromEvent? ==> m.id in d.inbox && d.executions[x] == Record(outbox, m.id)
  {
    assert OriginOk(outbox, d.inbox, origins[x], d.executions[x]);
    if origins[x].FromEvent? {
      assert SameKey(Record(outbox, origins[x].event), Record(outbox, m.id));
    }
  }

  lemma DeliverInv(f: Feed, k: nat, id: int)
    requires Inv(f) && k < |f.publisher.bus|
    ensures Inv(Apply(f, Deliver(k, id)))
  {
    hide IntakeInv, Accepted, RecordOf, Admissible, PublisherInv, StoresInv, IsMessage;
    var m, g := f.publisher.bus[k], Apply(f, Deliver(k, id));
    MessageOnBus(f.publisher, k);
    if f.intake.Process(m, id).Some? && m.id !in f.intake.inbox {
      if Accepted(f.intake.executions, m.organization, m.data.workItem) {
        KnownEventInv(f.publisher.outbox, f.intake, f.origins, m);
        NothingNew(f, m, id);
      } else {
        MessageRecord(f.publisher.outbox, m);
        NewExecutionInv(f.publisher.outbox, f.intake, f.origins, f.intake.inbox + {m.id},
                        m.organization, m.data, id, FromEvent(m.id));
      }
    }
    IntakeStepInv(f, g.intake, g.origins);
  }

  lemma MessageOnBus(p: Publisher, k: nat)
    requires PublisherInv(p) && k < |p.bus|
    ensures IsMessage(p.outbox, p.bus[k])
  {
  }

  lemma MessageRecord(outbox: map<int, OutboxRow>, m: Message)
    requires IsMessage(outbox, m)
    ensures m.id in outbox && m.organization == outbox[m.id].organization && m.data == outbox[m.id].data
    ensures RecordOf(m.organization, m.data) == Record(outbox, m.id)
  {
  }

  lemma NothingNew(f: Feed, m: Message, id: int)
    requires m.id !in f.intake.inbox && Accepted(f.intake.executions, m.organization, m.data.workItem)
    ensures Committed(f, f.intake.Process(m, id), id, FromEvent(m.id)) ==
            f.(intake := f.intake.(inbox := f.intake.inbox + {m.id}))
  {
  }

  lemma RequestInv(f: Feed, o: int, data: ControlPlane.ReadyEvent, id: int)
    requires Inv(f)
    ensures Inv(Apply(f, Request(o, data, id)))
  {
    hide IntakeInv, Accepted, RecordOf, PublisherInv, StoresInv, Admissible;
    var g := Apply(f, Request(o, data, id));
    if f.intake.Request(o, data, id).Some? && !Accepted(f.intake.executions, o, data.workItem) {
      RecordKeepsOrganization(o, data);
      NewExecutionInv(f.publisher.outbox, f.intake, f.origins, f.intake.inbox, o, data, id, FromRequest(data));
    }
    IntakeStepInv(f, g.intake, g.origins);
  }

  lemma RecordKeepsOrganization(o: int, data: ControlPlane.ReadyEvent)
    ensures RecordOf(o, data).organization == o
  {
  }

  lemma PublisherStepInv(f: Feed, next: Publisher)
    requires Inv(f) && PublisherInv(next)
    requires Keeps(f.publisher.outbox, next.outbox) && next.outbox.Keys == f.publisher.outbox.Keys
    ensures Inv(f.(publisher := next))
  {
    hide PublisherInv, IntakeInv, StoresInv;
    StoresFrame(f, f.(publisher := next));
    IntakeFrame(f.publisher.outbox, next.outbox, f.intake, f.origins);
  }

  lemma StepInv(f: Feed, step: Step)
    requires Inv(f)
    ensures Inv(Apply(f, step))
  {
    hide PublisherInv, IntakeInv, StoresInv, ApplyCommand, Intake.Process, Intake.Request, Committed;
    match step
    case Command(o, op) => CommandInv(f, o, op);
    case AddProvider(o, provider) => ProviderFrame(f, o, provider);
    case SelectBatch =>
      SelectInv(f.publisher);
      PublisherStepInv(f, f.publisher.Select());
    case PublishNext =>
      PublishNextInv(f.publisher);
      PublisherStepInv(f, f.publisher.PublishNext());
    case CommitBatch =>
      CommitInv(f.publisher);
      PublisherStepInv(f, f.publisher.Commit());
    case CrashPublisher =>
      CrashInv(f.publisher);
      PublisherStepInv(f, f.publisher.Crash());
    case Deliver(k, id) =>
      if k < |f.publisher.bus| {
        DeliverInv(f, k, id);
      }
    case Request(o, data, id) => RequestInv(f, o, data, id);
  }

  lemma CrashInv(p: Publisher)
    requires PublisherInv(p)
    ensures PublisherInv(p.Crash())
  {
    hide OnBus;
  }

  lemma IntakeStepInv(f: Feed, next: Intake, origins: map<int, Origin>)
    requires Inv(f) && IntakeInv(f.publisher.outbox, next, origins)
    ensures Inv(f.(intake := next, origins := origins))
  {
    hide PublisherInv, IntakeInv, Provenance.Inv;
    var g := f.(intake := next, origins := origins);
    assert forall o :: g.StoreOf(o) == f.StoreOf(o);
    forall e | e in g.publisher.outbox
      ensures FromStore(g, e)
    {
      assert FromStore(f, e);
    }
  }

  lemma ProviderFrame(f: Feed, o: int, provider: int)
    requires Inv(f)
    ensures Inv(f.(intake := f.intake.(providers := f.intake.providers + {(o, provider)})))
  {
    var next := f.intake.(providers := f.intake.providers + {(o, provider)});
    assert IntakeInv(f.publisher.outbox, next, f.origins) by {
      hide RecordOf, CommandsOf, SameKey, OriginOk, Accepted, StoresInv, PublisherInv;
    }
    IntakeStepInv(f, next, f.origins);
  }

  lemma NewFeedInv()
    ensures Inv(NEW_FEED)
  {
    assert forall o :: NEW_FEED.StoreOf(o) == ControlPlane.EMPTY;
  }

  lemma {:induction false} ExecInv(steps: seq<Step>)
    ensures Inv(Exec(NEW_FEED, steps))
  {
    hide Inv, Apply;
    if steps == [] {
      NewFeedInv();
    } else {
      ExecInv(steps[..|steps| - 1]);
      StepInv(Exec(NEW_FEED, steps[..|steps| - 1]), steps[|steps| - 1]);
    }
  }
}
