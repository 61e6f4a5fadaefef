/** The failing side of "an execution says what its intake said" is real: a member's direct request can come first. */
module EventFeedPreemption {
  import opened Wrappers
  import opened ControlPlane
  import opened EventFeed
  import opened EventFeedSafety
  import opened EventFeedExactlyOnce

  /** In any state with an event on the bus whose work item has no execution, an admissible request for the same work
      item, saying something else, decides what is built: the event is then processed and its text dropped. */
  lemma RequestPreempts(f: Feed, k: nat, data: ReadyEvent, id: int, other: int)
    requires Inv(f) && k < |f.publisher.bus| && f.publisher.bus[k].id !in f.intake.inbox
    requires var m := f.publisher.bus[k];
             && !Accepted(f.intake.executions, m.organization, m.data.workItem)
             && Admissible(data) && data.workItem == m.data.workItem
             && RecordOf(m.organization, data) != RecordOf(m.organization, m.data)
             && (m.organization, data.target.provider) in f.intake.providers && id !in f.intake.executions
    ensures var m := f.publisher.bus[k];
            var g := Exec(f, [Request(m.organization, data, id), Deliver(k, other)]);
            && Inv(g) && m.id in g.intake.inbox
            && id in g.intake.executions && g.intake.executions[id] == RecordOf(m.organization, data)
            && !HasRecord(g.intake.executions, RecordOf(m.organization, m.data))
  {
    hide Inv, Admissible, IntakeInv;
    var m := f.publisher.bus[k];
    var request, delivery := Request(m.organization, data, id), Deliver(k, other);
    var requested := Apply(f, request);
    RequestComesFirst(f, m, data, id);
    StepInv(f, request);
    StepInv(requested, delivery);
    assert [request, delivery][..1] == [request] && [request][..0] == [];
    assert Exec(f, [request]) == requested;
    EventWinsIffFirst(requested, k, other, []);
    assert HasKey(requested.intake.executions[id], m.organization, m.data.workItem);
    assert TakenByAnother(requested, m);
  }

  lemma RequestComesFirst(f: Feed, m: Message, data: ReadyEvent, id: int)
    requires Admissible(data) && !Accepted(f.intake.executions, m.organization, data.workItem)
    requires (m.organization, data.target.provider) in f.intake.providers && id !in f.intake.executions
    ensures var g := Apply(f, Request(m.organization, data, id));
            && g.publisher == f.publisher && g.intake.inbox == f.intake.inbox
            && g.intake.executions == f.intake.executions[id := RecordOf(m.organization, data)]
            && HasKey(RecordOf(m.organization, data), m.organization, data.workItem)
  {
    hide Admissible;
  }

  const TARGET := Target(1, 1, 1)
  const BUDGET := ControlPlane.Budget(60, 1, 1, 0, "USD")

  const READY_EVENT := ReadyEvent(1, 1, 3, TARGET, BUDGET, "title", "problem", ["criterion"])

  /** One command of the one organization, on a feed whose event is not written yet. */
  lemma OneCommand(f: Feed, op: Operation)
    requires f.publisher == NEW_FEED.publisher && f.intake == NEW_FEED.intake && !op.ReadyWorkItem?
    requires Commit(f.StoreOf(1), op).Some?
    ensures var g := Apply(f, Command(1, op));
            && g.publisher == NEW_FEED.publisher && g.intake == NEW_FEED.intake
            && g.StoreOf(1) == Commit(f.StoreOf(1), op).value
  {
  }

  lemma OneMore(steps: seq<Step>, step: Step)
    ensures Exec(NEW_FEED, steps + [step]) == Apply(Exec(NEW_FEED, steps), step)
  {
    assert (steps + [step])[..|steps|] == steps;
  }

  predicate Drafted(s: Store) {
    && 1 in s.intakes && s.intakes[1] == IntakeRow(1, "problem", ["criterion"], SpecificationDrafted)
    && 1 in s.specifications && s.specifications[1] == SpecificationRow(1, 1, 1, Draft)
    && 1 in s.versions && s.versions[1] == VersionRow(1, "title", "problem", ["criterion"])
    && 1 !in s.workItems && 1 !in s.outbox
  }

  lemma DraftedFeed() returns (steps: seq<Step>)
    ensures var f := Exec(NEW_FEED, steps);
            Drafted(f.StoreOf(1)) && f.publisher == NEW_FEED.publisher && f.intake == NEW_FEED.intake
  {
    hide Exec, Apply;
    var project, intake, draft :=
      CreateProject(1), SubmitIntake(1, 1, "problem", ["criterion"]), DraftSpecification(1, 1, 1, "title");
    NoSteps();
    NothingToStrip("problem");
    NothingToStrip("criterion");
    NothingToStrip("title");
    OneCommand(NEW_FEED, project);
    OneMore([], Command(1, project));
    steps := [] + [Command(1, project)];
    OneCommand(Exec(NEW_FEED, steps), intake);
    OneMore(steps, Command(1, intake));
    steps := steps + [Command(1, intake)];
    OneCommand(Exec(NEW_FEED, steps), draft);
    OneMore(steps, Command(1, draft));
    steps := steps + [Command(1, draft)];
  }

  lemma NothingToStrip(text: string)
    requires text != "" && !IsSpace(text[0]) && !IsSpace(text[|text| - 1])
    ensures Strip(text) == text && StripAll([text]) == [text]
  {
  }

  lemma NoSteps()
    ensures Exec(NEW_FEED, []) == NEW_FEED
  {
  }

  predicate IsReviewed(s: Store) {
    && 1 in s.workItems
    && s.workItems[1] == WorkItemRow(1, 1, "title", "problem", ["criterion"], Reviewed, None, None, 2)
    && 1 !in s.outbox
  }

  lemma ReviewedFeed() returns (steps: seq<Step>)
    ensures var f := Exec(NEW_FEED, steps);
            IsReviewed(f.StoreOf(1)) && f.publisher == NEW_FEED.publisher && f.intake == NEW_FEED.intake
  {
    hide Exec, Apply;
    steps := DraftedFeed();
    var submit, approve, review := SubmitSpecification(1), ApproveSpecification(1, 1), ReviewWorkItem(1);
    OneCommand(Exec(NEW_FEED, steps), submit);
    OneMore(steps, Command(1, submit));
    steps := steps + [Command(1, submit)];
    OneCommand(Exec(NEW_FEED, steps), approve);
    OneMore(steps, Command(1, approve));
    steps := steps + [Command(1, approve)];
    OneCommand(Exec(NEW_FEED, steps), review);
    OneMore(steps, Command(1, review));
    steps := steps + [Command(1, review)];
  }

  lemma ReadyIsRouted(f: Feed)
    requires IsReviewed(f.StoreOf(1)) && f.publisher == NEW_FEED.publisher && f.intake == NEW_FEED.intake
    ensures var ready := Apply(f, Command(1, ReadyWorkItem(1, 1, TARGET, BUDGET)));
            && ready.intake == NEW_FEED.intake
            && ready.publisher.bus == [] && ready.publisher.batch == []
            && (forall e :: e in ready.publisher.routes <==> e == 1) && |ready.publisher.routes| == 1
            && 1 in ready.publisher.outbox && ready.publisher.outbox[1] == OutboxRow(1, READY_EVENT, false)
  {
    assert BUDGET.currency[0] == 'U';
    assert BUDGET.Valid();
  }

  lemma PublishOne(f: Feed)
    requires f.intake == NEW_FEED.intake && f.publisher.bus == [] && f.publisher.batch == []
    requires (forall e :: e in f.publisher.routes <==> e == 1) && |f.publisher.routes| == 1
    requires 1 in f.publisher.outbox && f.publisher.outbox[1] == OutboxRow(1, READY_EVENT, false)
    ensures var sent := Apply(Apply(Apply(f, AddProvider(1, 1)), SelectBatch), PublishNext);
            && sent.publisher.bus == [Message(1, 1, READY_EVENT)]
            && (1, 1) in sent.intake.providers && sent.intake.inbox == {} && sent.intake.executions == map[]
  {
    var ids := Batch(f.publisher.routes, ROUTE_LIMIT);
    assert |ids| == 1 && ids[0] in f.publisher.routes;
  }

  /** An event of a work item that was taken through intake, specification, approval and review waits on the bus. */
  lemma PublishedFeed() returns (steps: seq<Step>)
    ensures var f := Exec(NEW_FEED, steps);
            && f.publisher.bus == [Message(1, 1, READY_EVENT)]
            && (1, 1) in f.intake.providers && f.intake.inbox == {} && f.intake.executions == map[]
  {
    hide Exec, Apply;
    steps := ReviewedFeed();
    ReadyIsRouted(Exec(NEW_FEED, steps));
    var ready := Command(1, ReadyWorkItem(1, 1, TARGET, BUDGET));
    OneMore(steps, ready);
    steps := steps + [ready];
    PublishOne(Exec(NEW_FEED, steps));
    OneMore(steps, AddProvider(1, 1));
    steps := steps + [AddProvider(1, 1)];
    OneMore(steps, SelectBatch);
    steps := steps + [SelectBatch];
    OneMore(steps, PublishNext);
    steps := steps + [PublishNext];
  }

  /** A run in which a work item's execution is built from a member's own words although its event is processed. */
  lemma EventTextCanBeDropped() returns (f: Feed, steps: seq<Step>, rest: seq<Step>)
    ensures f == Exec(NEW_FEED, steps) && f.publisher.bus == [Message(1, 1, READY_EVENT)]
    ensures var g := Exec(f, rest);
            && 1 in g.intake.inbox && !HasRecord(g.intake.executions, RecordOf(1, READY_EVENT))
            && 7 in g.intake.executions && g.intake.executions[7].title == "other"
  {
    hide Exec, Apply, Inv;
    steps := PublishedFeed();
    f := Exec(NEW_FEED, steps);
    ExecInv(steps);
    var data := READY_EVENT.(title := "other");
    RequestPreempts(f, 0, data, 7, 8);
    rest := [Request(1, data, 7), Deliver(0, 8)];
  }
}
