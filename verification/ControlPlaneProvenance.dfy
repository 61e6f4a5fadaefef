/** Where every ready event comes from: the chain intake, specification, version, work item, event, over all runs of
    the control plane. */
module ControlPlaneProvenance {
  import opened Wrappers
  import opened FiniteSets
  import opened ControlPlane

  /** Intake and specification move in lockstep. */
  predicate Lockstep(specification: SpecificationStatus, intake: IntakeStatus) {
    match specification
    case Draft => intake == SpecificationDrafted
    case SpecificationAwaitingApproval => intake == AwaitingApproval
    case SpecificationStatusApproved => intake == SpecificationApproved
    case Superseded => false
  }

  /** A specification's intake exists, keeps pace, and is copied into the specification's version. */
  ghost predicate SpecificationOk(s: Store, id: int)
    requires id in s.specifications
  {
    var row := s.specifications[id];
    && row.intake in s.intakes
    && row.currentVersion in s.versions
    && s.versions[row.currentVersion].specification == id
    && s.versions[row.currentVersion].problem == s.intakes[row.intake].problem
    && s.versions[row.currentVersion].requirements == s.intakes[row.intake].functionality
    && row.project == s.intakes[row.intake].project
    && Lockstep(row.status, s.intakes[row.intake].status)
  }

  ghost predicate Drafted(specifications: map<int, SpecificationRow>, intake: int) {
    exists id :: id in specifications && specifications[id].intake == intake
  }

  ghost predicate OneSpecificationEach(s: Store) {
    && (forall a, b :: a in s.specifications && b in s.specifications && a != b ==>
          s.specifications[a].intake != s.specifications[b].intake)
    && (forall i :: i in s.intakes && s.intakes[i].status !in {Received, ClarificationRequired} ==>
          Drafted(s.specifications, i))
    && (forall v :: v in s.versions ==> s.versions[v].specification in s.specifications)
  }

  ghost predicate CopiesVersion(s: Store, row: WorkItemRow)
    requires row.version in s.versions
  {
    var version := s.versions[row.version];
    && version.specification in s.specifications
    && s.specifications[version.specification].status == SpecificationStatusApproved
    && s.specifications[version.specification].currentVersion == row.version
    && row.project == s.specifications[version.specification].project
    && row.title == version.title && row.description == version.problem && row.criteria == version.requirements
  }

  /** A work item is its approved specification's version, word for word. */
  ghost predicate WorkItemOk(s: Store, id: int)
    requires id in s.workItems
  {
    var row := s.workItems[id];
    && row.version in s.versions
    && CopiesVersion(s, row)
    && match row.status
       case InReview => row.number == 1
       case Reviewed => row.number == 2
       case Ready => row.number == 3 && row.target.Some? && row.budget.Some? && row.budget.value.Valid()
       case _ => false
  }

  ghost predicate Generated(workItems: map<int, WorkItemRow>, version: int) {
    exists id :: id in workItems && workItems[id].version == version
  }

  ghost predicate OneWorkItemEach(s: Store) {
    && (forall a, b :: a in s.workItems && b in s.workItems && a != b ==>
         s.workItems[a].version != s.workItems[b].version)
    && (forall id :: id in s.specifications && s.specifications[id].status == SpecificationStatusApproved ==>
          Generated(s.workItems, s.specifications[id].currentVersion))
  }

  ghost predicate EventOk(s: Store, e: int)
    requires e in s.outbox
  {
    var event := s.outbox[e];
    && event.workItem in s.workItems
    && s.workItems[event.workItem].status == Ready
    && s.workItems[event.workItem].target.Some? && s.workItems[event.workItem].budget.Some?
    && event == ReadyData(event.workItem, s.workItems[event.workItem],
                          s.workItems[event.workItem].target.value, s.workItems[event.workItem].budget.value)
  }

  ghost predicate Announced(outbox: map<int, ReadyEvent>, workItem: int) {
    exists e :: e in outbox && outbox[e].workItem == workItem
  }

  ghost predicate OneEventEach(s: Store) {
    && (forall a, b :: a in s.outbox && b in s.outbox && a != b ==> s.outbox[a].workItem != s.outbox[b].workItem)
    && (forall id :: id in s.workItems && s.workItems[id].status == Ready ==> Announced(s.outbox, id))
  }

  ghost predicate Upstream(s: Store) {
    (forall id :: id in s.specifications ==> SpecificationOk(s, id)) && OneSpecificationEach(s)
  }

  ghost predicate Downstream(s: Store) {
    && (forall id :: id in s.workItems ==> WorkItemOk(s, id)) && OneWorkItemEach(s)
    && (forall e :: e in s.outbox ==> EventOk(s, e)) && OneEventEach(s)
  }

  ghost predicate Inv(s: Store) {
    Upstream(s) && Downstream(s)
  }

  lemma StillDrafted(specifications: map<int, SpecificationRow>, id: int, row: SpecificationRow, intake: int)
    requires Drafted(specifications, intake)
    requires id in specifications ==> row.intake == specifications[id].intake
    ensures Drafted(specifications[id := row], intake)
  {
    var w :| w in specifications && specifications[w].intake == intake;
    assert specifications[id := row][w].intake == intake;
  }

  lemma StillGenerated(workItems: map<int, WorkItemRow>, id: int, row: WorkItemRow, version: int)
    requires Generated(workItems, version)
    requires id in workItems ==> row.version == workItems[id].version
    ensures Generated(workItems[id := row], version)
  {
    var w :| w in workItems && workItems[w].version == version;
    assert workItems[id := row][w].version == version;
  }

  lemma StillAnnounced(outbox: map<int, ReadyEvent>, id: int, event: ReadyEvent, workItem: int)
    requires Announced(outbox, workItem) && id !in outbox
    ensures Announced(outbox[id := event], workItem)
  {
    var w :| w in outbox && outbox[w].workItem == workItem;
    assert outbox[id := event][w].workItem == workItem;
  }

  lemma SubmitIntakeInv(s: Store, op: Operation)
    requires Inv(s) && (op.SubmitIntake? || op.CreateProject?) && Commit(s, op).Some?
    ensures Inv(Commit(s, op).value)
  {
  }

  /** Work items and events depend on nothing but approved specifications and written versions. */
  lemma DownstreamFrame(s: Store, n: Store)
    requires Downstream(s) && n.workItems == s.workItems && n.outbox == s.outbox
    requires forall v :: v in s.versions ==> v in n.versions && n.versions[v] == s.versions[v]
    requires forall id :: id in n.specifications && n.specifications[id].status == SpecificationStatusApproved ==>
               id in s.specifications && n.specifications[id] == s.specifications[id]
    requires forall id :: id in s.specifications && s.specifications[id].status == SpecificationStatusApproved ==>
               id in n.specifications && n.specifications[id] == s.specifications[id]
    ensures Downstream(n)
  {
    forall id | id in n.workItems
      ensures WorkItemOk(n, id)
    {
      assert WorkItemOk(s, id);
    }
  }

  lemma DraftedSpecifications(s: Store, op: Operation)
    requires Upstream(s) && op.DraftSpecification? && Commit(s, op).Some?
    ensures var n := Commit(s, op).value; forall id :: id in n.specifications ==> SpecificationOk(n, id)
  {
    var n := Commit(s, op).value;
    forall id | id in n.specifications
      ensures SpecificationOk(n, id)
    {
      if id != op.specification {
        assert SpecificationOk(s, id);
      }
    }
  }

  /** No specification has been drafted from the intake before. */
  lemma IntakeIsFree(s: Store, op: Operation)
    requires Upstream(s) && op.DraftSpecification? && Commit(s, op).Some?
    ensures forall id :: id in s.specifications ==> s.specifications[id].intake != op.intake
  {
    forall id | id in s.specifications
      ensures s.specifications[id].intake != op.intake
    {
      assert SpecificationOk(s, id);
    }
  }

  lemma DraftInv(s: Store, op: Operation)
    requires Inv(s) && op.DraftSpecification? && Commit(s, op).Some?
    ensures Inv(Commit(s, op).value)
  {
    hide Downstream, SpecificationOk;
    var n := Commit(s, op).value;
    DownstreamFrame(s, n);
    DraftedSpecifications(s, op);
    IntakeIsFree(s, op);
    forall i | i in n.intakes && n.intakes[i].status !in {Received, ClarificationRequired}
      ensures Drafted(n.specifications, i)
    {
      if i == op.intake {
        assert n.specifications[op.specification].intake == i;
      } else {
        StillDrafted(s.specifications, op.specification, n.specifications[op.specification], i);
      }
    }
  }

  /** One specification's status has changed, and its intake's with it. */
  ghost predicate MovedTogether(s: Store, n: Store, id: int) {
    && id in s.specifications && s.specifications[id].intake in s.intakes
    && n.versions == s.versions
    && n.specifications.Keys == s.specifications.Keys && n.intakes.Keys == s.intakes.Keys
    && (forall k :: k in s.specifications ==>
          n.specifications[k] ==
            if k == id then s.specifications[k].(status := n.specifications[id].status) else s.specifications[k])
    && (forall i :: i in s.intakes ==>
          n.intakes[i] ==
            if i == s.specifications[id].intake then s.intakes[i].(status := n.intakes[i].status) else s.intakes[i])
    && Lockstep(n.specifications[id].status, n.intakes[s.specifications[id].intake].status)
  }

  lemma SpecificationsMove(s: Store, n: Store, id: int)
    requires Upstream(s) && MovedTogether(s, n, id)
    ensures forall k :: k in n.specifications ==> SpecificationOk(n, k)
  {
    forall k | k in n.specifications
      ensures SpecificationOk(n, k)
    {
      assert SpecificationOk(s, k);
    }
  }

  /** What submitting and approving do. */
  lemma UpstreamMoves(s: Store, n: Store, id: int)
    requires Upstream(s) && MovedTogether(s, n, id)
    ensures Upstream(n)
  {
    SpecificationsMove(s, n, id);
    assert SpecificationOk(s, id);
    hide SpecificationOk;
    forall i | i in n.intakes && n.intakes[i].status !in {Received, ClarificationRequired}
      ensures Drafted(n.specifications, i)
    {
      var w :| w in s.specifications && s.specifications[w].intake == i;
      assert n.specifications[w].intake == i;
    }
  }

  lemma SubmitInv(s: Store, op: Operation)
    requires Inv(s) && op.SubmitSpecification? && Commit(s, op).Some?
    ensures Inv(Commit(s, op).value)
  {
    hide Upstream, Downstream;
    UpstreamMoves(s, Commit(s, op).value, op.specification);
    DownstreamFrame(s, Commit(s, op).value);
  }

  lemma ApprovedWorkItems(s: Store, op: Operation)
    requires Inv(s) && op.ApproveSpecification? && Commit(s, op).Some?
    ensures var n := Commit(s, op).value;
            && (forall id :: id in n.workItems ==> WorkItemOk(n, id))
            && (forall id :: id in s.workItems ==>
                  s.workItems[id].version != s.specifications[op.specification].currentVersion)
  {
    hide OneSpecificationEach, OneWorkItemEach, EventOk, OneEventEach;
    var n := Commit(s, op).value;
    assert SpecificationOk(s, op.specification);
    forall id | id in s.workItems
      ensures WorkItemOk(n, id) && s.workItems[id].version != s.specifications[op.specification].currentVersion
    {
      assert WorkItemOk(s, id);
    }
    assert WorkItemOk(n, op.workItem);
  }

  lemma ApproveDownstream(s: Store, op: Operation)
    requires Inv(s) && op.ApproveSpecification? && Commit(s, op).Some?
    ensures Downstream(Commit(s, op).value)
  {
    var n := Commit(s, op).value;
    assert SpecificationOk(s, op.specification);
    ApprovedWorkItems(s, op);
    hide WorkItemOk, SpecificationOk;
    forall id | id in n.specifications && n.specifications[id].status == SpecificationStatusApproved
      ensures Generated(n.workItems, n.specifications[id].currentVersion)
    {
      if id == op.specification {
        assert n.workItems[op.workItem].version == n.specifications[id].currentVersion;
      } else {
        StillGenerated(s.workItems, op.workItem, n.workItems[op.workItem], s.specifications[id].currentVersion);
      }
    }
  }

  lemma ApproveInv(s: Store, op: Operation)
    requires Inv(s) && op.ApproveSpecification? && Commit(s, op).Some?
    ensures Inv(Commit(s, op).value)
  {
    hide Upstream, Downstream;
    UpstreamMoves(s, Commit(s, op).value, op.specification);
    ApproveDownstream(s, op);
  }

  lemma ReviewInv(s: Store, op: Operation)
    requires Inv(s) && op.ReviewWorkItem? && Commit(s, op).Some?
    ensures Inv(Commit(s, op).value)
  {
    var n := Commit(s, op).value;
    forall id | id in n.specifications && n.specifications[id].status == SpecificationStatusApproved
      ensures Generated(n.workItems, n.specifications[id].currentVersion)
    {
      StillGenerated(s.workItems, op.workItem, n.workItems[op.workItem], s.specifications[id].currentVersion);
    }
  }

  lemma ReadiedRows(s: Store, op: Operation)
    requires Inv(s) && op.ReadyWorkItem? && Commit(s, op).Some?
    ensures var n := Commit(s, op).value;
            && (forall id :: id in n.workItems ==> WorkItemOk(n, id))
            && (forall e :: e in n.outbox ==> EventOk(n, e))
            && (forall e :: e in s.outbox ==> s.outbox[e].workItem != op.workItem)
  {
    hide Upstream, OneWorkItemEach, OneEventEach;
    var n := Commit(s, op).value;
    forall id | id in n.workItems
      ensures WorkItemOk(n, id)
    {
      assert WorkItemOk(s, id);
    }
    forall e | e in s.outbox
      ensures s.outbox[e].workItem != op.workItem && EventOk(n, e)
    {
      assert EventOk(s, e);
    }
    assert EventOk(n, op.event);
  }

  lemma ReadyInv(s: Store, op: Operation)
    requires Inv(s) && op.ReadyWorkItem? && Commit(s, op).Some?
    ensures Inv(Commit(s, op).value)
  {
    ReadiedRows(s, op);
    hide WorkItemOk, EventOk;
    var n := Commit(s, op).value;
    forall id | id in n.specifications && n.specifications[id].status == SpecificationStatusApproved
      ensures Generated(n.workItems, n.specifications[id].currentVersion)
    {
      StillGenerated(s.workItems, op.workItem, n.workItems[op.workItem], s.specifications[id].currentVersion);
    }
    forall id | id in n.workItems && n.workItems[id].status == Ready
      ensures Announced(n.outbox, id)
    {
      if id == op.workItem {
        assert n.outbox[op.event].workItem == id;
      } else {
        StillAnnounced(s.outbox, op.event, n.outbox[op.event], id);
      }
    }
  }

  lemma StepInv(s: Store, op: Operation)
    requires Inv(s)
    ensures Inv(Commit(s, op).GetOr(s))
  {
    hide Inv;
    if Commit(s, op).Some? {
      match op
      case CreateProject(_) => SubmitIntakeInv(s, op);
      case SubmitIntake(_, _, _, _) => SubmitIntakeInv(s, op);
      case DraftSpecification(_, _, _, _) => DraftInv(s, op);
      case SubmitSpecification(_) => SubmitInv(s, op);
      case ApproveSpecification(_, _) => ApproveInv(s, op);
      case ReviewWorkItem(_) => ReviewInv(s, op);
      case ReadyWorkItem(_, _, _, _) => ReadyInv(s, op);
    }
  }

  lemma {:induction false} RunInv(s: Store, ops: seq<Operation>)
    requires Inv(s)
    ensures Inv(Run(s, ops))
    decreases |ops|
  {
    hide Inv, Commit;
    if ops != [] {
      StepInv(s, ops[0]);
      RunInv(Commit(s, ops[0]).GetOr(s), ops[1..]);
    }
  }

  /** Each command checks the specification first and its intake second; the second check never decides. */
  lemma SecondGuardNeverFails(ops: seq<Operation>, id: int, workItem: int)
    requires id in Run(EMPTY, ops).specifications && workItem !in Run(EMPTY, ops).workItems
    ensures var s := Run(EMPTY, ops);
            && (s.specifications[id].status == Draft <==> Commit(s, SubmitSpecification(id)).Some?)
            && (s.specifications[id].status == SpecificationAwaitingApproval <==>
                  Commit(s, ApproveSpecification(id, workItem)).Some?)
  {
    hide Run;
    RunInv(EMPTY, ops);
    assert SpecificationOk(Run(EMPTY, ops), id);
  }

  /** An approved specification has exactly one work item of its current version, and no other specification any. */
  lemma ApprovedMeansOneWorkItem(ops: seq<Operation>, id: int)
    requires id in Run(EMPTY, ops).specifications
    ensures var s := Run(EMPTY, ops);
            var mine := set w | w in s.workItems && s.workItems[w].version == s.specifications[id].currentVersion;
            |mine| == if s.specifications[id].status == SpecificationStatusApproved then 1 else 0
  {
    hide Run;
    RunInv(EMPTY, ops);
    var s := Run(EMPTY, ops);
    var mine := set w | w in s.workItems && s.workItems[w].version == s.specifications[id].currentVersion;
    assert SpecificationOk(s, id);
    forall w | w in mine
      ensures s.specifications[id].status == SpecificationStatusApproved
      ensures forall v :: v in mine ==> v == w
    {
      assert WorkItemOk(s, w);
    }
    if s.specifications[id].status == SpecificationStatusApproved {
      assert Generated(s.workItems, s.specifications[id].currentVersion);
      var w :| w in s.workItems && s.workItems[w].version == s.specifications[id].currentVersion;
      assert w in mine;
      Singleton(mine, w);
    }
  }

  /** A READY work item has exactly one ready event, and no other work item any. */
  lemma ReadyMeansOneEvent(ops: seq<Operation>, id: int)
    requires id in Run(EMPTY, ops).workItems
    ensures var s := Run(EMPTY, ops);
            var mine := set e | e in s.outbox && s.outbox[e].workItem == id;
            |mine| == if s.workItems[id].status == Ready then 1 else 0
  {
    hide Run;
    RunInv(EMPTY, ops);
    var s := Run(EMPTY, ops);
    var mine := set e | e in s.outbox && s.outbox[e].workItem == id;
    forall e | e in mine
      ensures s.workItems[id].status == Ready
      ensures forall f :: f in mine ==> f == e
    {
      assert EventOk(s, e);
    }
    if s.workItems[id].status == Ready {
      assert Announced(s.outbox, id);
      var e :| e in s.outbox && s.outbox[e].workItem == id;
      assert e in mine;
      Singleton(mine, e);
    }
  }

  /** The chain behind an event: work item, version, specification, intake. */
  ghost predicate Traced(s: Store, event: ReadyEvent, item: WorkItemRow, version: VersionRow,
      specification: SpecificationRow, intake: IntakeRow) {
    && event.workItem in s.workItems && item == s.workItems[event.workItem]
    && item.version in s.versions && version == s.versions[item.version]
    && version.specification in s.specifications && specification == s.specifications[version.specification]
    && specification.intake in s.intakes && intake == s.intakes[specification.intake]
  }

  /** The rows an event of a consistent store was made from. */
  lemma TraceEvent(s: Store, e: int)
    returns (item: WorkItemRow, version: VersionRow, specification: SpecificationRow, intake: IntakeRow)
    requires Inv(s) && e in s.outbox
    ensures Faithful(s, s.outbox[e], item, version, specification, intake)
  {
    assert EventOk(s, e);
    assert WorkItemOk(s, s.outbox[e].workItem);
    item := s.workItems[s.outbox[e].workItem];
    version := s.versions[item.version];
    assert SpecificationOk(s, version.specification);
    specification := s.specifications[version.specification];
    intake := s.intakes[specification.intake];
  }

  /** A ready event carries version 3, a valid budget, the title drafted for the specification that a reviewer
      approved, and the problem and required functionality of the intake it was drafted from. */
  ghost predicate Faithful(s: Store, event: ReadyEvent, item: WorkItemRow, version: VersionRow,
      specification: SpecificationRow, intake: IntakeRow) {
    && Traced(s, event, item, version, specification, intake)
    && item.status == Ready && event.aggregateVersion == 3 && event.budget.Valid()
    && specification.status == SpecificationStatusApproved && intake.status == SpecificationApproved
    && event.title == version.title
    && event.description == intake.problem && event.criteria == intake.functionality
    && event.project == intake.project
  }

  /** Provenance, for every run of the control plane. */
  lemma EventComesFromIntake(ops: seq<Operation>, e: int)
    returns (item: WorkItemRow, version: VersionRow, specification: SpecificationRow, intake: IntakeRow)
    requires e in Run(EMPTY, ops).outbox
    ensures Faithful(Run(EMPTY, ops), Run(EMPTY, ops).outbox[e], item, version, specification, intake)
  {
    hide Run;
    RunInv(EMPTY, ops);
    item, version, specification, intake := TraceEvent(Run(EMPTY, ops), e);
  }

  lemma ConsistentRun(ops: seq<Operation>)
    ensures Inv(Run(EMPTY, ops))
  {
    hide Run;
    RunInv(EMPTY, ops);
  }

  lemma {:induction false} RunLast(s: Store, ops: seq<Operation>, op: Operation)
    ensures Run(s, ops + [op]) == Commit(Run(s, ops), op).GetOr(Run(s, ops))
    decreases |ops|
  {
    hide Commit;
    if ops == [] {
      assert ops + [op] == [op];
    } else {
      assert (ops + [op])[1..] == ops[1..] + [op];
      RunLast(Commit(s, ops[0]).GetOr(s), ops[1..], op);
    }
  }

  /** A row of an intake is what somebody submitted. */
  ghost predicate Submitted(ops: seq<Operation>, id: int, row: IntakeRow) {
    exists op :: op in ops && op.SubmitIntake? && op.intake == id && row.project == op.project
                 && row.problem == Strip(op.problem) && row.functionality == StripAll(op.functionality)
  }

  /** A version is what somebody drafted, from the intake of its specification. */
  ghost predicate DraftedBy(ops: seq<Operation>, s: Store, v: int)
    requires v in s.versions
  {
    exists op :: op in ops && op.DraftSpecification? && op.version == v && s.versions[v].title == Strip(op.title)
                 && s.versions[v].specification == op.specification
                 && op.specification in s.specifications && s.specifications[op.specification].intake == op.intake
  }

  /** A work item was generated when somebody approved the specification of its version. */
  ghost predicate ApprovedBy(ops: seq<Operation>, s: Store, w: int)
    requires w in s.workItems
  {
    s.workItems[w].version in s.versions
    && ApproveSpecification(s.versions[s.workItems[w].version].specification, w) in ops
  }

  /** An event was written when somebody readied its work item. */
  ghost predicate ReadiedBy(ops: seq<Operation>, e: int, event: ReadyEvent) {
    ReadyWorkItem(event.workItem, e, event.target, event.budget) in ops
  }

  ghost predicate Recorded(ops: seq<Operation>, s: Store) {
    && (forall project :: project in s.projects ==> CreateProject(project) in ops)
    && (forall id :: id in s.intakes ==> s.intakes[id].project in s.projects)
    && (forall id :: id in s.intakes ==> Submitted(ops, id, s.intakes[id]))
    && (forall v :: v in s.versions ==> DraftedBy(ops, s, v))
    && (forall w :: w in s.workItems ==> ApprovedBy(ops, s, w))
    && (forall e :: e in s.outbox ==> ReadiedBy(ops, e, s.outbox[e]))
  }

  lemma IntakesRecorded(ops: seq<Operation>, s: Store, op: Operation)
    requires Recorded(ops, s) && Commit(s, op).Some?
    ensures var n := Commit(s, op).value;
            && (forall project :: project in n.projects ==> CreateProject(project) in ops + [op])
            && (forall id :: id in n.intakes ==>
                  n.intakes[id].project in n.projects && Submitted(ops + [op], id, n.intakes[id]))
  {
    hide DraftedBy, ApprovedBy, ReadiedBy;
    var n := Commit(s, op).value;
    forall id | id in n.intakes
      ensures Submitted(ops + [op], id, n.intakes[id])
    {
      if id in s.intakes && n.intakes[id].problem == s.intakes[id].problem {
        var o :| o in ops && o.SubmitIntake? && o.intake == id && s.intakes[id].project == o.project
                 && s.intakes[id].problem == Strip(o.problem)
                 && s.intakes[id].functionality == StripAll(o.functionality);
        assert o in ops + [op];
      } else {
        assert op in ops + [op];
      }
    }
  }

  lemma VersionsRecorded(ops: seq<Operation>, s: Store, op: Operation)
    requires Inv(s) && Recorded(ops, s) && Commit(s, op).Some?
    ensures var n := Commit(s, op).value; forall v :: v in n.versions ==> DraftedBy(ops + [op], n, v)
  {
    hide Submitted, ApprovedBy, ReadiedBy, Inv;
    var n := Commit(s, op).value;
    forall v | v in n.versions
      ensures DraftedBy(ops + [op], n, v)
    {
      if v in s.versions {
        var o :| o in ops && o.DraftSpecification? && o.version == v && s.versions[v].title == Strip(o.title)
                 && s.versions[v].specification == o.specification
                 && o.specification in s.specifications && s.specifications[o.specification].intake == o.intake;
        assert o in ops + [op];
        assert n.specifications[o.specification].intake == o.intake;
      } else {
        assert op in ops + [op];
      }
    }
  }

  lemma ItemsRecorded(ops: seq<Operation>, s: Store, op: Operation)
    requires Inv(s) && Recorded(ops, s) && Commit(s, op).Some?
    ensures var n := Commit(s, op).value;
            && (forall w :: w in n.workItems ==> ApprovedBy(ops + [op], n, w))
            && (forall e :: e in n.outbox ==> ReadiedBy(ops + [op], e, n.outbox[e]))
  {
    hide Submitted, DraftedBy, Downstream, OneSpecificationEach;
    var n := Commit(s, op).value;
    if op.ApproveSpecification? {
      assert SpecificationOk(s, op.specification);
    }
    forall w | w in n.workItems
      ensures ApprovedBy(ops + [op], n, w)
    {
      assert w in s.workItems ==> ApprovedBy(ops, s, w);
    }
    assert forall e :: e in s.outbox ==> ReadiedBy(ops, e, s.outbox[e]);
  }

  lemma {:induction false} RunIsRecorded(ops: seq<Operation>)
    ensures Recorded(ops, Run(EMPTY, ops))
  {
    hide Submitted, DraftedBy, ApprovedBy, ReadiedBy, Inv, Commit, Run;
    if ops == [] {
      NothingRun();
    } else {
      var before, op := ops[..|ops| - 1], ops[|ops| - 1];
      RunIsRecorded(before);
      ConsistentRun(before);
      assert ops == before + [op];
      RunLast(EMPTY, before, op);
      var s := Run(EMPTY, before);
      if Commit(s, op).Some? {
        IntakesRecorded(before, s, op);
        VersionsRecorded(before, s, op);
        ItemsRecorded(before, s, op);
      } else {
        StillRecorded(before, s, op);
      }
    }
  }

  lemma NothingRun()
    ensures Run(EMPTY, []) == EMPTY
  {
  }

  lemma StillRecorded(ops: seq<Operation>, s: Store, op: Operation)
    requires Recorded(ops, s)
    ensures Recorded(ops + [op], s)
  {
    assert forall o :: o in ops ==> o in ops + [op];
  }

  /** From the request to the event: for every run of the control plane, an event says, stripped, what the submission,
      the draft and the readying said that it came from, with an approval in between. */
  lemma EventSaysWhatWasAsked(ops: seq<Operation>, e: int) returns (submit: Operation, draft: Operation)
    requires e in Run(EMPTY, ops).outbox
    ensures var event := Run(EMPTY, ops).outbox[e];
            && CreateProject(event.project) in ops
            && submit in ops && submit.SubmitIntake? && draft in ops && draft.DraftSpecification?
            && draft.intake == submit.intake
            && ApproveSpecification(draft.specification, event.workItem) in ops
            && ReadyWorkItem(event.workItem, e, event.target, event.budget) in ops
            && event.description == Strip(submit.problem) && event.criteria == StripAll(submit.functionality)
            && event.title == Strip(draft.title) && event.project == submit.project
  {
    hide Run, Inv, Strip, StripAll;
    ConsistentRun(ops);
    RunIsRecorded(ops);
    var s := Run(EMPTY, ops);
    var item, version, specification, intake := TraceEvent(s, e);
    assert DraftedBy(ops, s, item.version);
    draft :| draft in ops && draft.DraftSpecification? && draft.version == item.version
             && version.title == Strip(draft.title) && version.specification == draft.specification
             && draft.specification in s.specifications && s.specifications[draft.specification].intake == draft.intake;
    assert Submitted(ops, specification.intake, intake);
    submit :| submit in ops && submit.SubmitIntake? && submit.intake == specification.intake
              && intake.project == submit.project && intake.problem == Strip(submit.problem)
              && intake.functionality == StripAll(submit.functionality);
    assert ApprovedBy(ops, s, s.outbox[e].workItem);
  }
}
