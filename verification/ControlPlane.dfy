/** The control plane's path from an intake request to the event that readies a work item. */
module ControlPlane {
  import opened Wrappers

  datatype IntakeStatus = Received | ClarificationRequired | SpecificationDrafted | AwaitingApproval
      | SpecificationApproved

  datatype SpecificationStatus = Draft | SpecificationAwaitingApproval | SpecificationStatusApproved | Superseded

  datatype WorkItemStatus = InReview | Reviewed | Ready | Building | Verification | Delivered | Failed | AwaitingHuman

  datatype Budget = Budget(maxDurationSeconds: int, maxAttempts: int, maxTurns: int, maxCostMinor: int,
      currency: string) {
    /** The constructor raises for any other budget. */
    predicate Valid() {
      && maxDurationSeconds >= 1 && maxAttempts >= 1 && maxTurns >= 1
      && maxCostMinor >= 0
      && |currency| == 3 && IsUpper(currency)
    }
  }

  /** Some letter is upper case and none is lower case. */
  predicate IsUpper(text: string) {
    && (exists k :: 0 <= k < |text| && 'A' <= text[k] <= 'Z')
    && (forall k :: 0 <= k < |text| ==> !('a' <= text[k] <= 'z'))
  }

  /** The characters that `str.strip` removes. */
  predicate IsSpace(c: char) {
    || '\U{9}' <= c <= '\U{D}' || '\U{1C}' <= c <= ' ' || c == '\U{85}' || c == '\U{A0}' || c == '\U{1680}'
    || '\U{2000}' <= c <= '\U{200A}' || c == '\U{2028}' || c == '\U{2029}' || c == '\U{202F}' || c == '\U{205F}'
    || c == '\U{3000}'
  }

  predicate Blank(text: string) {
    forall k :: 0 <= k < |text| ==> IsSpace(text[k])
  }

  function Strip(text: string): (r: string)
    ensures r != "" ==> !IsSpace(r[0]) && !IsSpace(r[|r| - 1])
  {
    if text == "" then text
    else if IsSpace(text[0]) then Strip(text[1..])
    else if IsSpace(text[|text| - 1]) then Strip(text[..|text| - 1])
    else text
  }

  /** Only blanks at either end are lost. */
  lemma {:induction false} StripKeepsTheRest(text: string) returns (before: string, after: string)
    ensures text == before + Strip(text) + after && Blank(before) && Blank(after)
  {
    hide IsSpace;
    before, after := "", "";
    if text != "" && IsSpace(text[0]) {
      var rest;
      rest, after := StripKeepsTheRest(text[1..]);
      before := [text[0]] + rest;
      assert text == [text[0]] + text[1..];
    } else if text != "" && IsSpace(text[|text| - 1]) {
      var rest, n := "", |text| - 1;
      before, rest := StripKeepsTheRest(text[..n]);
      after := rest + [text[n]];
      assert text == text[..n] + [text[n]];
    }
  }

  /** Blanks and line ends are stripped, and nothing that prints in ASCII is. */
  lemma StripEnds(text: string)
    ensures Strip(text) != "" ==>
              var r := Strip(text);
              r[0] !in {' ', '\t', '\n', '\r'} && r[|r| - 1] !in {' ', '\t', '\n', '\r'}
    ensures text != "" && '!' <= text[0] <= '~' && '!' <= text[|text| - 1] <= '~' ==> Strip(text) == text
  {
  }

  function StripAll(items: seq<string>): (r: seq<string>)
    ensures |r| == |items| && forall k :: 0 <= k < |items| ==> r[k] == Strip(items[k])
  {
    seq(|items|, (k: int) requires 0 <= k < |items| => Strip(items[k]))
  }

  datatype Target = Target(repository: int, provider: int, pool: int)

  datatype IntakeRow = IntakeRow(project: int, problem: string, functionality: seq<string>, status: IntakeStatus)

  datatype SpecificationRow = SpecificationRow(
    project: int, intake: int, currentVersion: int, status: SpecificationStatus)

  /** Versions are written once. */
  datatype VersionRow = VersionRow(specification: int, title: string, problem: string, requirements: seq<string>)

  datatype WorkItemRow = WorkItemRow(
    project: int, version: int, title: string, description: string, criteria: seq<string>,
    status: WorkItemStatus, target: Option<Target>, budget: Option<Budget>, number: nat)

  datatype ReadyEvent = ReadyEvent(
    workItem: int, project: int, aggregateVersion: nat, target: Target, budget: Budget,
    title: string, description: string, criteria: seq<string>)

  class IntakeRequest {
    var row: IntakeRow

    constructor FromRow(row: IntakeRow)
      ensures this.row == row
    {
      this.row := row;
    }

    method MarkSpecificationDrafted() returns (ok: bool)
      modifies this
      ensures ok <==> old(row).status in {Received, ClarificationRequired}
      ensures row == if ok then old(row).(status := SpecificationDrafted) else old(row)
    {
      if row.status !in {Received, ClarificationRequired} {
        return false;
      }
      row := row.(status := SpecificationDrafted);
      return true;
    }

    method MarkAwaitingApproval() returns (ok: bool)
      modifies this
      ensures ok <==> old(row).status == SpecificationDrafted
      ensures row == if ok then old(row).(status := AwaitingApproval) else old(row)
    {
      if row.status != SpecificationDrafted {
        return false;
      }
      row := row.(status := AwaitingApproval);
      return true;
    }

    method MarkApproved() returns (ok: bool)
      modifies this
      ensures ok <==> old(row).status == AwaitingApproval
      ensures row == if ok then old(row).(status := SpecificationApproved) else old(row)
    {
      if row.status != AwaitingApproval {
        return false;
      }
      row := row.(status := SpecificationApproved);
      return true;
    }
  }

  class Specification {
    var row: SpecificationRow

    constructor FromRow(row: SpecificationRow)
      ensures this.row == row
    {
      this.row := row;
    }

    method SubmitForApproval() returns (ok: bool)
      modifies this
      ensures ok <==> old(row).status == Draft
      ensures row == if ok then old(row).(status := SpecificationAwaitingApproval) else old(row)
    {
      if row.status != Draft {
        return false;
      }
      row := row.(status := SpecificationAwaitingApproval);
      return true;
    }

    method Approve() returns (ok: bool)
      modifies this
      ensures ok <==> old(row).status == SpecificationAwaitingApproval
      ensures row == if ok then old(row).(status := SpecificationStatusApproved) else old(row)
    {
      if row.status != SpecificationAwaitingApproval {
        return false;
      }
      row := row.(status := SpecificationStatusApproved);
      return true;
    }
  }

  class WorkItem {
    var row: WorkItemRow

    constructor FromRow(row: WorkItemRow)
      ensures this.row == row
    {
      this.row := row;
    }

    method MarkReviewed() returns (ok: bool)
      modifies this
      ensures ok <==> old(row).status == InReview
      ensures row == if ok then old(row).(status := Reviewed, number := old(row).number + 1) else old(row)
    {
      if row.status != InReview {
        return false;
      }
      row := row.(status := Reviewed);
      row := row.(number := row.number + 1);
      return true;
    }

    method MarkReady(target: Target, budget: Budget) returns (ok: bool)
      modifies this
      ensures ok <==> old(row).status == Reviewed
      ensures row == if ok
                     then old(row).(status := Ready, number := old(row).number + 1,
                                    target := Some(target), budget := Some(budget))
                     else old(row)
    {
      if row.status != Reviewed {
        return false;
      }
      row := row.(target := Some(target), budget := Some(budget));
      row := row.(status := Ready);
      row := row.(number := row.number + 1);
      return true;
    }
  }

  /** The committed rows of one organization. */
  datatype Store = Store(
    projects: set<int>,
    intakes: map<int, IntakeRow>,
    specifications: map<int, SpecificationRow>,
    versions: map<int, VersionRow>,
    workItems: map<int, WorkItemRow>,
    outbox: map<int, ReadyEvent>)

  /** Ids are the caller's fresh UUIDs; one that is taken violates a primary key. */
  datatype Operation =
    | CreateProject(project: int)
    | SubmitIntake(intake: int, project: int, problem: string, functionality: seq<string>)
    | DraftSpecification(intake: int, specification: int, version: int, title: string)
    | SubmitSpecification(specification: int)
    | ApproveSpecification(specification: int, workItem: int)
    | ReviewWorkItem(workItem: int)
    | ReadyWorkItem(workItem: int, event: int, target: Target, budget: Budget)

  function ReadyData(id: int, item: WorkItemRow, target: Target, budget: Budget): ReadyEvent {
    ReadyEvent(id, item.project, item.number, target, budget, item.title, item.description, item.criteria)
  }

  /** The rows an operation commits; None where it raises and rolls back. */
  function Commit(s: Store, op: Operation): Option<Store> {
    match op
    case CreateProject(project) =>
      if project in s.projects then None else Some(s.(projects := s.projects + {project}))
    case SubmitIntake(id, project, problem, functionality) =>
      if project !in s.projects || id in s.intakes then None
      else
        var intake := IntakeRow(project, Strip(problem), StripAll(functionality), Received);
        Some(s.(intakes := s.intakes[id := intake]))
    case DraftSpecification(id, specification, version, title) =>
      if id !in s.intakes || specification in s.specifications || version in s.versions then None
      else
        var intake := s.intakes[id];
        if intake.status !in {Received, ClarificationRequired} then None
        else Some(s.(
          intakes := s.intakes[id := intake.(status := SpecificationDrafted)],
          specifications := s.specifications[specification := SpecificationRow(intake.project, id, version, Draft)],
          versions := s.versions[version := VersionRow(
            specification, Strip(title), intake.problem, intake.functionality)]))
    case SubmitSpecification(id) =>
      if id !in s.specifications || s.specifications[id].intake !in s.intakes then None
      else
        var specification, intake := s.specifications[id], s.intakes[s.specifications[id].intake];
        if specification.status != Draft || intake.status != SpecificationDrafted then None
        else Some(s.(
          specifications := s.specifications[id := specification.(status := SpecificationAwaitingApproval)],
          intakes := s.intakes[specification.intake := intake.(status := AwaitingApproval)]))
    case ApproveSpecification(id, workItem) =>
      if id !in s.specifications || s.specifications[id].currentVersion !in s.versions
         || s.specifications[id].intake !in s.intakes || workItem in s.workItems then None
      else
        var specification, intake := s.specifications[id], s.intakes[s.specifications[id].intake];
        var version := s.versions[specification.currentVersion];
        if specification.status != SpecificationAwaitingApproval || intake.status != AwaitingApproval then None
        else Some(s.(
          specifications := s.specifications[id := specification.(status := SpecificationStatusApproved)],
          intakes := s.intakes[specification.intake := intake.(status := SpecificationApproved)],
          workItems := s.workItems[workItem := WorkItemRow(
            specification.project, specification.currentVersion, version.title, version.problem, version.requirements,
            InReview, None, None, 1)]))
    case ReviewWorkItem(id) =>
      if id !in s.workItems || s.workItems[id].status != InReview then None
      else
        var item := s.workItems[id].(status := Reviewed, number := s.workItems[id].number + 1);
        Some(s.(workItems := s.workItems[id := item]))
    case ReadyWorkItem(id, event, target, budget) =>
      if !budget.Valid() || id !in s.workItems || event in s.outbox || s.workItems[id].status != Reviewed then None
      else
        var item := s.workItems[id].(status := Ready, number := s.workItems[id].number + 1,
                                     target := Some(target), budget := Some(budget));
        Some(s.(workItems := s.workItems[id := item], outbox := s.outbox[event := ReadyData(id, item, target, budget)]))
  }

  /** What each command demands of the rows it finds; ids are those of the rows to be written. */
  lemma CommandsIff(s: Store, id: int, other: int, third: int, a: string, items: seq<string>)
    ensures Commit(s, SubmitIntake(id, other, a, items)).Some? <==> other in s.projects && id !in s.intakes
    ensures Commit(s, DraftSpecification(id, other, third, a)).Some? <==>
              && id in s.intakes && s.intakes[id].status in {Received, ClarificationRequired}
              && other !in s.specifications && third !in s.versions
    ensures Commit(s, SubmitSpecification(id)).Some? <==>
              && id in s.specifications && s.specifications[id].status == Draft
              && s.specifications[id].intake in s.intakes
              && s.intakes[s.specifications[id].intake].status == SpecificationDrafted
    ensures Commit(s, ApproveSpecification(id, other)).Some? <==>
              && id in s.specifications && s.specifications[id].status == SpecificationAwaitingApproval
              && s.specifications[id].intake in s.intakes && s.specifications[id].currentVersion in s.versions
              && s.intakes[s.specifications[id].intake].status == AwaitingApproval && other !in s.workItems
    ensures Commit(s, ReviewWorkItem(id)).Some? <==> id in s.workItems && s.workItems[id].status == InReview
  {
  }

  /** Readying needs a reviewed work item and a budget that the constructor lets pass. */
  lemma ReadyingIff(s: Store, id: int, event: int, target: Target, budget: Budget)
    ensures var c := budget.currency;
            |c| == 3 && (forall k :: 0 <= k < 3 ==> 'A' <= c[k] <= 'Z') ==>
              (Commit(s, ReadyWorkItem(id, event, target, budget)).Some? <==>
                && budget.maxDurationSeconds >= 1 && budget.maxAttempts >= 1 && budget.maxTurns >= 1
                && budget.maxCostMinor >= 0
                && id in s.workItems && s.workItems[id].status == Reviewed && event !in s.outbox)
    ensures var c := budget.currency;
            |c| != 3
            || (exists k :: 0 <= k < 3 && 'a' <= c[k] <= 'z')
            || (forall k :: 0 <= k < 3 ==> '0' <= c[k] <= '9') ==>
              Commit(s, ReadyWorkItem(id, event, target, budget)).None?
  {
    var c := budget.currency;
    if |c| == 3 && 'A' <= c[0] <= 'Z' {
      assert exists k :: 0 <= k < |c| && 'A' <= c[k] <= 'Z';
    }
  }

  /** A refused operation leaves the store as it was. */
  function Run(s: Store, ops: seq<Operation>): Store
    decreases |ops|
  {
    if ops == [] then s else Run(Commit(s, ops[0]).GetOr(s), ops[1..])
  }

  const EMPTY := Store({}, map[], map[], map[], map[], map[])

  class ControlPlaneService {
    var projects: set<int>
    var intakes: map<int, IntakeRow>
    var specifications: map<int, SpecificationRow>
    var versions: map<int, VersionRow>
    var workItems: map<int, WorkItemRow>
    var outbox: map<int, ReadyEvent>

    function Rows(): Store
      reads this
    {
      Store(projects, intakes, specifications, versions, workItems, outbox)
    }

    constructor ()
      ensures Rows() == EMPTY
    {
      projects := {};
      intakes, specifications, versions := map[], map[], map[];
      workItems, outbox := map[], map[];
    }

    method SubmitIntake(id: int, project: int, problem: string, functionality: seq<string>) returns (ok: bool)
      modifies this
      ensures ok <==> Commit(old(Rows()), Operation.SubmitIntake(id, project, problem, functionality)).Some?
      ensures Rows() == Commit(old(Rows()),
              Operation.SubmitIntake(id, project, problem, functionality)).GetOr(old(Rows()))
    {
      if project !in projects || id in intakes {
        return false;
      }
      intakes := intakes[id := IntakeRow(project, Strip(problem), StripAll(functionality), Received)];
      return true;
    }

    method DraftSpecification(id: int, specification: int, version: int, title: string) returns (ok: bool)
      modifies this
      ensures ok <==> Commit(old(Rows()), Operation.DraftSpecification(id, specification, version, title)).Some?
      ensures Rows() == Commit(old(Rows()),
              Operation.DraftSpecification(id, specification, version, title)).GetOr(old(Rows()))
    {
      if id !in intakes || specification in specifications || version in versions {
        return false;
      }
      var intake := new IntakeRequest.FromRow(intakes[id]);
      ok := intake.MarkSpecificationDrafted();
      if !ok {
        return;
      }
      versions := versions[version := VersionRow(
        specification, Strip(title), intake.row.problem, intake.row.functionality)];
      intakes := intakes[id := intake.row];
      specifications := specifications[specification := SpecificationRow(intake.row.project, id, version, Draft)];
    }

    method SubmitSpecification(id: int) returns (ok: bool)
      modifies this
      ensures ok <==> Commit(old(Rows()), Operation.SubmitSpecification(id)).Some?
      ensures Rows() == Commit(old(Rows()), Operation.SubmitSpecification(id)).GetOr(old(Rows()))
    {
      if id !in specifications || specifications[id].intake !in intakes {
        return false;
      }
      var specification := new Specification.FromRow(specifications[id]);
      var intake := new IntakeRequest.FromRow(intakes[specification.row.intake]);
      ok := specification.SubmitForApproval();
      if !ok {
        return;
      }
      ok := intake.MarkAwaitingApproval();
      if !ok {
        return;
      }
      specifications := specifications[id := specification.row];
      intakes := intakes[specification.row.intake := intake.row];
    }

    method ApproveSpecification(id: int, workItem: int) returns (ok: bool)
      modifies this
      ensures ok <==> Commit(old(Rows()), Operation.ApproveSpecification(id, workItem)).Some?
      ensures Rows() == Commit(old(Rows()), Operation.ApproveSpecification(id, workItem)).GetOr(old(Rows()))
    {
      if id !in specifications || specifications[id].currentVersion !in versions
         || specifications[id].intake !in intakes || workItem in workItems {
        return false;
      }
      var specification := new Specification.FromRow(specifications[id]);
      var version := versions[specification.row.currentVersion];
      var intake := new IntakeRequest.FromRow(intakes[specification.row.intake]);
      ok := specification.Approve();
      if !ok {
        return;
      }
      ok := intake.MarkApproved();
      if !ok {
        return;
      }
      specifications := specifications[id := specification.row];
      intakes := intakes[specification.row.intake := intake.row];
      workItems := workItems[workItem := WorkItemRow(
        specification.row.project, specification.row.currentVersion, version.title, version.problem,
        version.requirements,
        InReview, None, None, 1)];
    }

    method ReviewWorkItem(id: int) returns (ok: bool)
      modifies this
      ensures ok <==> Commit(old(Rows()), Operation.ReviewWorkItem(id)).Some?
      ensures Rows() == Commit(old(Rows()), Operation.ReviewWorkItem(id)).GetOr(old(Rows()))
    {
      if id !in workItems {
        return false;
      }
      var item := new WorkItem.FromRow(workItems[id]);
      ok := item.MarkReviewed();
      workItems := workItems[id := item.row];
    }

    method ReadyWorkItem(id: int, event: int, target: Target, budget: Budget) returns (ok: bool)
      modifies this
      ensures ok <==> Commit(old(Rows()), Operation.ReadyWorkItem(id, event, target, budget)).Some?
      ensures Rows() == Commit(old(Rows()), Operation.ReadyWorkItem(id, event, target, budget)).GetOr(old(Rows()))
    {
      if !budget.Valid() || id !in workItems || event in outbox {
        return false;
      }
      var item := new WorkItem.FromRow(workItems[id]);
      ok := item.MarkReady(target, budget);
      if !ok {
        return;
      }
      workItems := workItems[id := item.row];
      outbox := outbox[event := ReadyData(id, item.row, target, budget)];
    }
  }
}
