/** One job on a runner: the agent, the independent validator, and the publish path with its bounded rebase loop.
    Git is a list of actions on a workspace; the outside world answers each operation or makes it raise. */
module RunnerDaemon {
  import opened Wrappers
  import opened Executions
  import opened RunnerJobs

  /** What has been done to the workspace and with it. A commit or a rebase gives HEAD a new name. */
  datatype Action =
    | Cloned(base: string)
    | AgentRan
    | Validated(passed: bool)
    | Committed(head: string)
    | Fetched(remote: string)
    | Rebased(onto: string, head: string)
    | Pushed(head: string)

  /** The answers of git, the remote and the validator, by number of the operation; any of them may raise. */
  datatype World = World(raises: nat -> bool, name: nat -> string, passes: nat -> bool)

  ghost predicate NoFault(world: World) {
    forall n: nat :: !world.raises(n)
  }

  /** Nothing raises and every validation passes. */
  ghost predicate Smooth(world: World) {
    NoFault(world) && forall n: nat :: world.passes(n)
  }

  /** The revision the workspace is based on. */
  function Base(trace: seq<Action>): Option<string> {
    if trace == [] then None
    else
      match trace[|trace| - 1]
      case Cloned(base) => Some(base)
      case Rebased(onto, _) => Some(onto)
      case _ => Base(trace[..|trace| - 1])
  }

  /** The last remote head the runner has seen. */
  function Remote(trace: seq<Action>): Option<string> {
    if trace == [] then None
    else
      match trace[|trace| - 1]
      case Cloned(base) => Some(base)
      case Fetched(remote) => Some(remote)
      case _ => Remote(trace[..|trace| - 1])
  }

  function Head(trace: seq<Action>): Option<string> {
    if trace == [] then None
    else
      match trace[|trace| - 1]
      case Committed(head) => Some(head)
      case Rebased(_, head) => Some(head)
      case _ => Head(trace[..|trace| - 1])
  }

  function Rebases(trace: seq<Action>): nat {
    if trace == [] then 0
    else Rebases(trace[..|trace| - 1]) + (if trace[|trace| - 1].Rebased? then 1 else 0)
  }

  /** The last validation passed, and nothing has changed the workspace since. */
  ghost predicate Verified(trace: seq<Action>) {
    exists i :: 0 <= i < |trace| && trace[i] == Validated(true)
                && forall j :: i < j < |trace| ==> !trace[j].AgentRan? && !trace[j].Rebased? && !trace[j].Validated?
  }

  /** A push of HEAD, of verified content, on top of the last remote head seen, after at most two rebases. */
  ghost predicate SafePush(trace: seq<Action>, i: nat)
    requires i < |trace|
  {
    trace[i].Pushed? ==>
      && Head(trace[..i]) == Some(trace[i].head)
      && Verified(trace[..i])
      && Base(trace[..i]).Some? && Base(trace[..i]) == Remote(trace[..i])
      && Rebases(trace[..i]) <= 2
  }

  ghost predicate PublishedSafely(trace: seq<Action>) {
    forall i :: 0 <= i < |trace| ==> SafePush(trace, i)
  }

  predicate TouchesWorkflows(paths: seq<string>) {
    exists k :: 0 <= k < |paths| && ".github/workflows/" <= paths[k]
  }

  /** What the agent container left behind; `staged` are the paths git lists as changed. */
  datatype AgentRun = AgentRun(success: bool, turns: nat, events: seq<AgentEvent>, staged: seq<string>)

  /** A report the service may rely on: evidence means the agent succeeded, the workspace as it stands was
      validated, no workflow file was touched, and a connected repository has received exactly that commit. */
  ghost predicate Faithful(connected: bool, run: AgentRun, trace: seq<Action>, report: Completion) {
    && PublishedSafely(trace)
    && (report.Evidence() ==>
          && run.success && !TouchesWorkflows(run.staged)
          && Verified(trace) && Head(trace) == Some(report.commitSha)
          && (connected ==> trace != [] && trace[|trace| - 1] == Pushed(report.commitSha)))
  }

  const NO_COMMIT := "0000000000000000000000000000000000000000"

  /** `failed_job_result` */
  function FailedReport(): Completion {
    Completion(false, false, 0, 0, 0, NO_COMMIT, [AgentEvent("ERROR", "runner.job_failed")])
  }

  lemma VerifiedNow(trace: seq<Action>)
    ensures Verified(trace + [Validated(true)])
  {
    assert (trace + [Validated(true)])[|trace|] == Validated(true);
  }

  lemma StaysVerified(trace: seq<Action>, action: Action)
    requires Verified(trace) && !action.AgentRan? && !action.Rebased? && !action.Validated?
    ensures Verified(trace + [action])
  {
    var i :| 0 <= i < |trace| && trace[i] == Validated(true)
             && forall j :: i < j < |trace| ==> !trace[j].AgentRan? && !trace[j].Rebased? && !trace[j].Validated?;
    assert (trace + [action])[i] == Validated(true);
  }

  lemma StaysPublishedSafely(trace: seq<Action>, action: Action)
    requires PublishedSafely(trace)
    requires action.Pushed? ==>
               && Head(trace) == Some(action.head) && Verified(trace)
               && Base(trace).Some? && Base(trace) == Remote(trace) && Rebases(trace) <= 2
    ensures PublishedSafely(trace + [action])
  {
    var more := trace + [action];
    forall i | 0 <= i < |more|
      ensures SafePush(more, i)
    {
      if i < |trace| {
        assert SafePush(trace, i);
        assert more[..i] == trace[..i];
      } else {
        assert more[..i] == trace;
      }
    }
  }

  class Workspace {
    const world: World
    var trace: seq<Action>
    var operations: nat

    constructor (world: World)
      ensures this.world == world && trace == [] && operations == 0
    {
      this.world := world;
      trace := [];
      operations := 0;
    }

    /** An operation that only reads, or asks another service for a credential. */
    method Consult() returns (ok: bool, name: string)
      modifies this
      ensures trace == old(trace) && operations == old(operations) + 1
      ensures ok <==> !world.raises(old(operations))
      ensures name == world.name(old(operations))
    {
      ok, name := !world.raises(operations), world.name(operations);
      operations := operations + 1;
    }

    method Perform(action: Action) returns (ok: bool)
      modifies this
      ensures operations == old(operations) + 1
      ensures ok <==> !world.raises(old(operations))
      ensures trace == if ok then old(trace) + [action] else old(trace)
    {
      ok := !world.raises(operations);
      operations := operations + 1;
      if ok {
        trace := trace + [action];
      }
    }
  }

  /** The workspace may be pushed as it is: it was validated as it stands, on top of the last remote head seen. */
  ghost predicate ReadyToPush(trace: seq<Action>, base: string) {
    && PublishedSafely(trace) && Verified(trace)
    && Base(trace) == Some(base) && Remote(trace) == Some(base) && Head(trace).Some?
  }

  lemma AppendedActions(trace: seq<Action>, action: Action)
    ensures (trace + [action])[..|trace|] == trace
    ensures Base(trace + [action]) == match action
                                      case Cloned(base) => Some(base)
                                      case Rebased(onto, _) => Some(onto)
                                      case _ => Base(trace)
    ensures Remote(trace + [action]) == match action
                                        case Cloned(base) => Some(base)
                                        case Fetched(remote) => Some(remote)
                                        case _ => Remote(trace)
    ensures Head(trace + [action]) == match action
                                      case Committed(head) => Some(head)
                                      case Rebased(_, head) => Some(head)
                                      case _ => Head(trace)
    ensures Rebases(trace + [action]) == Rebases(trace) + (if action.Rebased? then 1 else 0)
  {
  }

  /** The loop before the push: fetch, and while the remote has moved, rebase and validate again, twice at most. */
  method CatchUp(w: Workspace, cloned: string) returns (ok: bool, base: string)
    requires ReadyToPush(w.trace, cloned) && Rebases(w.trace) == 0
    modifies w
    ensures PublishedSafely(w.trace)
    ensures ok ==> ReadyToPush(w.trace, base) && Rebases(w.trace) <= 2
    ensures ok ==> Rebases(w.trace) == 2 || w.trace[|w.trace| - 1] == Fetched(base)
    ensures old(w.trace) <= w.trace
    ensures Smooth(w.world) ==> ok
  {
    base := cloned;
    for round := 0 to 2
      invariant ReadyToPush(w.trace, base) && Rebases(w.trace) == round
      invariant old(w.trace) <= w.trace
    {
      ok := ReadCredential(w);
      if !ok { return; }
      var remote := w.world.name(w.operations);
      ghost var before := w.trace;
      ok := w.Perform(Fetched(remote));
      if !ok { return; }
      AppendedActions(before, Fetched(remote));
      StaysVerified(before, Fetched(remote));
      StaysPublishedSafely(before, Fetched(remote));
      ok := Read(w);
      if !ok { return; }
      if remote == base {
        break;
      }
      ok := RebaseAndValidate(w, remote);
      if !ok { return; }
      base := remote;
    }
    ok := true;
  }

  method Read(w: Workspace) returns (ok: bool)
    modifies w
    ensures w.trace == old(w.trace)
    ensures NoFault(w.world) ==> ok
  {
    var name;
    ok, name := w.Consult();
  }

  /** A capability from the delivery service, exchanged for a credential at the integrations service. */
  method ReadCredential(w: Workspace) returns (ok: bool)
    modifies w
    ensures w.trace == old(w.trace)
    ensures NoFault(w.world) ==> ok
  {
    ok := Read(w);
    if ok {
      ok := Read(w);
    }
  }

  method RebaseAndValidate(w: Workspace, remote: string) returns (ok: bool)
    requires PublishedSafely(w.trace) && Remote(w.trace) == Some(remote)
    modifies w
    ensures PublishedSafely(w.trace)
    ensures ok ==> ReadyToPush(w.trace, remote) && Rebases(w.trace) == old(Rebases(w.trace)) + 1
    ensures old(w.trace) <= w.trace
    ensures Smooth(w.world) ==> ok
  {
    var rebase := Rebased(remote, w.world.name(w.operations));
    ghost var before := w.trace;
    ok := w.Perform(rebase);
    if !ok { return; }
    AppendedActions(before, rebase);
    StaysPublishedSafely(before, rebase);
    var passed := w.world.passes(w.operations);
    ghost var rebased := w.trace;
    ok := w.Perform(Validated(passed));
    if !ok { return; }
    AppendedActions(rebased, Validated(passed));
    StaysPublishedSafely(rebased, Validated(passed));
    ok := passed;
    if passed {
      VerifiedNow(rebased);
    }
  }

  /** HEAD goes out as it is. */
  method Push(w: Workspace, base: string) returns (ok: bool)
    requires ReadyToPush(w.trace, base) && Rebases(w.trace) <= 2
    modifies w
    ensures PublishedSafely(w.trace)
    ensures ok ==> w.trace == old(w.trace) + [Pushed(Head(old(w.trace)).value)]
    ensures ok ==> Head(w.trace) == Head(old(w.trace)) && Verified(w.trace)
    ensures !ok ==> w.trace == old(w.trace)
    ensures NoFault(w.world) ==> ok
  {
    ok := ReadCredential(w);
    if !ok { return; }
    ghost var ready := w.trace;
    var push := Pushed(Head(w.trace).value);
    ok := w.Perform(push);
    if !ok { return; }
    AppendedActions(ready, push);
    StaysVerified(ready, push);
    StaysPublishedSafely(ready, push);
  }

  /** Commit what the validator has passed and, for a connected repository, catch up with the remote and push. */
  method CommitAndPublish(w: Workspace, connected: bool, cloned: string, staged: seq<string>)
    returns (ok: bool, commitSha: string)
    requires PublishedSafely(w.trace) && Verified(w.trace) && Rebases(w.trace) == 0
    requires connected ==> Base(w.trace) == Some(cloned) && Remote(w.trace) == Some(cloned)
    modifies w
    ensures PublishedSafely(w.trace)
    ensures ok ==> !TouchesWorkflows(staged) && Verified(w.trace) && Head(w.trace) == Some(commitSha)
    ensures ok && connected ==> w.trace != [] && w.trace[|w.trace| - 1] == Pushed(commitSha)
    ensures (exists k :: 0 <= k < |staged| && ".github/workflows/" <= staged[k]) ==> !ok && w.trace == old(w.trace)
    ensures old(w.trace) <= w.trace
    ensures ok ==> |w.trace| > |old(w.trace)| && w.trace[|old(w.trace)|].Committed?
    ensures ok && !connected ==> |w.trace| == |old(w.trace)| + 1
    ensures Smooth(w.world) && (forall k :: 0 <= k < |staged| ==> !(".github/workflows/" <= staged[k])) ==> ok
  {
    hide PublishedSafely, Verified, Base, Remote, Rebases;
    commitSha := NO_COMMIT;
    ok := Read(w);
    if !ok { return; }
    ok := Read(w);
    if !ok { return; }
    if TouchesWorkflows(staged) {
      ok := false;
      return;
    }
    var commit := Committed(w.world.name(w.operations));
    ghost var before := w.trace;
    ok := w.Perform(commit);
    if !ok { return; }
    AppendedActions(before, commit);
    StaysVerified(before, commit);
    StaysPublishedSafely(before, commit);
    if connected {
      var base;
      ok, base := CatchUp(w, cloned);
      if !ok { return; }
      ok := Push(w, base);
      if !ok { return; }
    }
    commitSha := Head(w.trace).value;
    ok := Read(w);
    if !ok { return; }
    ok := Read(w);
  }

  /** A clone of the connected repository, or a fresh local one for the development substitute. */
  method Provision(w: Workspace, hasRepository: bool, substitute: bool)
    returns (ok: bool, connected: bool, cloned: string)
    requires w.trace == []
    modifies w
    ensures PublishedSafely(w.trace)
    ensures ok ==> connected == (hasRepository && !substitute) && Rebases(w.trace) == 0
    ensures ok && connected ==> Base(w.trace) == Some(cloned) && Remote(w.trace) == Some(cloned)
    ensures ok ==> |w.trace| == 1 && (if connected then w.trace[0] == Cloned(cloned) else w.trace[0].Committed?)
    ensures NoFault(w.world) ==> ok
  {
    assert PublishedSafely(w.trace);
    hide PublishedSafely;
    cloned := "";
    connected := hasRepository;
    if connected {
      ok := ReadCredential(w);
      if !ok { return; }
      connected := !substitute;
    }
    if connected {
      cloned := w.world.name(w.operations);
    }
    var first := if connected then Cloned(cloned) else Committed(w.world.name(w.operations));
    ghost var empty := w.trace;
    ok := w.Perform(first);
    if !ok { return; }
    AppendedActions(empty, first);
    StaysPublishedSafely(empty, first);
    ok := Read(w);
  }

  method RunAgent(w: Workspace) returns (ok: bool, passed: bool)
    requires PublishedSafely(w.trace)
    modifies w
    ensures PublishedSafely(w.trace)
    ensures ok ==> Base(w.trace) == old(Base(w.trace)) && Remote(w.trace) == old(Remote(w.trace))
                   && Rebases(w.trace) == old(Rebases(w.trace))
    ensures ok && passed ==> Verified(w.trace)
    ensures ok ==> w.trace == old(w.trace) + [AgentRan, Validated(passed)]
    ensures NoFault(w.world) ==> ok
    ensures Smooth(w.world) ==> passed
  {
    passed := false;
    ghost var provided := w.trace;
    ok := w.Perform(AgentRan);
    if !ok { return; }
    AppendedActions(provided, AgentRan);
    StaysPublishedSafely(provided, AgentRan);
    passed := w.world.passes(w.operations);
    ghost var ran := w.trace;
    ok := w.Perform(Validated(passed));
    if !ok { return; }
    AppendedActions(ran, Validated(passed));
    StaysPublishedSafely(ran, Validated(passed));
    VerifiedNow(ran);
  }

  /** `run_job`; None where it raises. */
  method RunJob(w: Workspace, hasRepository: bool, substitute: bool, run: AgentRun, duration: nat)
    returns (report: Option<Completion>)
    requires w.trace == []
    modifies w
    ensures PublishedSafely(w.trace)
    ensures report.Some? ==> Faithful(hasRepository && !substitute, run, w.trace, report.value)
    ensures report.Some? ==> Says(report.value, run.success, run.turns, duration, run.events)
    ensures report.Some? ==> Worked(hasRepository && !substitute, w.trace, report.value)
    ensures NoFault(w.world) ==> |w.trace| >= 3 && w.trace[2].Validated?
    ensures NoFault(w.world) && (w.trace[2] == Validated(false) || !run.success) ==> report.Some?
    ensures Smooth(w.world) && !TouchesWorkflows(run.staged) ==>
              report.Some? && (report.value.Evidence() <==> run.success)
  {
    hide PublishedSafely, Verified;
    report := None;
    var ok, connected, cloned := Provision(w, hasRepository, substitute);
    if !ok { return; }
    var passed;
    ok, passed := RunAgent(w);
    if !ok { return; }
    var commitSha := NO_COMMIT;
    if run.success && passed {
      ok, commitSha := CommitAndPublish(w, connected, cloned, run.staged);
      if !ok { return; }
    }
    report := Some(Completion(run.success, passed, run.turns, duration, 0, commitSha, run.events));
  }

  /** What a report says about the agent and what it charges: one attempt, the agent's turns, the seconds the job
      took, and no money. */
  predicate Says(report: Completion, success: bool, turns: nat, seconds: nat, events: seq<AgentEvent>) {
    && report.agentSuccess == success && report.events == events
    && report.Charge() == Usage(1, turns, seconds, 0)
  }

  /** How a job went that did not raise: the workspace was provided, the agent ran, the validator judged; only then,
      and only with evidence, was anything committed, and for a connected repository pushed at the end. Without
      evidence the reported commit is forty zeros. */
  predicate Worked(connected: bool, trace: seq<Action>, report: Completion) {
    && |trace| >= 3
    && (if connected then trace[0].Cloned? else trace[0].Committed?)
    && trace[1] == AgentRan && trace[2] == Validated(report.validationPassed)
    && (if report.Evidence() then
          && |trace| > 3 && trace[3].Committed? && (!connected ==> |trace| == 4)
        else
          && |trace| == 3
          && |report.commitSha| == 40 && forall k :: 0 <= k < 40 ==> report.commitSha[k] == '0')
  }

  /** One turn of the daemon: whatever raises becomes a failed report. */
  method Work(w: Workspace, hasRepository: bool, substitute: bool, run: AgentRun, duration: nat)
    returns (report: Completion, raised: bool)
    requires w.trace == []
    modifies w
    ensures Faithful(hasRepository && !substitute, run, w.trace, report)
    ensures if raised then Says(report, false, 0, 0, [AgentEvent("ERROR", "runner.job_failed")])
            else Says(report, run.success, run.turns, duration, run.events)
    ensures raised ==> !report.validationPassed
    ensures !raised ==> Worked(hasRepository && !substitute, w.trace, report)
    ensures NoFault(w.world) && (!run.success || |w.trace| < 3 || w.trace[2] == Validated(false)) ==> !raised
    ensures Smooth(w.world) && !TouchesWorkflows(run.staged) ==> !raised && (report.Evidence() <==> run.success)
  {
    var result := RunJob(w, hasRepository, substitute, run, duration);
    match result
    case Some(completed) => report, raised := completed, false;
    case None => report, raised := FailedReport(), true;
  }
}
