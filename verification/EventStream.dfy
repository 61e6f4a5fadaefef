/** The server-sent event stream over an execution's timeline, and its resumption after a lost connection. */
module EventStream {
  import opened Wrappers
  import opened Executions
  import opened RunnerJobs
  import opened DeliveryTransactions
  import opened DeliveryProtocol
  import opened DeliveryInvariant
  import opened DeliverySafety
  import opened DeliveryCancellation
  import opened DeliveryProgress

  const IDLE_LIMIT := 300

  predicate Terminal(status: Status) {
    status in {Delivered, Status.Failed, Cancelled}
  }

  /** `list_events`: the query orders by sequence, which is the order in which the events were appended. */
  function Later(log: seq<Event>, after: int): seq<Event> {
    if log == [] then []
    else
      var last := log[|log| - 1];
      Later(log[..|log| - 1], after) + (if last.sequence > after then [last] else [])
  }

  function Skipped(log: seq<Event>, after: int): (n: nat)
    ensures n <= |log|
  {
    if after < 0 then 0 else if after > |log| then |log| else after
  }

  lemma {:induction false} LaterIsSuffix(log: seq<Event>, after: int)
    requires Numbered(log)
    ensures Later(log, after) == log[Skipped(log, after)..]
  {
    if log != [] {
      var n := |log| - 1;
      assert log[n].sequence == n + 1;
      LaterIsSuffix(log[..n], after);
      SuffixOfOneMore(log, if n + 1 > after then Skipped(log, after) else n + 1);
    }
  }

  lemma SuffixOfOneMore<T>(s: seq<T>, k: nat)
    requires s != [] && k <= |s|
    ensures var n := |s| - 1; s[k..] == if k <= n then s[..n][k..] + [s[n]] else []
  {
  }

  /** A client gets the events after its cursor, each once, in order and without a gap. */
  lemma {:induction false} FramesAreContiguous(log: seq<Event>, after: int)
    requires Numbered(log)
    ensures var first := if after < 0 then 1 else after + 1;
            && |Later(log, after)| == (if |log| < first then 0 else |log| + 1 - first)
            && forall k :: 0 <= k < |Later(log, after)| ==> Later(log, after)[k].sequence == first + k
  {
    LaterIsSuffix(log, after);
  }

  /** The id a client sends back in `Last-Event-ID`: that of the last event it has seen. */
  function LastId(frames: seq<Event>, after: int): int {
    if frames == [] then after else frames[|frames| - 1].sequence
  }

  /** Resuming after the last event seen neither repeats nor skips anything. */
  lemma {:induction false} ResumesWhereItStopped(log: seq<Event>, later: seq<Event>, after: int)
    requires log <= later && Numbered(later)
    ensures Later(later, after) == Later(log, after) + Later(later, LastId(Later(log, after), after))
  {
    hide Later;
    var id := LastId(Later(log, after), after);
    assert Numbered(log);
    LaterIsSuffix(log, after);
    LaterIsSuffix(later, after);
    LaterIsSuffix(later, id);
    if Skipped(log, after) < |log| {
      assert id == |log|;
      Split(log, later, Skipped(log, after));
    }
  }

  lemma Split<T>(a: seq<T>, b: seq<T>, k: nat)
    requires a <= b && k <= |a|
    ensures b[k..] == a[k..] + b[|a|..]
  {
  }

  /** What one turn of the loop polls, in two statements. */
  datatype Cycle = Cycle(log: seq<Event>, status: Option<Status>)

  ghost predicate Growing(cycles: seq<Cycle>) {
    && (forall i :: 0 <= i < |cycles| ==> Numbered(cycles[i].log))
    && (forall i, j :: 0 <= i <= j < |cycles| ==> cycles[i].log <= cycles[j].log)
  }

  datatype Ending = Disconnected | Finished | Idle

  function Sent(cycles: seq<Cycle>, polled: nat, after: int): seq<Event>
    requires polled <= |cycles|
  {
    if polled == 0 then [] else Later(cycles[polled - 1].log, after)
  }

  /** The stream has seen a terminal status in a turn that brought no event. */
  predicate EndsFinished(cycles: seq<Cycle>, polled: nat, after: int)
    requires polled <= |cycles|
  {
    && polled > 0 && cycles[polled - 1].status in {Some(Delivered), Some(Status.Failed), Some(Cancelled)}
    && Sent(cycles, polled, after) == Sent(cycles, polled - 1, after)
  }

  /** The last 300 turns brought nothing. */
  predicate EndsIdle(cycles: seq<Cycle>, polled: nat, after: int)
    requires polled <= |cycles|
  {
    polled >= 300 && Sent(cycles, polled, after) == Sent(cycles, polled - 300, after)
  }

  /** `stream`, whose client disconnects at the end of `cycles` if the stream has not ended before. It ends at the
      first turn that sees a final status and brings nothing, or after 300 turns in a row that bring nothing. */
  method Stream(cycles: seq<Cycle>, after: int) returns (frames: seq<Event>, polled: nat, ending: Ending)
    requires Growing(cycles)
    ensures polled <= |cycles| && frames == Sent(cycles, polled, after)
    ensures forall k :: 0 < k < polled ==> !EndsFinished(cycles, k, after) && !EndsIdle(cycles, k, after)
    ensures ending == Finished <==> EndsFinished(cycles, polled, after)
    ensures ending == Idle <==> EndsIdle(cycles, polled, after) && !EndsFinished(cycles, polled, after)
    ensures ending == Disconnected ==> polled == |cycles|
    ensures polled <= 300 * (|frames| + 1)
  {
    hide Later, Sent, EndsFinished, EndsIdle;
    var current, idleCycles := after, 0;
    frames, polled := [], 0;
    NothingSent(cycles, after);
    while idleCycles < IDLE_LIMIT
      invariant polled <= |cycles| && idleCycles <= polled && 0 <= idleCycles <= IDLE_LIMIT
      invariant frames == Sent(cycles, polled, after) && current == LastId(frames, after)
      invariant IdleSince(cycles, polled, idleCycles, after)
      invariant polled <= IDLE_LIMIT * |frames| + idleCycles
      invariant forall k :: 0 < k < polled ==> !EndsFinished(cycles, k, after) && !EndsIdle(cycles, k, after)
      invariant !EndsFinished(cycles, polled, after) && (idleCycles < IDLE_LIMIT ==> !EndsIdle(cycles, polled, after))
      decreases |cycles| - polled
    {
      if polled == |cycles| {
        return frames, polled, Disconnected;
      }
      var cycle := cycles[polled];
      var events := Later(cycle.log, current);
      NextPoll(cycles, polled, after);
      ghost var before := frames;
      for i := 0 to |events|
        invariant frames == before + events[..i] && current == LastId(frames, after)
      {
        current := events[i].sequence;
        frames := frames + [events[i]];
      }
      assert events[..|events|] == events;
      OneMoreTurn(cycles, polled, idleCycles, after);
      polled := polled + 1;
      if events != [] {
        idleCycles := 0;
      } else {
        idleCycles := idleCycles + 1;
      }
      EndsIffIdleSince(cycles, polled, idleCycles, after);
      FinishesIff(cycles, polled, after);
      if cycle.status.Some? && Terminal(cycle.status.value) && events == [] {
        return frames, polled, Finished;
      }
    }
    EndsIffIdleSince(cycles, polled, idleCycles, after);
    ending := Idle;
  }

  /** The last `idle` turns brought nothing, and the one before them something. */
  predicate IdleSince(cycles: seq<Cycle>, polled: nat, idle: nat, after: int)
    requires polled <= |cycles|
  {
    && idle <= polled
    && Sent(cycles, polled - idle, after) == Sent(cycles, polled, after)
    && (idle < polled ==> |Sent(cycles, polled - idle - 1, after)| < |Sent(cycles, polled, after)|)
  }

  lemma OneMoreTurn(cycles: seq<Cycle>, polled: nat, idle: nat, after: int)
    requires Growing(cycles) && polled < |cycles| && IdleSince(cycles, polled, idle, after)
    ensures var brought := Later(cycles[polled].log, LastId(Sent(cycles, polled, after), after));
            IdleSince(cycles, polled + 1, if brought == [] then idle + 1 else 0, after)
  {
    hide Later, Sent;
    NextPoll(cycles, polled, after);
  }

  lemma {:induction false} SentGrows(cycles: seq<Cycle>, i: nat, j: nat, after: int)
    requires Growing(cycles) && i <= j <= |cycles|
    ensures |Sent(cycles, i, after)| <= |Sent(cycles, j, after)|
    decreases j
  {
    hide Later, Sent;
    if i < j {
      SentGrows(cycles, i, j - 1, after);
      NextPoll(cycles, j - 1, after);
    }
  }

  lemma EndsIffIdleSince(cycles: seq<Cycle>, polled: nat, idle: nat, after: int)
    requires Growing(cycles) && polled <= |cycles| && IdleSince(cycles, polled, idle, after) && idle <= IDLE_LIMIT
    ensures EndsIdle(cycles, polled, after) <==> idle == IDLE_LIMIT
  {
    hide Later, Sent;
    if idle < IDLE_LIMIT <= polled {
      SentGrows(cycles, polled - IDLE_LIMIT, polled - idle - 1, after);
    }
  }

  lemma FinishesIff(cycles: seq<Cycle>, polled: nat, after: int)
    requires Growing(cycles) && 0 < polled <= |cycles|
    ensures EndsFinished(cycles, polled, after) <==>
              && cycles[polled - 1].status.Some? && Terminal(cycles[polled - 1].status.value)
              && Later(cycles[polled - 1].log, LastId(Sent(cycles, polled - 1, after), after)) == []
  {
    hide Later, Sent;
    NextPoll(cycles, polled - 1, after);
  }

  lemma NothingSent(cycles: seq<Cycle>, after: int)
    ensures Sent(cycles, 0, after) == []
    ensures !EndsFinished(cycles, 0, after) && !EndsIdle(cycles, 0, after) && IdleSince(cycles, 0, 0, after)
  {
  }

  lemma NextPoll(cycles: seq<Cycle>, polled: nat, after: int)
    requires Growing(cycles) && polled < |cycles|
    ensures var sent := Sent(cycles, polled, after);
            Sent(cycles, polled + 1, after) == sent + Later(cycles[polled].log, LastId(sent, after))
  {
    if polled > 0 {
      ResumesWhereItStopped(cycles[polled - 1].log, cycles[polled].log, after);
    }
  }

  /** When a turn's two statements see an execution: after so many steps of its run. */
  datatype Read = Read(logAt: nat, statusAt: nat)

  predicate InOrder(polls: seq<Read>, length: nat) {
    && (forall i :: 0 <= i < |polls| ==> polls[i].logAt <= length && polls[i].statusAt <= length)
    && (forall i, j :: 0 <= i <= j < |polls| ==> polls[i].logAt <= polls[j].logAt)
  }

  function CyclesOf(s: Sys, steps: seq<Step>, polls: seq<Read>): (cycles: seq<Cycle>)
    requires InOrder(polls, |steps|)
    ensures |cycles| == |polls|
    ensures forall i :: 0 <= i < |polls| ==>
              cycles[i] == Cycle(Exec(s, steps[..polls[i].logAt]).db.log,
                                 Some(Exec(s, steps[..polls[i].statusAt]).db.execution.status))
  {
    seq(|polls|, (i: int) requires 0 <= i < |polls| && polls[i].logAt <= |steps| && polls[i].statusAt <= |steps| =>
      Cycle(Exec(s, steps[..polls[i].logAt]).db.log, Some(Exec(s, steps[..polls[i].statusAt]).db.execution.status)))
  }

  lemma LogGrows(s: Sys, steps: seq<Step>, i: nat, j: nat)
    requires i <= j <= |steps|
    ensures Exec(s, steps[..i]).db.log <= Exec(s, steps[..j]).db.log
  {
    hide Exec;
    assert steps[..j] == steps[..i] + steps[i..j];
    ExecAppend(s, steps[..i], steps[i..j]);
    TimelineGrows(Exec(s, steps[..i]), steps[i..j]);
  }

  lemma LogNumbered(pool: int, budget: Budget, now: int, steps: seq<Step>)
    requires budget.Valid()
    ensures Numbered(Exec(Initial(pool, budget, now), steps).db.log)
  {
    hide ControlInv, Charged;
    InitialInv(pool, budget, now);
    RunInv(Initial(pool, budget, now), steps);
  }

  /** Every run of the protocol, polled at any times, is a log that a stream can follow. */
  lemma RunsCanBeStreamed(pool: int, budget: Budget, now: int, steps: seq<Step>, polls: seq<Read>)
    requires budget.Valid() && InOrder(polls, |steps|)
    ensures Growing(CyclesOf(Initial(pool, budget, now), steps, polls))
  {
    hide Exec, Initial, Inv, Numbered;
    var s0 := Initial(pool, budget, now);
    var cycles := CyclesOf(s0, steps, polls);
    forall i | 0 <= i < |cycles|
      ensures Numbered(cycles[i].log)
    {
      LogNumbered(pool, budget, now, steps[..polls[i].logAt]);
    }
    forall i, j | 0 <= i <= j < |cycles|
      ensures cycles[i].log <= cycles[j].log
    {
      LogGrows(s0, steps, polls[i].logAt, polls[j].logAt);
    }
  }

  /** What a longer log still has for a client, who has seen the shorter one. */
  lemma MissingEvents(log: seq<Event>, end: seq<Event>, after: int)
    requires log <= end && Numbered(end)
    ensures var missing := Later(end, LastId(Later(log, after), after));
            && Later(end, after) == Later(log, after) + missing
            && (missing == [] <==> |log| == |end| || |end| <= after)
  {
    ResumesWhereItStopped(log, end, after);
    NumberedPrefix(log, end);
    hide Later, Numbered;
    FramesAreContiguous(log, after);
    FramesAreContiguous(end, LastId(Later(log, after), after));
  }

  lemma NumberedPrefix(log: seq<Event>, end: seq<Event>)
    requires log <= end && Numbered(end)
    ensures Numbered(log)
  {
  }

  function LogAfter(s: Sys, steps: seq<Step>, t: nat): seq<Event>
    requires t <= |steps|
  {
    Exec(s, steps[..t]).db.log
  }

  /** Step `t` appends an event that the client has asked for. */
  predicate AppendsPast(s: Sys, steps: seq<Step>, t: nat, after: int) {
    && t < |steps|
    && |LogAfter(s, steps, t + 1)| > |LogAfter(s, steps, t)| && |LogAfter(s, steps, t + 1)| > after
  }

  lemma {:induction false} SomeStepAppends(s: Sys, steps: seq<Step>, i: nat, j: nat, after: int) returns (t: nat)
    requires i <= j <= |steps|
    requires |LogAfter(s, steps, j)| > |LogAfter(s, steps, i)| && |LogAfter(s, steps, j)| > after
    ensures i <= t < j && AppendsPast(s, steps, t, after)
    decreases j
  {
    hide Exec;
    if |LogAfter(s, steps, j)| > |LogAfter(s, steps, j - 1)| {
      t := j - 1;
    } else {
      t := SomeStepAppends(s, steps, i, j - 1, after);
    }
  }

  /** Whether a stream that has finished kept something back, decided by the turn it ended in: reading events before
      the status, it shows all there was as of that status exactly when no step between the two reads appended an
      event past its cursor. Read in the other order, it would never keep such an event back. */
  lemma FinishedStreamIsCompleteIff(
    pool: int, budget: Budget, now: int, steps: seq<Step>, polls: seq<Read>, polled: nat, after: int)
    requires budget.Valid() && InOrder(polls, |steps|) && polled <= |polls|
    requires EndsFinished(CyclesOf(Initial(pool, budget, now), steps, polls), polled, after)
    ensures var s0, read := Initial(pool, budget, now), polls[polled - 1];
            var frames, seen := Sent(CyclesOf(s0, steps, polls), polled, after),
                Later(LogAfter(s0, steps, read.statusAt), after);
            && (read.logAt <= read.statusAt ==>
                  (frames == seen <==> forall t: nat :: read.logAt <= t < read.statusAt ==>
                      !AppendsPast(s0, steps, t, after)))
            && (read.statusAt <= read.logAt ==> seen <= frames)
  {
    hide Exec, Initial, Numbered, Later;
    var s0, read := Initial(pool, budget, now), polls[polled - 1];
    var atLog, atStatus := LogAfter(s0, steps, read.logAt), LogAfter(s0, steps, read.statusAt);
    LogNumbered(pool, budget, now, steps[..read.logAt]);
    LogNumbered(pool, budget, now, steps[..read.statusAt]);
    if read.logAt <= read.statusAt {
      LogGrows(s0, steps, read.logAt, read.statusAt);
      MissingEvents(atLog, atStatus, after);
      if |atLog| < |atStatus| && |atStatus| > after {
        var t := SomeStepAppends(s0, steps, read.logAt, read.statusAt, after);
      }
      forall t: nat | read.logAt <= t < read.statusAt && AppendsPast(s0, steps, t, after)
        ensures |atLog| < |atStatus| && |atStatus| > after
      {
        LogGrows(s0, steps, read.logAt, t);
        LogGrows(s0, steps, t + 1, read.statusAt);
      }
    } else {
      LogGrows(s0, steps, read.statusAt, read.logAt);
      MissingEvents(atStatus, atLog, after);
    }
    if read.statusAt == read.logAt {
      assert atLog == atStatus;
    }
  }

  /** The failing side is real: with the log read before a delivery commits and the status after, one poll ends the
      stream, and the delivery's own event stays behind. */
  lemma FinalEventCanBeMissed(pool: int, budget: Budget) returns (steps: seq<Step>, polls: seq<Read>, after: int)
    requires budget.Valid()
    ensures InOrder(polls, |steps|) && |polls| == 1
    ensures var s0 := Initial(pool, budget, 0);
            var cycles := CyclesOf(s0, steps, polls);
            && polls[0].logAt <= polls[0].statusAt && cycles[0].status == Some(Delivered)
            && EndsFinished(cycles, 1, after) && Sent(cycles, 1, after) == []
            && Later(Exec(s0, steps).db.log, after) != []
  {
    hide Exec, Initial, Inv, Later;
    var report := Completion(true, true, 0, 0, 0, "", []);
    var s0 := Initial(pool, budget, 0);
    OneReportDecides(budget, report);
    var before := DecisiveReportsLeadToDelivery(pool, budget, 0, 1, [report], 0);
    var last := [CallPullRequest(0, Some("1")), Finish(0)];
    var delivering := Exec(s0, before);
    steps := before + last;
    polls := [Read(|before|, |steps|)];
    after := |delivering.db.log|;
    ExecAppend(s0, before, last);
    CallAndFinish(delivering, "1");
    LogNumbered(pool, budget, 0, steps);
    LogNumbered(pool, budget, 0, before);
    assert steps[..|before|] == before && steps[..|steps|] == steps;
    LaterIsSuffix(delivering.db.log, after);
    LaterIsSuffix(Exec(s0, steps).db.log, after);
  }
}
