/** How the runner reads the line-by-line JSON that the agent's command line prints. */
module AgentTranscript {
  import opened Wrappers

  /** `json.loads` also accepts NaN and the infinities. */
  datatype Json =
    | Null
    | Bool(flag: bool)
    | Integer(integer: int)
    | Decimal(decimal: real)
    | NotFinite
    | Text(text: string)
    | List(items: seq<Json>)
    | Object(fields: map<string, Json>)

  datatype Line = NotJson | Document(json: Json)

  function Get(fields: map<string, Json>, key: string): Option<Json> {
    if key in fields then Some(fields[key]) else None
  }

  predicate Truthy(value: Option<Json>) {
    match value
    case None => false
    case Some(Null) => false
    case Some(Bool(flag)) => flag
    case Some(Integer(integer)) => integer != 0
    case Some(Decimal(decimal)) => decimal != 0.0
    case Some(NotFinite) => true
    case Some(Text(text)) => text != ""
    case Some(List(items)) => items != []
    case Some(Object(fields)) => fields != map[]
  }

  datatype Tokens = Tokens(input: Option<int>, cachedInput: Option<int>, output: Option<int>)

  const NO_TOKENS := Tokens(None, None, None)

  /** Truncation toward zero. */
  function Truncated(r: real): (n: int)
    ensures if r >= 0.0 then n as real <= r < n as real + 1.0 else n as real - 1.0 < r <= n as real
  {
    if r >= 0.0 then r.Floor else -((-r).Floor)
  }

  /** A truth value is an integer; a number that is not finite raises, which is the precondition's business. */
  function IntOrNone(value: Option<Json>): Option<int>
    requires value != Some(NotFinite)
  {
    match value
    case Some(Bool(flag)) => Some(if flag then 1 else 0)
    case Some(Integer(integer)) => Some(integer)
    case Some(Decimal(decimal)) => Some(Truncated(decimal))
    case _ => None
  }

  predicate Countable(usage: map<string, Json>) {
    && Get(usage, "input_tokens") != Some(NotFinite)
    && Get(usage, "cache_read_input_tokens") != Some(NotFinite)
    && Get(usage, "output_tokens") != Some(NotFinite)
  }

  function TokensOf(usage: map<string, Json>): Tokens
    requires Countable(usage)
  {
    Tokens(IntOrNone(Get(usage, "input_tokens")), IntOrNone(Get(usage, "cache_read_input_tokens")),
           IntOrNone(Get(usage, "output_tokens")))
  }

  predicate HasType(line: Line, kind: string) {
    line.Document? && line.json.Object? && Get(line.json.fields, "type") == Some(Text(kind))
  }

  predicate IsResult(line: Line) {
    HasType(line, "result")
  }

  predicate IsError(line: Line)
    requires IsResult(line)
  {
    Truthy(Get(line.json.fields, "is_error"))
  }

  predicate HasUsage(line: Line) {
    IsResult(line) && "usage" in line.json.fields && line.json.fields["usage"].Object?
  }

  function UsageOf(line: Line): map<string, Json>
    requires HasUsage(line)
  {
    line.json.fields["usage"].fields
  }

  /** A document that is no object, or a token count that is no number of tokens, aborts the parse. */
  predicate Raises(line: Line) {
    (line.Document? && !line.json.Object?) || (HasUsage(line) && !Countable(UsageOf(line)))
  }

  predicate Readable(lines: seq<Line>) {
    forall i :: 0 <= i < |lines| ==> !Raises(lines[i])
  }

  datatype Kind = Plan | Tool | Command | Result | Error | Usage

  datatype Entry = Entry(kind: Kind, tokens: Option<Tokens>)

  datatype Event = Event(sequence: int, entry: Entry)

  function Blocks(fields: map<string, Json>): seq<Json> {
    match Get(fields, "message")
    case Some(Object(message)) => (match Get(message, "content") case Some(List(items)) => items case _ => [])
    case _ => []
  }

  function AssistantEntry(block: Json): seq<Entry> {
    if !block.Object? then []
    else if Get(block.fields, "type") == Some(Text("text")) then [Entry(Plan, None)]
    else if Get(block.fields, "type") == Some(Text("tool_use")) then
      [Entry(if Get(block.fields, "name") == Some(Text("Bash")) then Command else Tool, None)]
    else []
  }

  function ToolResultEntry(block: Json): seq<Entry> {
    if block.Object? && Get(block.fields, "type") == Some(Text("tool_result")) && Truthy(Get(block.fields, "is_error"))
    then [Entry(Error, None)] else []
  }

  function AssistantEntries(blocks: seq<Json>): seq<Entry> {
    if blocks == [] then [] else AssistantEntries(blocks[..|blocks| - 1]) + AssistantEntry(blocks[|blocks| - 1])
  }

  function ToolResultEntries(blocks: seq<Json>): seq<Entry> {
    if blocks == [] then [] else ToolResultEntries(blocks[..|blocks| - 1]) + ToolResultEntry(blocks[|blocks| - 1])
  }

  /** The token counts after some lines: those of the last result that carried usage. */
  function LastTokens(lines: seq<Line>): Tokens
    requires Readable(lines)
  {
    if lines == [] then NO_TOKENS
    else if HasUsage(lines[|lines| - 1]) then
      assert !Raises(lines[|lines| - 1]);
      TokensOf(UsageOf(lines[|lines| - 1]))
    else LastTokens(lines[..|lines| - 1])
  }

  function ResultEntries(failed: bool, tokens: Tokens): seq<Entry> {
    [Entry(if failed then Error else Result, Some(tokens))] +
    (if tokens.input.Some? || tokens.output.Some? then [Entry(Usage, Some(tokens))] else [])
  }

  /** What one line adds to the timeline; `tokens` are the counts as of this line. */
  function EntriesOf(line: Line, tokens: Tokens): seq<Entry>
    requires !Raises(line)
  {
    if line.NotJson? then []
    else if HasType(line, "system") && Get(line.json.fields, "subtype") == Some(Text("init")) then [Entry(Plan, None)]
    else if HasType(line, "assistant") then AssistantEntries(Blocks(line.json.fields))
    else if HasType(line, "user") then ToolResultEntries(Blocks(line.json.fields))
    else if IsResult(line) then ResultEntries(IsError(line), tokens)
    else [Entry(Tool, None)]
  }

  function Entries(lines: seq<Line>): seq<Entry>
    requires Readable(lines)
  {
    if lines == [] then []
    else Entries(lines[..|lines| - 1]) + EntriesOf(lines[|lines| - 1], LastTokens(lines))
  }

  /** Numbered 1 to n, in the order of the entries. */
  predicate Numbers(events: seq<Event>, entries: seq<Entry>, start: nat) {
    |events| == |entries| && forall i :: 0 <= i < |events| ==> events[i] == Event(start + i + 1, entries[i])
  }

  lemma Renumber(events: seq<Event>, entries: seq<Entry>, more: seq<Event>, moreEntries: seq<Entry>, start: nat)
    requires Numbers(events, entries, start) && Numbers(more, moreEntries, start + |events|)
    ensures Numbers(events + more, entries + moreEntries, start)
  {
  }

  function CountKind(entries: seq<Entry>, kind: Kind): nat {
    if entries == [] then 0
    else CountKind(entries[..|entries| - 1], kind) + (if entries[|entries| - 1].kind == kind then 1 else 0)
  }

  function GoodResults(lines: seq<Line>): nat {
    if lines == [] then 0
    else
      var last := lines[|lines| - 1];
      GoodResults(lines[..|lines| - 1]) + (if IsResult(last) && !IsError(last) then 1 else 0)
  }

  lemma {:induction false} CountAppend(a: seq<Entry>, b: seq<Entry>, kind: Kind)
    ensures CountKind(a + b, kind) == CountKind(a, kind) + CountKind(b, kind)
  {
    if b == [] {
      assert a + b == a;
    } else {
      CountAppend(a, b[..|b| - 1], kind);
      assert (a + b)[..|a + b| - 1] == a + b[..|b| - 1];
    }
  }

  lemma NothingCounted(kind: Kind)
    ensures CountKind([], kind) == 0
  {
  }

  lemma BlockIsNoResult(block: Json)
    ensures CountKind(AssistantEntry(block), Result) == 0 && CountKind(ToolResultEntry(block), Result) == 0
  {
  }

  lemma {:induction false} BlocksAreNoResults(blocks: seq<Json>)
    ensures CountKind(AssistantEntries(blocks), Result) == 0 && CountKind(ToolResultEntries(blocks), Result) == 0
  {
    hide AssistantEntry, ToolResultEntry, CountKind;
    if blocks == [] {
      NothingCounted(Result);
    } else {
      var before, last := blocks[..|blocks| - 1], blocks[|blocks| - 1];
      BlocksAreNoResults(before);
      BlockIsNoResult(last);
      CountAppend(AssistantEntries(before), AssistantEntry(last), Result);
      CountAppend(ToolResultEntries(before), ToolResultEntry(last), Result);
    }
  }

  lemma LineTurns(line: Line, tokens: Tokens)
    requires !Raises(line)
    ensures CountKind(EntriesOf(line, tokens), Result) == if IsResult(line) && !IsError(line) then 1 else 0
  {
    if HasType(line, "assistant") || HasType(line, "user") {
      BlocksAreNoResults(Blocks(line.json.fields));
    }
    if IsResult(line) {
      var first := [Entry(if IsError(line) then Error else Result, Some(tokens))];
      var usage := [Entry(Usage, Some(tokens))];
      assert CountKind(usage, Result) == 0;
      CountAppend(first, usage, Result);
      assert first + [] == first;
    }
  }

  /** The number of RESULT events is the number of results that report no error. */
  lemma {:induction false} TurnsAreGoodResults(lines: seq<Line>)
    requires Readable(lines)
    ensures CountKind(Entries(lines), Result) == GoodResults(lines)
  {
    hide EntriesOf, IsResult, LastTokens, Raises;
    if lines != [] {
      var before, last := lines[..|lines| - 1], lines[|lines| - 1];
      TurnsAreGoodResults(before);
      LineTurns(last, LastTokens(lines));
      CountAppend(Entries(before), EntriesOf(last, LastTokens(lines)), Result);
    }
  }

  /** Line `i` has a property that no later line has. */
  ghost predicate IsLast(lines: seq<Line>, i: int, p: Line -> bool) {
    0 <= i < |lines| && p(lines[i]) && forall j :: i < j < |lines| ==> !p(lines[j])
  }

  lemma {:induction false} TokensComeFromLastUsage(lines: seq<Line>)
    requires Readable(lines)
    ensures forall i :: IsLast(lines, i, HasUsage) ==> LastTokens(lines) == TokensOf(UsageOf(lines[i]))
    ensures (forall i :: 0 <= i < |lines| ==> !HasUsage(lines[i])) ==> LastTokens(lines) == NO_TOKENS
  {
    hide HasUsage, Countable, TokensOf, UsageOf;
    if lines != [] {
      var n := |lines| - 1;
      TokensComeFromLastUsage(lines[..n]);
      forall i | IsLast(lines, i, HasUsage)
        ensures LastTokens(lines) == TokensOf(UsageOf(lines[i]))
      {
        if i < n {
          assert !HasUsage(lines[n]);
          assert IsLast(lines[..n], i, HasUsage);
        }
      }
    }
  }

  function SessionOf(value: Option<Json>): Option<Json> {
    if value == Some(Null) then None else value
  }

  /** The session: the last start-up line's, unless a later result names another. */
  function Session(lines: seq<Line>): Option<Json> {
    if lines == [] then None
    else
      var before, last := Session(lines[..|lines| - 1]), lines[|lines| - 1];
      if HasType(last, "system") && Get(last.json.fields, "subtype") == Some(Text("init")) then
        SessionOf(Get(last.json.fields, "session_id"))
      else if IsResult(last) then
        var named := SessionOf(Get(last.json.fields, "session_id"));
        if named.None? || named == Some(Text("")) then before else named
      else before
  }

  predicate LastResultGood(lines: seq<Line>) {
    lines == [] ||
    (if IsResult(lines[|lines| - 1]) then !IsError(lines[|lines| - 1]) else LastResultGood(lines[..|lines| - 1]))
  }

  /** True when there is no result at all. */
  lemma {:induction false} LastResultDecides(lines: seq<Line>)
    ensures LastResultGood(lines) <==> forall i :: IsLast(lines, i, IsResult) ==> !IsError(lines[i])
  {
    hide IsResult, IsError;
    if lines != [] {
      var n := |lines| - 1;
      LastResultDecides(lines[..n]);
      if IsResult(lines[n]) {
        assert IsLast(lines, n, IsResult);
      } else {
        assert forall i :: IsLast(lines, i, IsResult) <==> IsLast(lines[..n], i, IsResult);
      }
    }
  }

  /** The last line of type "result" has this under "is_error". */
  ghost predicate LastResultSays(lines: seq<Line>, flag: Option<Json>) {
    exists i :: 0 <= i < |lines| && lines[i].Document? && lines[i].json.Object?
                && "type" in lines[i].json.fields && lines[i].json.fields["type"] == Text("result")
                && (if "is_error" in lines[i].json.fields then flag == Some(lines[i].json.fields["is_error"])
                    else flag.None?)
                && forall j :: i < j < |lines| && lines[j].Document? && lines[j].json.Object? ==>
                     !("type" in lines[j].json.fields && lines[j].json.fields["type"] == Text("result"))
  }

  ghost predicate NoResult(lines: seq<Line>) {
    forall j :: 0 <= j < |lines| && lines[j].Document? && lines[j].json.Object? ==>
      !("type" in lines[j].json.fields && lines[j].json.fields["type"] == Text("result"))
  }

  /** The rule for success, read off the documents themselves. */
  lemma LastFlagDecides(lines: seq<Line>)
    ensures LastResultSays(lines, Some(Bool(true))) ==> !LastResultGood(lines)
    ensures LastResultSays(lines, Some(Bool(false))) || LastResultSays(lines, None) || NoResult(lines) ==>
              LastResultGood(lines)
  {
    LastResultDecides(lines);
    forall i | IsLast(lines, i, IsResult)
      ensures LastResultSays(lines, Get(lines[i].json.fields, "is_error"))
      ensures forall flag :: LastResultSays(lines, flag) ==> flag == Get(lines[i].json.fields, "is_error")
      ensures !NoResult(lines)
    {
      var fields := lines[i].json.fields;
      assert lines[i].Document? && lines[i].json.Object? && "type" in fields && fields["type"] == Text("result");
      forall j | i < j < |lines| && lines[j].Document? && lines[j].json.Object?
        ensures !("type" in lines[j].json.fields && lines[j].json.fields["type"] == Text("result"))
      {
        assert !IsResult(lines[j]);
      }
    }
    if flag: Option<Json> :| LastResultSays(lines, flag) {
      LastIsLast(lines, flag);
    }
  }

  lemma LastIsLast(lines: seq<Line>, flag: Option<Json>)
    requires LastResultSays(lines, flag)
    ensures exists i :: IsLast(lines, i, IsResult)
  {
    var i :| 0 <= i < |lines| && lines[i].Document? && lines[i].json.Object?
             && "type" in lines[i].json.fields && lines[i].json.fields["type"] == Text("result")
             && forall j :: i < j < |lines| && lines[j].Document? && lines[j].json.Object? ==>
                  !("type" in lines[j].json.fields && lines[j].json.fields["type"] == Text("result"));
    assert IsLast(lines, i, IsResult);
  }

  method EventsForAssistantMessage(start: nat, fields: map<string, Json>) returns (events: seq<Event>)
    ensures Numbers(events, AssistantEntries(Blocks(fields)), start)
  {
    events := [];
    var blocks := Blocks(fields);
    for i := 0 to |blocks|
      invariant Numbers(events, AssistantEntries(blocks[..i]), start)
    {
      assert blocks[..i + 1][..i] == blocks[..i];
      var block := blocks[i];
      if !block.Object? {
        continue;
      }
      var kind := Get(block.fields, "type");
      if kind == Some(Text("text")) {
        events := events + [Event(start + |events| + 1, Entry(Plan, None))];
      } else if kind == Some(Text("tool_use")) {
        var name := Get(block.fields, "name");
        events := events + [Event(start + |events| + 1,
                                  Entry(if name == Some(Text("Bash")) then Command else Tool, None))];
      }
    }
    assert blocks[..|blocks|] == blocks;
  }

  method EventsForToolResult(start: nat, fields: map<string, Json>) returns (events: seq<Event>)
    ensures Numbers(events, ToolResultEntries(Blocks(fields)), start)
  {
    events := [];
    var blocks := Blocks(fields);
    for i := 0 to |blocks|
      invariant Numbers(events, ToolResultEntries(blocks[..i]), start)
    {
      assert blocks[..i + 1][..i] == blocks[..i];
      var block := blocks[i];
      if block.Object? && Get(block.fields, "type") == Some(Text("tool_result"))
          && Truthy(Get(block.fields, "is_error")) {
        events := events + [Event(start + |events| + 1, Entry(Error, None))];
      }
    }
    assert blocks[..|blocks|] == blocks;
  }

  datatype Summary = Summary(session: Option<Json>, tokens: Tokens, success: bool)

  datatype AgentResult = AgentResult(success: bool, session: Option<Json>, tokens: Tokens, turns: nat,
      events: seq<Event>)

  lemma LastLine(lines: seq<Line>, i: nat)
    requires i < |lines|
    ensures Session(lines[..i + 1]) == (
              var before, last := Session(lines[..i]), lines[i];
              if HasType(last, "system") && Get(last.json.fields, "subtype") == Some(Text("init")) then
                SessionOf(Get(last.json.fields, "session_id"))
              else if IsResult(last) then
                var named := SessionOf(Get(last.json.fields, "session_id"));
                if named.None? || named == Some(Text("")) then before else named
              else before)
    ensures LastResultGood(lines[..i + 1]) <==>
            if IsResult(lines[i]) then !IsError(lines[i]) else LastResultGood(lines[..i])
    ensures Readable(lines[..i]) ==> (Readable(lines[..i + 1]) <==> !Raises(lines[i]))
    ensures Readable(lines[..i + 1]) ==>
              && LastTokens(lines[..i + 1]) ==
                 (if HasUsage(lines[i]) then TokensOf(UsageOf(lines[i])) else LastTokens(lines[..i]))
              && Entries(lines[..i + 1]) == Entries(lines[..i]) + EntriesOf(lines[i], LastTokens(lines[..i + 1]))
  {
    var next := lines[..i + 1];
    assert next[..i] == lines[..i] && next[i] == lines[i] && |next| == i + 1;
    assert Readable(lines[..i]) && !Raises(lines[i]) ==> Readable(next);
    assert Readable(next) ==> Readable(lines[..i]) && !Raises(next[i]);
  }

  class ClaudeCodeCli {
    var events: seq<Event>

    /** `_parse_events`; None where it raises. */
    method ParseEvents(lines: seq<Line>) returns (summary: Option<Summary>)
      modifies this
      ensures summary.Some? <==> Readable(lines)
      ensures summary.Some? ==>
                && summary.value == Summary(Session(lines), LastTokens(lines), LastResultGood(lines))
                && Numbers(events, Entries(lines), 0)
      ensures summary.None? ==> events == old(events)
    {
      hide Readable, Session, LastTokens, LastResultGood, Entries, EntriesOf, AssistantEntries, ToolResultEntries,
          Blocks;
      var parsed: seq<Event> := [];
      var session, tokens, success := None, NO_TOKENS, true;
      NothingRead(lines);
      for i := 0 to |lines|
        invariant Readable(lines[..i])
        invariant Numbers(parsed, Entries(lines[..i]), 0)
        invariant session == Session(lines[..i]) && tokens == LastTokens(lines[..i])
                  && success == LastResultGood(lines[..i])
        invariant events == old(events)
      {
        LastLine(lines, i);
        var line := lines[i];
        if line.NotJson? {
          NothingFrom(line, tokens);
          continue;
        }
        if !line.json.Object? {
          RaisingLine(lines, i);
          return None;
        }
        var document := line.json.fields;
        var more: seq<Event> := [];
        if HasType(line, "system") && Get(document, "subtype") == Some(Text("init")) {
          session := SessionOf(Get(document, "session_id"));
          more := [Event(|parsed| + 1, Entry(Plan, None))];
        } else if HasType(line, "assistant") {
          more := EventsForAssistantMessage(|parsed|, document);
        } else if HasType(line, "user") {
          more := EventsForToolResult(|parsed|, document);
        } else if IsResult(line) {
          var named := SessionOf(Get(document, "session_id"));
          if named.Some? && named != Some(Text("")) {
            session := named;
          }
          success := !Truthy(Get(document, "is_error"));
          if HasUsage(line) {
            if !Countable(UsageOf(line)) {
              RaisingLine(lines, i);
              return None;
            }
            tokens := TokensOf(UsageOf(line));
          }
          more := [Event(|parsed| + 1, Entry(if success then Result else Error, Some(tokens)))];
          if tokens.input.Some? || tokens.output.Some? {
            more := more + [Event(|parsed| + 2, Entry(Usage, Some(tokens)))];
          }
        } else {
          more := [Event(|parsed| + 1, Entry(Tool, None))];
        }
        LineNumbers(line, tokens, more, |parsed|);
        Renumber(parsed, Entries(lines[..i]), more, EntriesOf(line, tokens), 0);
        parsed := parsed + more;
      }
      assert lines[..|lines|] == lines;
      events := parsed;
      return Some(Summary(session, tokens, success));
    }

    /** `execute`; the process has not ended in time where it has no return code. None where the parse raises. */
    method Execute(lines: seq<Line>, stderr: bool, returnCode: Option<int>) returns (result: Option<AgentResult>)
      modifies this
      ensures returnCode.None? ==>
              result == Some(AgentResult(false, None, NO_TOKENS, 0, [Event(1, Entry(Error, None))]))
      ensures returnCode.Some? ==> (result.Some? <==> Readable(lines))
      ensures returnCode.Some? && result.Some? ==>
                && result.value.success == (returnCode.value == 0 && LastResultGood(lines))
                && (LastResultSays(lines, Some(Bool(true))) ==> !result.value.success)
                && (LastResultSays(lines, Some(Bool(false))) || LastResultSays(lines, None) || NoResult(lines) ==>
                      (result.value.success <==> returnCode.value == 0))
                && result.value.session == Session(lines) && result.value.tokens == LastTokens(lines)
                && result.value.turns == GoodResults(lines)
                && Numbers(result.value.events, Entries(lines) + (if stderr then [Entry(Error, None)] else []), 0)
    {
      hide Readable, Session, LastTokens, LastResultGood, Entries, GoodResults;
      if returnCode.None? {
        events := [Event(1, Entry(Error, None))];
        return Some(AgentResult(false, None, NO_TOKENS, 0, events));
      }
      var summary := ParseEvents(lines);
      if summary.None? {
        return None;
      }
      ghost var entries := Entries(lines);
      TurnsAreGoodResults(lines);
      LastFlagDecides(lines);
      if stderr {
        CountAppend(entries, [Entry(Error, None)], Result);
        entries := entries + [Entry(Error, None)];
        events := events + [Event(|events| + 1, Entry(Error, None))];
      } else {
        assert entries + [] == entries;
      }
      var turns := CountResults(events, entries);
      return Some(AgentResult(returnCode.value == 0 && summary.value.success, summary.value.session,
                              summary.value.tokens, turns, events));
    }
  }

  method CountResults(events: seq<Event>, ghost entries: seq<Entry>) returns (turns: nat)
    requires Numbers(events, entries, 0)
    ensures turns == CountKind(entries, Result)
  {
    turns := 0;
    for i := 0 to |events|
      invariant turns == CountKind(entries[..i], Result)
    {
      assert entries[..i + 1][..i] == entries[..i];
      if events[i].entry.kind == Result {
        turns := turns + 1;
      }
    }
    assert entries[..|entries|] == entries;
  }

  lemma NothingRead(lines: seq<Line>)
    ensures Readable(lines[..0]) && Session(lines[..0]) == None && LastTokens(lines[..0]) == NO_TOKENS
    ensures LastResultGood(lines[..0]) && Entries(lines[..0]) == []
  {
  }

  lemma RaisingLine(lines: seq<Line>, i: nat)
    requires i < |lines| && Raises(lines[i])
    ensures !Readable(lines)
  {
  }

  lemma NothingFrom(line: Line, tokens: Tokens)
    requires line.NotJson?
    ensures EntriesOf(line, tokens) == []
  {
  }

  lemma LineNumbers(line: Line, tokens: Tokens, more: seq<Event>, start: nat)
    requires line.Document? && !Raises(line)
    requires
      if HasType(line, "assistant") then Numbers(more, AssistantEntries(Blocks(line.json.fields)), start)
      else if HasType(line, "user") then Numbers(more, ToolResultEntries(Blocks(line.json.fields)), start)
      else if IsResult(line) then
        more == [Event(start + 1, Entry(if IsError(line) then Error else Result, Some(tokens)))] +
                (if tokens.input.Some? || tokens.output.Some? then [Event(start + 2, Entry(Usage, Some(tokens)))]
                 else [])
      else
        more == [Event(start + 1,
            Entry(if HasType(line, "system") && Get(line.json.fields, "subtype") == Some(Text("init"))
                                        then Plan else Tool, None))]
    ensures Numbers(more, EntriesOf(line, tokens), start)
  {
  }
}
