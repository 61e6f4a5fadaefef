/** What the documents of a transcript mean, field by field. */
module AgentTranscriptLaws {
  import opened Wrappers
  import opened AgentTranscript

  /** What Python takes for true, of every kind of value. */
  lemma TruthOfValues(n: int, r: real, text: string, items: seq<Json>, fields: map<string, Json>)
    ensures Truthy(Some(Bool(true))) && !Truthy(Some(Bool(false))) && !Truthy(None) && !Truthy(Some(Null))
    ensures Truthy(Some(NotFinite))
    ensures Truthy(Some(Integer(n))) <==> n < 0 || n > 0
    ensures Truthy(Some(Decimal(r))) <==> r < 0.0 || r > 0.0
    ensures Truthy(Some(Text(text))) <==> |text| > 0
    ensures Truthy(Some(List(items))) <==> |items| > 0
    ensures Truthy(Some(Object(fields))) <==> |fields| > 0
  {
    assert fields == map[] <==> |fields| == 0;
  }

  /** What a token count under some name in a usage report amounts to. */
  predicate Counts(usage: map<string, Json>, name: string, count: Option<int>) {
    if name !in usage then count.None?
    else
      match usage[name]
      case Integer(n) => count == Some(n)
      case Bool(flag) => count == Some(if flag then 1 else 0)
      case Decimal(r) =>
        count.Some? && (r >= 0.0 ==> count.value as real <= r < count.value as real + 1.0)
        && (r < 0.0 ==> count.value as real - 1.0 < r <= count.value as real)
      case _ => count.None?
  }

  lemma CountsOf(usage: map<string, Json>)
    requires Countable(usage)
    ensures var tokens := TokensOf(usage);
            && Counts(usage, "input_tokens", tokens.input)
            && Counts(usage, "cache_read_input_tokens", tokens.cachedInput)
            && Counts(usage, "output_tokens", tokens.output)
  {
  }

  /** A line of type "result" with an object under "usage". */
  predicate ReportsUsage(line: Line) {
    && line.Document? && line.json.Object?
    && "type" in line.json.fields && line.json.fields["type"] == Text("result")
    && "usage" in line.json.fields && line.json.fields["usage"].Object?
  }

  lemma UsageLine(line: Line)
    ensures HasUsage(line) <==> ReportsUsage(line)
    ensures ReportsUsage(line) ==> UsageOf(line) == line.json.fields["usage"].fields
    ensures ReportsUsage(line) && !Raises(line) ==> Countable(line.json.fields["usage"].fields)
  {
  }

  /** Each count stands under its own name in the last result that carried a usage object. */
  lemma TokensByName(lines: seq<Line>, i: nat)
    requires Readable(lines) && i < |lines| && ReportsUsage(lines[i])
    requires forall j :: i < j < |lines| ==> !ReportsUsage(lines[j])
    ensures var usage, tokens := lines[i].json.fields["usage"].fields, LastTokens(lines);
            && Counts(usage, "input_tokens", tokens.input)
            && Counts(usage, "cache_read_input_tokens", tokens.cachedInput)
            && Counts(usage, "output_tokens", tokens.output)
  {
    hide LastTokens, HasUsage, UsageOf, Countable, TokensOf, Counts, Raises, ReportsUsage;
    UsageLine(lines[i]);
    forall j | i < j < |lines|
      ensures !HasUsage(lines[j])
    {
      UsageLine(lines[j]);
    }
    assert IsLast(lines, i, HasUsage);
    TokensComeFromLastUsage(lines);
    CountsOf(UsageOf(lines[i]));
  }

  /** A line is unreadable for one of two reasons. */
  lemma UnreadableIff(line: Line)
    ensures Raises(line) <==>
              && line.Document?
              && (!line.json.Object?
                  || var fields := line.json.fields;
                     && "type" in fields && fields["type"] == Text("result")
                     && "usage" in fields && fields["usage"].Object?
                     && exists name :: name in {"input_tokens", "cache_read_input_tokens", "output_tokens"}
                                       && name in fields["usage"].fields && fields["usage"].fields[name] == NotFinite)
  {
    if HasUsage(line) && !Countable(UsageOf(line)) {
      var usage := UsageOf(line);
      assert exists name :: name in {"input_tokens", "cache_read_input_tokens", "output_tokens"}
                            && name in usage && usage[name] == NotFinite by {
        if Get(usage, "input_tokens") == Some(NotFinite) {
          assert "input_tokens" in usage && usage["input_tokens"] == NotFinite;
        } else if Get(usage, "cache_read_input_tokens") == Some(NotFinite) {
          assert "cache_read_input_tokens" in usage && usage["cache_read_input_tokens"] == NotFinite;
        } else {
          assert "output_tokens" in usage && usage["output_tokens"] == NotFinite;
        }
      }
    }
  }

  /** A block of a tool's answer is an event exactly when the tool failed. */
  lemma ToolResultBlocks(fields: map<string, Json>)
    requires "type" in fields && fields["type"] == Text("tool_result")
    ensures "is_error" in fields && fields["is_error"] == Bool(true) ==>
              ToolResultEntries([Object(fields)]) == [Entry(Error, None)]
    ensures "is_error" !in fields || fields["is_error"] == Bool(false) ==> ToolResultEntries([Object(fields)]) == []
    ensures AssistantEntries([Object(fields)]) == []
  {
    Single(Object(fields));
  }

  lemma Single(block: Json)
    ensures ToolResultEntries([block]) == ToolResultEntry(block)
    ensures AssistantEntries([block]) == AssistantEntry(block)
  {
    assert [block][..0] == [];
  }

  /** The assistant's words are a plan, and what it runs is a command in the shell and a tool elsewhere. */
  lemma AssistantBlocks(fields: map<string, Json>, name: string)
    requires "type" in fields
    ensures fields["type"] == Text("text") ==> AssistantEntries([Object(fields)]) == [Entry(Plan, None)]
    ensures fields["type"] == Text("tool_use") && "name" in fields && fields["name"] == Text(name) ==>
              AssistantEntries([Object(fields)]) == [Entry(if name == "Bash" then Command else Tool, None)]
    ensures fields["type"] == Text("tool_use") && "name" !in fields ==>
              AssistantEntries([Object(fields)]) == [Entry(Tool, None)]
    ensures fields["type"] !in {Text("text"), Text("tool_use")} ==> AssistantEntries([Object(fields)]) == []
    ensures fields["type"] != Text("tool_result") ==> ToolResultEntries([Object(fields)]) == []
  {
    Single(Object(fields));
  }

  /** A message's blocks are the list under "content" of the object under "message". */
  lemma BlocksOfMessage(fields: map<string, Json>, blocks: seq<Json>)
    requires "message" in fields && fields["message"].Object?
    requires "content" in fields["message"].fields && fields["message"].fields["content"] == List(blocks)
    ensures Blocks(fields) == blocks
    ensures Blocks(fields - {"message"}) == []
    ensures Blocks(fields["message" := Object(fields["message"].fields - {"content"})]) == []
  {
  }

  /** What each type of line adds to the timeline. */
  lemma LinesByType(fields: map<string, Json>, kind: string, tokens: Tokens)
    requires "type" in fields && fields["type"] == Text(kind)
    requires !Raises(Document(Object(fields)))
    ensures var entries := EntriesOf(Document(Object(fields)), tokens);
            && (kind == "system" && "subtype" in fields && fields["subtype"] == Text("init") ==>
                  entries == [Entry(Plan, None)])
            && (kind == "system" && ("subtype" in fields ==> fields["subtype"] != Text("init")) ==>
                  entries == [Entry(Tool, None)])
            && (kind == "assistant" ==> entries == AssistantEntries(Blocks(fields)))
            && (kind == "user" ==> entries == ToolResultEntries(Blocks(fields)))
            && (kind == "result" && "is_error" in fields && fields["is_error"] == Bool(true) ==>
                  |entries| > 0 && entries[0] == Entry(Error, Some(tokens)))
            && (kind == "result" && ("is_error" !in fields || fields["is_error"] == Bool(false)) ==>
                  |entries| > 0 && entries[0] == Entry(Result, Some(tokens)))
            && (kind == "result" ==>
                  entries[1..] ==
                    if tokens.input.Some? || tokens.output.Some? then [Entry(Usage, Some(tokens))] else [])
            && (kind !in {"system", "assistant", "user", "result"} ==> entries == [Entry(Tool, None)])
    ensures EntriesOf(NotJson, tokens) == []
  {
  }

  /** A start-up names the session, and a result renames it if it names one at all. */
  lemma SessionByLine(lines: seq<Line>, fields: map<string, Json>, kind: string)
    requires "type" in fields && fields["type"] == Text(kind)
    ensures var before, after := Session(lines), Session(lines + [Document(Object(fields))]);
            var named := "session_id" in fields && fields["session_id"] != Null;
            var starts := kind == "system" && "subtype" in fields && fields["subtype"] == Text("init");
            && (starts ==> after == if named then Some(fields["session_id"]) else None)
            && (kind == "result" ==>
                  after == if named && fields["session_id"] != Text("") then Some(fields["session_id"]) else before)
            && (!starts && kind != "result" ==> after == before)
  {
    assert (lines + [Document(Object(fields))])[..|lines|] == lines;
  }
}
