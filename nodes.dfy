/**
 * The four nodes of the agent graph: plan, tool execution, evaluation and synthesis. The chat
 * model is a parameter answering a request (which node asks, the history, what the planner is
 * shown of earlier rounds, the user text) with a reply or an exception.
 */
module Nodes {
  import opened Wrappers
  import opened Json
  import opened Text
  import opened Collections
  import opened AgentText
  import opened AgentState
  import AgentTools
  import Security

  // ------------------------------------------------------------------ the chat model

  /** Which node asks; it stands for that node's fixed system prompt. */
  datatype Stage = PlanStage | EvaluateStage | SynthesizeStage

  /** What the planner is shown of earlier rounds: the last five tool records and snippets of the last three results. */
  datatype Evidence = Evidence(recentCalls: seq<ToolRecord>, snippets: string)

  datatype LlmRequest = LlmRequest(stage: Stage, history: seq<ChatMessage>, evidence: Option<Evidence>, user: string)

  /** A model reply: its text and the native tool calls it carries. */
  datatype AiReply = AiReply(content: string, nativeCalls: seq<ToolCall>)

  type Llm = LlmRequest -> Result<AiReply>

  /** A tool's invocation: its text result, or the message of the exception it raised. */
  type Invoke = (string, map<string, Value>) -> Result<string>

  /** The message of the TypeError hashing a list or dict raises. */
  function UnhashableError(v: Value): string
  {
    "unhashable type: '" + PyTypeName(v) + "'"
  }

  /** The message of the AttributeError `args.items()` raises on a value that is not a dict. */
  function NoItemsError(v: Value): string
  {
    "'" + PyTypeName(v) + "' object has no attribute 'items'"
  }

  // ------------------------------------------------------------------ plan

  const SnippetLimit: nat := 200

  /** A context entry as the planner sees it: cut to 200 characters and marked when cut. */
  function Snippet(c: string): (r: string)
    ensures |c| <= SnippetLimit ==> r == c
    ensures |c| > SnippetLimit ==> |r| == SnippetLimit + 3 && StartsWith(r, c[..SnippetLimit])
  {
    if |c| > SnippetLimit then c[..SnippetLimit] + "..." else c
  }

  function Snippets(cs: seq<string>): (r: seq<string>)
    ensures |r| == |cs| && forall i :: 0 <= i < |cs| ==> r[i] == Snippet(cs[i])
  {
    seq(|cs|, i requires 0 <= i < |cs| => Snippet(cs[i]))
  }

  /** The summary of earlier rounds, shown only once some evidence exists. */
  function PlanEvidence(s: State): (e: Option<Evidence>)
    ensures e.Some? <==> |s.context| > 0
    ensures e.Some? ==> |e.value.recentCalls| == (if |s.toolHistory| <= 5 then |s.toolHistory| else 5)
    ensures e.Some? ==> e.value.recentCalls == s.toolHistory[|s.toolHistory| - |e.value.recentCalls|..]
  {
    if |s.context| > 0 then Some(Evidence(TakeLast(s.toolHistory, 5), Join("\n", Snippets(TakeLast(s.context, 3)))))
    else None
  }

  function PlanRequest(s: State): LlmRequest
  {
    LlmRequest(PlanStage, HistoryToMessages(s.messages), PlanEvidence(s), s.query)
  }

  /** A parsed item that names a tool: a dict with a "name" key. */
  predicate IsCallDict(v: Value)
  {
    v.Obj? && "name" in v.fields
  }

  /** `{"name": item["name"], "args": item.get("args", {})}`. */
  function CallOf(f: map<string, Value>): (c: ToolCall)
    requires "name" in f
    ensures c.name == f["name"] && ("args" !in f ==> c.args == Obj(map[]))
  {
    ToolCall(f["name"], Get(f, "args", Obj(map[])))
  }

  /** The calls of the items of a parsed list: one per item that is a dict with "name". */
  function CallsOfItems(items: seq<Value>): seq<ToolCall>
  {
    if |items| == 0 then []
    else
      var last := items[|items| - 1];
      CallsOfItems(items[..|items| - 1]) + (if IsCallDict(last) then [CallOf(last.fields)] else [])
  }

  /** The parsed list's call-shaped items, in order, and only those. */
  lemma {:induction false} CallsOfItemsKeepsCallDicts(items: seq<Value>)
    ensures |CallsOfItems(items)| <= |items|
    ensures |CallsOfItems(items)| == 0 <==> forall i :: 0 <= i < |items| ==> !IsCallDict(items[i])
    ensures forall k :: 0 <= k < |CallsOfItems(items)| ==>
      exists i :: 0 <= i < |items| && IsCallDict(items[i]) && CallsOfItems(items)[k] == CallOf(items[i].fields)
  {
    if |items| > 0 {
      var init := items[..|items| - 1];
      CallsOfItemsKeepsCallDicts(init);
      var r0 := CallsOfItems(init);
      var r := CallsOfItems(items);
      assert forall i :: 0 <= i < |init| ==> init[i] == items[i];
      forall k | 0 <= k < |r|
        ensures exists i :: 0 <= i < |items| && IsCallDict(items[i]) && r[k] == CallOf(items[i].fields)
      {
        if k < |r0| {
          assert r[k] == r0[k];
          var i :| 0 <= i < |init| && IsCallDict(init[i]) && r0[k] == CallOf(init[i].fields);
          assert items[i] == init[i];
        } else {
          assert r[k] == CallOf(items[|items| - 1].fields);
        }
      }
    }
  }

  /** The calls a parsed reply holds: a list's call-shaped items, or a single call-shaped dict. */
  function ParsedCalls(parsed: Option<Value>): seq<ToolCall>
  {
    if parsed.Some? && parsed.value.Arr? then CallsOfItems(parsed.value.items)
    else if parsed.Some? && IsCallDict(parsed.value) then [CallOf(parsed.value.fields)]
    else []
  }

  function GrepCall(q: string): ToolCall
  {
    ToolCall(Str("grep_search"), Single("query", q))
  }

  function VectorCall(q: string): ToolCall
  {
    ToolCall(Str("vector_search"), Single("query", q))
  }

  function ReadCall(path: string): ToolCall
  {
    ToolCall(Str("read_file"), Single("file_path", path))
  }

  function ReadCalls(paths: seq<string>): (r: seq<ToolCall>)
    ensures |r| == |paths| && forall i :: 0 <= i < |paths| ==> r[i] == ReadCall(paths[i])
  {
    seq(|paths|, i requires 0 <= i < |paths| => ReadCall(paths[i]))
  }

  /** The calls a reply's text names: the call-shaped parse of the text, else the tools it mentions. */
  function TextCalls(raw: string, query: string, loads: Loads): seq<ToolCall>
  {
    var parsed := ParsedCalls(ExtractJsonSpec(raw, loads));
    if |parsed| > 0 then parsed else MinedCalls(raw, query, ToolArgKeys)
  }

  /** The calls a reply names, before the fallbacks: its native tool calls, else the calls its stripped text names. */
  function ReplyCalls(reply: AiReply, query: string, loads: Loads): seq<ToolCall>
  {
    if |reply.nativeCalls| > 0 then reply.nativeCalls else TextCalls(Strip(reply.content), query, loads)
  }

  /** The first entry that cannot go into a set, if any. */
  function FirstUnhashable(vs: seq<Value>): (r: Option<Value>)
    ensures r.None? <==> forall i :: 0 <= i < |vs| ==> Hashable(vs[i])
    ensures r.Some? ==> !Hashable(r.value) && exists i :: 0 <= i < |vs| && vs[i] == r.value
  {
    if |vs| == 0 then None
    else if !Hashable(vs[0]) then Some(vs[0])
    else
      var r := FirstUnhashable(vs[1..]);
      assert forall i :: 1 <= i < |vs| ==> vs[i] == vs[1..][i - 1];
      r
  }

  /** The discovered paths not read yet, in order. */
  function NewFiles(paths: seq<string>, read: seq<Value>): (r: seq<string>)
    ensures forall f :: f in r <==> f in paths && Str(f) !in read
  {
    if |paths| == 0 then []
    else
      var last := paths[|paths| - 1];
      var r0 := NewFiles(paths[..|paths| - 1], read);
      assert paths == paths[..|paths| - 1] + [last];
      r0 + (if Str(last) !in read then [last] else [])
  }

  /**
   * The fallbacks: a plan with calls is kept; with no calls and no evidence, grep and vector
   * search for the query; with evidence, reading up to three discovered files not read yet, or
   * else vector search. `set(files_read)` raises when an entry cannot be hashed.
   */
  function Fallback(calls: seq<ToolCall>, s: State): Result<seq<ToolCall>>
  {
    if |calls| > 0 then Success(calls)
    else if |s.context| == 0 then Success([GrepCall(s.query), VectorCall(s.query)])
    else
      match FirstUnhashable(s.filesRead)
      case Some(v) => Failure(UnhashableError(v))
      case None =>
        var newFiles := NewFiles(Dedup(PathsOf(s.context)), s.filesRead);
        if |newFiles| > 0 then Success(ReadCalls(Take(newFiles, 3))) else Success([VectorCall(s.query)])
  }

  /** The position of the first call whose name is not a string, if any. */
  function FirstNonStrName(calls: seq<ToolCall>): (r: Option<nat>)
    ensures r.None? <==> forall i :: 0 <= i < |calls| ==> calls[i].name.Str?
    ensures r.Some? ==> r.value < |calls| && !calls[r.value].name.Str?
    ensures r.Some? ==> forall j :: 0 <= j < r.value ==> calls[j].name.Str?
  {
    if |calls| == 0 then None
    else if !calls[0].name.Str? then Some(0)
    else
      match FirstNonStrName(calls[1..])
      case None => None
      case Some(i) => Some(i + 1)
  }

  /** The message of the TypeError `str.join` raises on the item at `i`, of the type of `v`. */
  function JoinError(i: nat, v: Value): string
  {
    "sequence item " + NatToString(i) + ": expected str instance, " + PyTypeName(v) + " found"
  }

  /**
   * `plan_node`: the update setting the next calls, or the exception the model or `set()`
   * raised, or the TypeError of the status line, which joins the planned names before it is
   * shown and so raises on the first name that is not a string.
   */
  function PlanSpec(s: State, llm: Llm, loads: Loads): Result<Update>
  {
    match llm(PlanRequest(s))
    case Failure(e) => Failure(e)
    case Success(reply) =>
      match Fallback(ReplyCalls(reply, s.query, loads), s)
      case Failure(e) => Failure(e)
      case Success(calls) =>
        match FirstNonStrName(calls)
        case Some(i) => Failure(JoinError(i, calls[i].name))
        case None => Success(NoUpdate.(pending := Some(calls)))
  }

  /**
   * The planner never leaves the plan empty, sets nothing but the pending calls, and plans
   * only calls named by strings. It fails exactly when the model fails; or, with no calls found
   * and some evidence, a read path is unhashable; or a call found is named by something other
   * than a string.
   */
  lemma PlanNeverEmpty(s: State, llm: Llm, loads: Loads)
    ensures var r := PlanSpec(s, llm, loads);
      r.Success? ==> (r.value.pending.Some? && |r.value.pending.value| > 0
                      && r.value == NoUpdate.(pending := r.value.pending)
                      && forall i :: 0 <= i < |r.value.pending.value| ==> r.value.pending.value[i].name.Str?)
    ensures PlanSpec(s, llm, loads).Failure? <==>
      llm(PlanRequest(s)).Failure?
      || (|ReplyCalls(llm(PlanRequest(s)).value, s.query, loads)| == 0 && |s.context| > 0
          && exists i :: 0 <= i < |s.filesRead| && !Hashable(s.filesRead[i]))
      || exists i :: 0 <= i < |ReplyCalls(llm(PlanRequest(s)).value, s.query, loads)|
          && !ReplyCalls(llm(PlanRequest(s)).value, s.query, loads)[i].name.Str?
  {
    if llm(PlanRequest(s)).Success? {
      var calls := ReplyCalls(llm(PlanRequest(s)).value, s.query, loads);
      FallbackNames(calls, s);
      if |calls| == 0 && |s.context| > 0 && FirstUnhashable(s.filesRead).None? {
        var newFiles := NewFiles(Dedup(PathsOf(s.context)), s.filesRead);
        if |newFiles| > 0 {
          assert |Take(newFiles, 3)| > 0;
        }
      }
    }
  }

  /** The fallback plans name their tools by strings, so only calls found in the reply can fail the join. */
  lemma FallbackNames(calls: seq<ToolCall>, s: State)
    ensures Fallback(calls, s).Success? && |calls| == 0 ==>
      forall i :: 0 <= i < |Fallback(calls, s).value| ==> Fallback(calls, s).value[i].name.Str?
  {
  }

  /**
   * Which fallback applies: calls found are kept as they are; otherwise grep and vector search
   * without evidence; with evidence, `read_file` for the first three new paths, in the order they
   * were discovered in the evidence and each not read yet, and vector search exactly when every
   * discovered path has been read. An unhashable read path raises before any of this.
   */
  lemma FallbackChoice(calls: seq<ToolCall>, s: State)
    ensures |calls| > 0 ==> Fallback(calls, s) == Success(calls)
    ensures |calls| == 0 && |s.context| == 0 ==>
      Fallback(calls, s) == Success([GrepCall(s.query), VectorCall(s.query)])
    ensures |calls| == 0 && |s.context| > 0 && FirstUnhashable(s.filesRead).Some? ==>
      Fallback(calls, s) == Failure(UnhashableError(FirstUnhashable(s.filesRead).value))
    ensures |calls| == 0 && |s.context| > 0 && FirstUnhashable(s.filesRead).None? ==>
      var newFiles := NewFiles(Dedup(PathsOf(s.context)), s.filesRead);
      Fallback(calls, s) == Success(if |newFiles| > 0 then ReadCalls(Take(newFiles, 3)) else [VectorCall(s.query)])
    ensures |calls| == 0 && |s.context| > 0 && Fallback(calls, s).Success? ==>
      (Fallback(calls, s).value == [VectorCall(s.query)] <==>
        forall f :: f in PathsOf(s.context) ==> Str(f) in s.filesRead)
    ensures |calls| == 0 && |s.context| > 0 && Fallback(calls, s).Success? && Fallback(calls, s).value != [VectorCall(s.query)] ==>
      var plan := Fallback(calls, s).value;
      1 <= |plan| <= 3 && forall i :: 0 <= i < |plan| ==>
        exists f :: plan[i] == ReadCall(f) && f in PathsOf(s.context) && Str(f) !in s.filesRead
  {
    if |calls| == 0 && |s.context| > 0 && Fallback(calls, s).Success? {
      var newFiles := NewFiles(Dedup(PathsOf(s.context)), s.filesRead);
      DedupKeepsEachOnce(PathsOf(s.context));
      if |newFiles| > 0 {
        var plan := ReadCalls(Take(newFiles, 3));
        assert plan[0] == ReadCall(newFiles[0]);
        assert newFiles[0] in newFiles;
        forall i | 0 <= i < |plan|
          ensures exists f :: plan[i] == ReadCall(f) && f in PathsOf(s.context) && Str(f) !in s.filesRead
        {
          var f := newFiles[i];
          assert f in newFiles;
          assert plan[i] == ReadCall(f);
        }
      } else {
        forall f | f in PathsOf(s.context) ensures Str(f) in s.filesRead {
          assert f in Dedup(PathsOf(s.context));
        }
      }
    }
  }

  /**
   * Without native calls, the parsed JSON decides when it names any call; otherwise the calls
   * are the registered tools the text mentions, each once, and every mentioned tool is among them.
   */
  lemma TextCallsOrigin(raw: string, query: string, loads: Loads)
    ensures |ParsedCalls(ExtractJsonSpec(raw, loads))| > 0 ==>
      TextCalls(raw, query, loads) == ParsedCalls(ExtractJsonSpec(raw, loads))
    ensures |ParsedCalls(ExtractJsonSpec(raw, loads))| == 0 ==>
      forall k :: 0 <= k < |TextCalls(raw, query, loads)| ==> AgentTools.IsRegistered(TextCalls(raw, query, loads)[k].name)
    ensures |ParsedCalls(ExtractJsonSpec(raw, loads))| == 0 ==>
      forall name :: name in AgentTools.ToolNames ==>
        (Mentions(raw, name) <==> exists k :: 0 <= k < |TextCalls(raw, query, loads)| && TextCalls(raw, query, loads)[k].name == Str(name))
  {
    MinedToolsRegistered(raw, query);
    if |ParsedCalls(ExtractJsonSpec(raw, loads))| == 0 {
      var r := TextCalls(raw, query, loads);
      assert r == MinedCalls(raw, query, ToolArgKeys);
      forall name | name in AgentTools.ToolNames
        ensures Mentions(raw, name) <==> exists k :: 0 <= k < |r| && r[k].name == Str(name)
      {
      }
    }
  }

  /** `plan_node`: ask the model, collect the calls it names, then apply the fallbacks. */
  method PlanNode(s: State, llm: Llm, loads: Loads) returns (r: Result<Update>)
    ensures r == PlanSpec(s, llm, loads)
  {
    var response := llm(PlanRequest(s));
    if response.Failure? {
      return Failure(response.error);
    }
    var toolCalls := CallsFromReply(response.value, s.query, loads);
    var plan := WithFallback(toolCalls, s);
    if plan.Failure? {
      return Failure(plan.error);
    }
    var bad := FindNonStrName(plan.value);
    if bad.Some? {
      return Failure(JoinError(bad.value, plan.value[bad.value].name));
    }
    return Success(NoUpdate.(pending := Some(plan.value)));
  }

  /** The join of the status line, which stops at the first name that is not a string. */
  method FindNonStrName(calls: seq<ToolCall>) returns (r: Option<nat>)
    ensures r == FirstNonStrName(calls)
  {
    for i := 0 to |calls|
      invariant forall j :: 0 <= j < i ==> calls[j].name.Str?
    {
      if !calls[i].name.Str? {
        FirstNonStrNameAt(calls, i);
        return Some(i);
      }
    }
    return None;
  }

  lemma {:induction false} FirstNonStrNameAt(calls: seq<ToolCall>, i: nat)
    requires i < |calls| && !calls[i].name.Str?
    requires forall j :: 0 <= j < i ==> calls[j].name.Str?
    ensures FirstNonStrName(calls) == Some(i)
  {
    if i > 0 {
      FirstNonStrNameAt(calls[1..], i - 1);
    }
  }

  /** The first half of `plan_node`: the native calls, else the calls the stripped text names. */
  method CallsFromReply(reply: AiReply, query: string, loads: Loads) returns (toolCalls: seq<ToolCall>)
    ensures toolCalls == ReplyCalls(reply, query, loads)
  {
    if |reply.nativeCalls| > 0 {
      toolCalls := CopyNativeCalls(reply);
    } else {
      toolCalls := CallsFromText(Strip(reply.content), query, loads);
    }
  }

  /** The native calls, appended one by one. */
  method CopyNativeCalls(reply: AiReply) returns (toolCalls: seq<ToolCall>)
    ensures toolCalls == reply.nativeCalls
  {
    toolCalls := [];
    for i := 0 to |reply.nativeCalls|
      invariant toolCalls == reply.nativeCalls[..i]
    {
      toolCalls := toolCalls + [reply.nativeCalls[i]];
    }
    assert reply.nativeCalls[..|reply.nativeCalls|] == reply.nativeCalls;
  }

  /** The calls the text names: the parsed calls, else the mined ones. */
  method CallsFromText(raw: string, query: string, loads: Loads) returns (toolCalls: seq<ToolCall>)
    ensures toolCalls == TextCalls(raw, query, loads)
  {
    var parsed := ExtractJson(raw, loads);
    toolCalls := CallsFromParsed(parsed);
    if |toolCalls| == 0 {
      toolCalls := ExtractToolsFromText(raw, query);
    }
  }

  /** The calls of a parsed reply: a list's items scanned one by one, or a single dict. */
  method CallsFromParsed(parsed: Option<Value>) returns (toolCalls: seq<ToolCall>)
    ensures toolCalls == ParsedCalls(parsed)
  {
    toolCalls := [];
    if parsed.Some? && parsed.value.Arr? {
      var items := parsed.value.items;
      for i := 0 to |items|
        invariant toolCalls == CallsOfItems(items[..i])
      {
        assert items[..i + 1][..i] == items[..i];
        if IsCallDict(items[i]) {
          toolCalls := toolCalls + [CallOf(items[i].fields)];
        }
      }
      assert items[..|items|] == items;
    } else if parsed.Some? && IsCallDict(parsed.value) {
      toolCalls := [CallOf(parsed.value.fields)];
    }
  }

  /** The second half of `plan_node`: the fallbacks for a plan without calls. */
  method WithFallback(toolCalls: seq<ToolCall>, s: State) returns (r: Result<seq<ToolCall>>)
    ensures r == Fallback(toolCalls, s)
  {
    if |toolCalls| > 0 {
      return Success(toolCalls);
    }
    if |s.context| == 0 {
      return Success([GrepCall(s.query), VectorCall(s.query)]);
    }
    var readFiles := ExtractFilePathsFromContext(s.context);
    var alreadyRead: set<Value> := {};
    for i := 0 to |s.filesRead|
      invariant forall j :: 0 <= j < i ==> Hashable(s.filesRead[j])
      invariant forall v :: v in alreadyRead <==> v in s.filesRead[..i]
    {
      if !Hashable(s.filesRead[i]) {
        FirstUnhashableSkips(s.filesRead, i);
        assert s.filesRead[i..][0] == s.filesRead[i];
        return Failure(UnhashableError(s.filesRead[i]));
      }
      assert s.filesRead[..i + 1] == s.filesRead[..i] + [s.filesRead[i]];
      alreadyRead := alreadyRead + {s.filesRead[i]};
    }
    assert s.filesRead[..|s.filesRead|] == s.filesRead;
    var newFiles := NewFilesNotIn(readFiles, alreadyRead, s.filesRead);
    if |newFiles| > 0 {
      return Success(ReadCalls(Take(newFiles, 3)));
    }
    return Success([VectorCall(s.query)]);
  }

  /** Skipping hashable entries does not change which entry is the first unhashable one. */
  lemma {:induction false} FirstUnhashableSkips(vs: seq<Value>, i: nat)
    requires i <= |vs| && forall j :: 0 <= j < i ==> Hashable(vs[j])
    ensures FirstUnhashable(vs) == FirstUnhashable(vs[i..])
  {
    if i > 0 {
      FirstUnhashableSkips(vs[1..], i - 1);
      assert vs[1..][i - 1..] == vs[i..];
    } else {
      assert vs[0..] == vs;
    }
  }

  /** `[f for f in read_files if f not in already_read]`, with the set built from `read`. */
  method NewFilesNotIn(paths: seq<string>, alreadyRead: set<Value>, ghost read: seq<Value>) returns (newFiles: seq<string>)
    requires forall v :: v in alreadyRead <==> v in read
    ensures newFiles == NewFiles(paths, read)
  {
    newFiles := [];
    for i := 0 to |paths|
      invariant newFiles == NewFiles(paths[..i], read)
    {
      assert paths[..i + 1][..i] == paths[..i];
      if Str(paths[i]) !in alreadyRead {
        newFiles := newFiles + [paths[i]];
      }
    }
    assert paths[..|paths|] == paths;
  }

  // ------------------------------------------------------------------ tool execution

  /** The text one call produces: the tool's output, its error text, or the unknown-tool text. */
  function CallResult(name: Value, args: map<string, Value>, invoke: Invoke): (r: string)
    requires Hashable(name)
    ensures !AgentTools.IsRegistered(name) ==> r == "Unknown tool: " + Render(name)
    ensures AgentTools.IsRegistered(name) && invoke(name.s, args).Success? ==> r == invoke(name.s, args).value
    ensures AgentTools.IsRegistered(name) && invoke(name.s, args).Failure? ==>
      r == "Tool error (" + name.s + "): " + invoke(name.s, args).error
  {
    if AgentTools.IsRegistered(name) then
      match invoke(name.s, args)
      case Success(out) => out
      case Failure(e) => "Tool error (" + name.s + "): " + e
    else "Unknown tool: " + Render(name)
  }

  /** What one call adds: a context entry, a history record, and the path it read, if any. */
  datatype Step = Step(entry: string, record: ToolRecord, read: seq<Value>)

  /** A call the loop gets through: its args are a dict and its name can be looked up. */
  predicate Runnable(tc: ToolCall)
  {
    tc.args.Obj? && Hashable(tc.name)
  }

  /** The path a call adds to `files_read`: its `file_path` argument when it is a `read_file` call. */
  function ReadPath(tc: ToolCall): (r: seq<Value>)
    ensures |r| <= 1
  {
    if tc.name == Str("read_file") && tc.args.Obj? && "file_path" in tc.args.fields then [tc.args.fields["file_path"]] else []
  }

  /** One iteration of the loop of `tool_node`. */
  function ExecuteCall(tc: ToolCall, invoke: Invoke): (r: Result<Step>)
    ensures r.Success? <==> Runnable(tc)
    ensures !tc.args.Obj? ==> r == Failure(NoItemsError(tc.args))
    ensures tc.args.Obj? && !Hashable(tc.name) ==> r == Failure(UnhashableError(tc.name))
    ensures r.Success? ==> |r.value.record.output| <= 500 && r.value.record.tool == tc.name && r.value.record.input == tc.args
    ensures r.Success? ==> StartsWith(r.value.entry, "[" + Render(tc.name) + "] ") && r.value.read == ReadPath(tc)
    ensures r.Success? ==>
      && r.value.entry == "[" + Render(tc.name) + "] " + CallResult(tc.name, tc.args.fields, invoke)
      && r.value.record.output == Take(CallResult(tc.name, tc.args.fields, invoke), 500)
  {
    if !tc.args.Obj? then Failure(NoItemsError(tc.args))
    else if !Hashable(tc.name) then Failure(UnhashableError(tc.name))
    else
      var result := CallResult(tc.name, tc.args.fields, invoke);
      var head := "[" + Render(tc.name) + "] ";
      assert (head + result)[..|head|] == head;
      Success(Step(head + result, ToolRecord(tc.name, tc.args, Take(result, 500)), ReadPath(tc)))
  }

  /** What the loop adds over all calls. */
  datatype Outcome = Outcome(entries: seq<string>, records: seq<ToolRecord>, readPaths: seq<Value>)

  /** A loop over calls, `exec` standing for one iteration: the first call that raises ends it. */
  function RunAll(calls: seq<ToolCall>, exec: ToolCall -> Result<Step>): Result<Outcome>
  {
    if |calls| == 0 then Success(Outcome([], [], []))
    else
      var prev := RunAll(calls[..|calls| - 1], exec);
      var step := exec(calls[|calls| - 1]);
      if prev.Failure? then prev
      else if step.Failure? then Failure(step.error)
      else Success(Outcome(prev.value.entries + [step.value.entry], prev.value.records + [step.value.record],
                           prev.value.readPaths + step.value.read))
  }

  /** The loop of `tool_node` over the pending calls. */
  function ExecuteAll(calls: seq<ToolCall>, invoke: Invoke): Result<Outcome>
  {
    RunAll(calls, tc => ExecuteCall(tc, invoke))
  }

  /** The paths the `read_file` calls among `calls` add, in order. */
  function ReadPaths(calls: seq<ToolCall>): seq<Value>
  {
    if |calls| == 0 then [] else ReadPaths(calls[..|calls| - 1]) + ReadPath(calls[|calls| - 1])
  }

  /** The loop gets through exactly when every iteration does. */
  lemma {:induction false} RunAllSucceeds(calls: seq<ToolCall>, exec: ToolCall -> Result<Step>)
    ensures RunAll(calls, exec).Success? <==> forall i :: 0 <= i < |calls| ==> exec(calls[i]).Success?
  {
    if |calls| > 0 {
      var init := calls[..|calls| - 1];
      RunAllSucceeds(init, exec);
      assert forall i :: 0 <= i < |init| ==> init[i] == calls[i];
    }
  }

  /** A loop that gets through has one entry and one record per call, in order, each that call's own. */
  lemma {:induction false} RunAllOutcome(calls: seq<ToolCall>, exec: ToolCall -> Result<Step>)
    requires RunAll(calls, exec).Success?
    requires forall tc :: exec(tc).Success? ==> exec(tc).value.read == ReadPath(tc)
    ensures |RunAll(calls, exec).value.entries| == |calls| && |RunAll(calls, exec).value.records| == |calls|
    ensures RunAll(calls, exec).value.readPaths == ReadPaths(calls)
    ensures forall i :: 0 <= i < |calls| ==>
      (exec(calls[i]).Success?
       && RunAll(calls, exec).value.entries[i] == exec(calls[i]).value.entry
       && RunAll(calls, exec).value.records[i] == exec(calls[i]).value.record)
  {
    if |calls| > 0 {
      var init := calls[..|calls| - 1];
      var last := calls[|calls| - 1];
      RunAllOutcome(init, exec);
      var o0 := RunAll(init, exec).value;
      var st := exec(last).value;
      var o := RunAll(calls, exec).value;
      assert o == Outcome(o0.entries + [st.entry], o0.records + [st.record], o0.readPaths + st.read);
      forall i | 0 <= i < |calls|
        ensures exec(calls[i]).Success?
        ensures o.entries[i] == exec(calls[i]).value.entry
        ensures o.records[i] == exec(calls[i]).value.record
      {
        if i < |init| {
          assert calls[i] == init[i];
          assert o.entries[i] == o0.entries[i];
          assert o.records[i] == o0.records[i];
        }
      }
    }
  }

  /** A loop that fails carries the error of its first failing iteration. */
  lemma {:induction false} RunAllFirstError(calls: seq<ToolCall>, exec: ToolCall -> Result<Step>)
    requires RunAll(calls, exec).Failure?
    ensures exists i ::
      && 0 <= i < |calls| && exec(calls[i]).Failure? && (forall j :: 0 <= j < i ==> exec(calls[j]).Success?)
      && RunAll(calls, exec).error == exec(calls[i]).error
  {
    var init := calls[..|calls| - 1];
    assert forall i :: 0 <= i < |init| ==> init[i] == calls[i];
    if RunAll(init, exec).Failure? {
      RunAllFirstError(init, exec);
      var i :| 0 <= i < |init| && exec(init[i]).Failure? && (forall j :: 0 <= j < i ==> exec(init[j]).Success?)
        && RunAll(init, exec).error == exec(init[i]).error;
      assert calls[i] == init[i];
    } else {
      RunAllSucceeds(init, exec);
    }
  }

  /** An iteration that gets through appends its entry, record and read paths. */
  lemma RunAllSnoc(calls: seq<ToolCall>, i: nat, exec: ToolCall -> Result<Step>)
    requires i < |calls| && RunAll(calls[..i], exec).Success? && exec(calls[i]).Success?
    ensures var o := RunAll(calls[..i], exec).value; var st := exec(calls[i]).value;
      RunAll(calls[..i + 1], exec) == Success(Outcome(o.entries + [st.entry], o.records + [st.record], o.readPaths + st.read))
  {
    assert calls[..i + 1][..i] == calls[..i];
  }

  /** An iteration that raises ends the loop with its error, whatever follows it. */
  lemma {:induction false} RunAllStopsAt(calls: seq<ToolCall>, i: nat, exec: ToolCall -> Result<Step>)
    requires i < |calls| && RunAll(calls[..i], exec).Success? && exec(calls[i]).Failure?
    ensures RunAll(calls, exec) == Failure(exec(calls[i]).error)
    decreases |calls|
  {
    if |calls| - 1 == i {
      assert calls[..|calls| - 1] == calls[..i];
    } else {
      assert calls[..|calls| - 1][..i] == calls[..i];
      RunAllStopsAt(calls[..|calls| - 1], i, exec);
    }
  }

  /**
   * The loop of `tool_node` gets through exactly when every call is runnable, whatever the tools
   * do: one entry and one record per call, in order, each the call's own, and the `read_file`
   * paths. Otherwise it fails with the error of the first call that is not runnable.
   */
  lemma ExecuteAllShape(calls: seq<ToolCall>, invoke: Invoke)
    ensures ExecuteAll(calls, invoke).Success? <==> forall i :: 0 <= i < |calls| ==> Runnable(calls[i])
    ensures ExecuteAll(calls, invoke).Success? ==>
      |ExecuteAll(calls, invoke).value.entries| == |calls| && |ExecuteAll(calls, invoke).value.records| == |calls|
    ensures ExecuteAll(calls, invoke).Success? ==> ExecuteAll(calls, invoke).value.readPaths == ReadPaths(calls)
    ensures ExecuteAll(calls, invoke).Success? ==> forall i :: 0 <= i < |calls| ==>
      (ExecuteAll(calls, invoke).value.entries[i] == ExecuteCall(calls[i], invoke).value.entry
       && ExecuteAll(calls, invoke).value.records[i] == ExecuteCall(calls[i], invoke).value.record)
    ensures ExecuteAll(calls, invoke).Failure? ==>
      exists i ::
        && 0 <= i < |calls| && !Runnable(calls[i]) && (forall j :: 0 <= j < i ==> Runnable(calls[j]))
        && ExecuteAll(calls, invoke).error == ExecuteCall(calls[i], invoke).error
  {
    var exec := tc => ExecuteCall(tc, invoke);
    RunAllSucceeds(calls, exec);
    if ExecuteAll(calls, invoke).Success? {
      RunAllOutcome(calls, exec);
    } else {
      RunAllFirstError(calls, exec);
    }
  }

  /** `tool_node`: nothing pending keeps context and history; otherwise the loop's additions. */
  function ToolNodeSpec(s: State, invoke: Invoke): Result<Update>
  {
    if |s.pending| == 0 then
      Success(NoUpdate.(context := Some(s.context), toolHistory := Some(s.toolHistory), pending := Some([])))
    else
      match ExecuteAll(s.pending, invoke)
      case Failure(e) => Failure(e)
      case Success(o) =>
        Success(NoUpdate.(context := Some(s.context + o.entries), toolHistory := Some(s.toolHistory + o.records),
                          filesRead := Some(s.filesRead + o.readPaths), pending := Some([])))
  }

  /**
   * Tool execution only appends: with calls pending, context and history each grow by one
   * entry per call behind the old ones, `files_read` grows by the read paths, and the pending
   * list is cleared; each call's entry is "[name] result" and its record keeps the first 500
   * characters of the result; a tool's failure is reported in its entry and never stops the loop.
   */
  lemma ToolNodeAppends(s: State, invoke: Invoke)
    ensures |s.pending| == 0 ==>
      ToolNodeSpec(s, invoke) == Success(NoUpdate.(context := Some(s.context), toolHistory := Some(s.toolHistory), pending := Some([])))
    ensures |s.pending| > 0 ==>
      (ToolNodeSpec(s, invoke).Success? <==> forall i :: 0 <= i < |s.pending| ==> Runnable(s.pending[i]))
    ensures |s.pending| > 0 && ToolNodeSpec(s, invoke).Success? ==> (
      var u := ToolNodeSpec(s, invoke).value;
      && u.context.Some? && |u.context.value| == |s.context| + |s.pending| && u.context.value[..|s.context|] == s.context
      && u.toolHistory.Some? && |u.toolHistory.value| == |s.toolHistory| + |s.pending|
      && u.toolHistory.value[..|s.toolHistory|] == s.toolHistory
      && u.filesRead == Some(s.filesRead + ReadPaths(s.pending))
      && u.pending == Some([]) && u.iteration.None? && u.isSufficient.None? && u.finalAnswer.None?
      && (forall i :: 0 <= i < |s.pending| ==>
            StartsWith(u.context.value[|s.context| + i], "[" + Render(s.pending[i].name) + "] ")
            && |u.toolHistory.value[|s.toolHistory| + i].output| <= 500
            && u.toolHistory.value[|s.toolHistory| + i].tool == s.pending[i].name
            && u.context.value[|s.context| + i]
               == "[" + Render(s.pending[i].name) + "] " + CallResult(s.pending[i].name, s.pending[i].args.fields, invoke)
            && u.toolHistory.value[|s.toolHistory| + i].output
               == Take(CallResult(s.pending[i].name, s.pending[i].args.fields, invoke), 500)))
  {
    ExecuteAllShape(s.pending, invoke);
    if |s.pending| > 0 && ToolNodeSpec(s, invoke).Success? {
      var o := ExecuteAll(s.pending, invoke).value;
      assert (s.context + o.entries)[..|s.context|] == s.context;
      assert (s.toolHistory + o.records)[..|s.toolHistory|] == s.toolHistory;
      forall i | 0 <= i < |s.pending|
        ensures (s.context + o.entries)[|s.context| + i] == o.entries[i]
        ensures (s.toolHistory + o.records)[|s.toolHistory| + i] == o.records[i]
      {
      }
    }
  }

  /** `tool_node`: the loop's additions appended to copies of the lists. */
  method ToolNode(s: State, invoke: Invoke) returns (r: Result<Update>)
    ensures r == ToolNodeSpec(s, invoke)
  {
    if |s.pending| == 0 {
      return Success(NoUpdate.(context := Some(s.context), toolHistory := Some(s.toolHistory), pending := Some([])));
    }
    var added := RunPending(s.pending, invoke);
    if added.Failure? {
      return Failure(added.error);
    }
    return Success(NoUpdate.(context := Some(s.context + added.value.entries),
                             toolHistory := Some(s.toolHistory + added.value.records),
                             filesRead := Some(s.filesRead + added.value.readPaths), pending := Some([])));
  }

  /** The loop of `tool_node`: each call run in turn, its entry, record and read path collected. */
  method RunPending(calls: seq<ToolCall>, invoke: Invoke) returns (r: Result<Outcome>)
    ensures r == ExecuteAll(calls, invoke)
  {
    var entries: seq<string> := [];
    var records: seq<ToolRecord> := [];
    var readPaths: seq<Value> := [];
    for i := 0 to |calls|
      invariant ExecuteAll(calls[..i], invoke) == Success(Outcome(entries, records, readPaths))
    {
      var step := RunCall(calls[i], invoke);
      if step.Failure? {
        RunAllStopsAt(calls, i, tc => ExecuteCall(tc, invoke));
        return Failure(step.error);
      }
      RunAllSnoc(calls, i, tc => ExecuteCall(tc, invoke));
      entries := entries + [step.value.entry];
      records := records + [step.value.record];
      readPaths := readPaths + step.value.read;
    }
    assert calls[..|calls|] == calls;
    return Success(Outcome(entries, records, readPaths));
  }

  /** One iteration of the loop of `tool_node`, in the source's order of evaluation. */
  method RunCall(tc: ToolCall, invoke: Invoke) returns (r: Result<Step>)
    ensures r == ExecuteCall(tc, invoke)
  {
    if !tc.args.Obj? {
      return Failure(NoItemsError(tc.args));
    }
    if !Hashable(tc.name) {
      return Failure(UnhashableError(tc.name));
    }
    var result: string;
    if AgentTools.IsRegistered(tc.name) {
      var out := invoke(tc.name.s, tc.args.fields);
      if out.Success? {
        result := out.value;
      } else {
        result := "Tool error (" + tc.name.s + "): " + out.error;
      }
    } else {
      result := "Unknown tool: " + Render(tc.name);
    }
    var read: seq<Value> := [];
    if tc.name == Str("read_file") && "file_path" in tc.args.fields {
      read := [tc.args.fields["file_path"]];
    }
    return Success(Step("[" + Render(tc.name) + "] " + result, ToolRecord(tc.name, tc.args, Take(result, 500)), read));
  }

  // ------------------------------------------------------------------ evaluation

  const EvidenceWindow: nat := 10
  const SufficientChars: nat := 100

  function EvaluateRequest(s: State): LlmRequest
  {
    LlmRequest(EvaluateStage, HistoryToMessages(s.messages), None,
      "User question: " + s.query + "\n\nEvidence gathered:\n" + Join("\n---\n", TakeLast(s.context, EvidenceWindow)))
  }

  /** The JSON a reply carries, read as `evaluate_node` reads it. */
  function ParseReply(content: string, loads: Loads): Option<Value>
  {
    ExtractJsonSpec(StripThinkTags(Strip(content)), loads)
  }

  /** The verdict on a parsed reply: a JSON object's "sufficient" (False when absent), else whether the evidence exceeds 100 characters. */
  function Verdict(parsed: Option<Value>, context: seq<string>): Value
  {
    if parsed.Some? && parsed.value.Obj? then Get(parsed.value.fields, "sufficient", Bool(false))
    else Bool(SumLen(context) > SufficientChars)
  }

  /**
   * The message of the exception `reason[:80]` raises on a value that is neither a string nor
   * a list: a dict looks the slice up as a key, which is unhashable; the other types cannot be
   * subscripted at all.
   */
  function SliceError(v: Value): string
  {
    if v.Obj? then "unhashable type: 'slice'" else "'" + PyTypeName(v) + "' object is not subscriptable"
  }

  /**
   * The exception of the "need more evidence" status line, which cuts the reason to 80
   * characters before it is shown: only a JSON object's own "reason" can be something other
   * than text, and only a falsy verdict shows it.
   */
  function StatusError(parsed: Option<Value>, context: seq<string>): Option<string>
  {
    if parsed.Some? && parsed.value.Obj? && !Truthy(Verdict(parsed, context)) then
      var reason := Get(parsed.value.fields, "reason", Str(""));
      if reason.Str? || reason.Arr? then None else Some(SliceError(reason))
    else None
  }

  /**
   * `evaluate_node`: the iteration always advances by one; without evidence the verdict is
   * False and the model is not asked; otherwise the model's verdict, or the model's exception,
   * or the status line's.
   */
  function EvaluateNode(s: State, llm: Llm, loads: Loads): (r: Result<Update>)
    ensures r.Success? ==> r.value.iteration == Some(s.iteration + 1) && r.value.isSufficient.Some?
    ensures r.Success? ==> r.value == NoUpdate.(iteration := r.value.iteration, isSufficient := r.value.isSufficient)
    ensures |s.context| == 0 ==> r == Success(NoUpdate.(iteration := Some(s.iteration + 1), isSufficient := Some(Bool(false))))
    ensures r.Failure? <==>
      |s.context| > 0
      && (llm(EvaluateRequest(s)).Failure?
          || StatusError(ParseReply(llm(EvaluateRequest(s)).value.content, loads), s.context).Some?)
    ensures |s.context| > 0 && llm(EvaluateRequest(s)).Success? && r.Success? ==>
      r.value.isSufficient == Some(Verdict(ParseReply(llm(EvaluateRequest(s)).value.content, loads), s.context))
  {
    var it := s.iteration + 1;
    if |s.context| == 0 then Success(NoUpdate.(iteration := Some(it), isSufficient := Some(Bool(false))))
    else
      match llm(EvaluateRequest(s))
      case Failure(e) => Failure(e)
      case Success(reply) =>
        var parsed := ParseReply(reply.content, loads);
        match StatusError(parsed, s.context)
        case Some(e) => Failure(e)
        case None => Success(NoUpdate.(iteration := Some(it), isSufficient := Some(Verdict(parsed, s.context))))
  }

  /**
   * The status line raises exactly when the reply is a JSON object with a falsy (or missing)
   * "sufficient" and a "reason" that is null, a boolean, a number or an object; an unparsable
   * reply, a truthy verdict, or a reason that is text or a list never raises.
   */
  lemma StatusErrorCases(parsed: Option<Value>, context: seq<string>)
    ensures StatusError(parsed, context).Some? <==>
      parsed.Some? && parsed.value.Obj?
      && !Truthy(Get(parsed.value.fields, "sufficient", Bool(false)))
      && "reason" in parsed.value.fields
      && var reason := parsed.value.fields["reason"];
         reason.Null? || reason.Bool? || reason.Num? || reason.Obj?
  {
  }

  /** Without evidence the model's answer is never looked at. */
  lemma EvaluateWithoutEvidenceSkipsModel(s: State, llm1: Llm, llm2: Llm, loads: Loads)
    requires |s.context| == 0
    ensures EvaluateNode(s, llm1, loads) == EvaluateNode(s, llm2, loads)
  {
  }

  /**
   * The verdict follows the reply's JSON object when there is one, and otherwise the amount of
   * evidence: True exactly when it has more than 100 characters.
   */
  lemma VerdictCases(parsed: Option<Value>, context: seq<string>)
    ensures parsed.Some? && parsed.value.Obj? && "sufficient" in parsed.value.fields ==>
      Verdict(parsed, context) == parsed.value.fields["sufficient"]
    ensures parsed.Some? && parsed.value.Obj? && "sufficient" !in parsed.value.fields ==>
      Verdict(parsed, context) == Bool(false)
    ensures !(parsed.Some? && parsed.value.Obj?) ==> (Verdict(parsed, context) == Bool(true) <==> SumLen(context) > SufficientChars)
  {
  }

  // ------------------------------------------------------------------ synthesis

  const NoEvidence: string := "(No evidence was found.)"

  /** The evidence block of the synthesis prompt: every context entry, or a fixed note when there are none. */
  function SynthesisContext(context: seq<string>): (r: string)
    ensures |context| == 0 ==> r == NoEvidence
    ensures |context| > 0 ==> r == Join("\n---\n", context)
  {
    if |context| > 0 then Join("\n---\n", context) else NoEvidence
  }

  function SynthesizeRequest(s: State): LlmRequest
  {
    LlmRequest(SynthesizeStage, HistoryToMessages(s.messages), None,
      "Context:\n" + SynthesisContext(s.context) + "\n\nQuestion: " + s.query)
  }

  /** `synthesize_node`: the reply without think blocks, with card numbers masked, as the final answer. */
  function SynthesizeNode(s: State, llm: Llm): (r: Result<Update>)
    ensures r.Failure? <==> llm(SynthesizeRequest(s)).Failure?
    ensures r.Success? ==> r.value == NoUpdate.(finalAnswer := Some(
      Security.MaskSensitiveData(StripThinkTags(llm(SynthesizeRequest(s)).value.content))))
  {
    match llm(SynthesizeRequest(s))
    case Failure(e) => Failure(e)
    case Success(reply) => Success(NoUpdate.(finalAnswer := Some(Security.MaskSensitiveData(StripThinkTags(reply.content)))))
  }
}
