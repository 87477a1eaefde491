/**
 * The text helpers of the agent's nodes: removing `<think>` blocks, turning the conversation
 * history into chat messages, pulling JSON out of free model output, mining tool names from
 * prose, and collecting file paths mentioned in tool results.
 */
module AgentText {
  import opened Wrappers
  import opened Json
  import opened Text
  import opened Regex
  import opened Collections
  import AgentTools

  // ------------------------------------------------------------------ think blocks

  const OpenTag: string := "<think>"
  const CloseTag: string := "</think>"

  /**
   * A non-greedy DOTALL block `open.*?close`: an `open` tag at `i`, then the shortest text up
   * to the first `close` tag after it.
   */
  function BlockAt(open: string, close: string, s: string, i: nat): (r: Option<Match>)
    ensures r.Some? ==> OccursAt(s, open, i) && i + |open| + |close| <= r.value.end <= |s|
  {
    if i < |s| && OccursAt(s, open, i) then
      var k := FindFrom(s, close, i + |open|);
      if k == -1 then None else Some(Match(k + |close|, s[i..k + |close|]))
    else None
  }

  /** The pattern `<think>.*?</think>` with DOTALL. */
  function ThinkAt(s: string, i: nat): (r: Option<Match>)
    ensures r.Some? ==> OccursAt(s, OpenTag, i) && i < r.value.end <= |s|
  {
    BlockAt(OpenTag, CloseTag, s, i)
  }

  /** `_THINK_TAG_RE.sub("", text)`: every block, scanning left to right, removed. */
  function RemoveThinkBlocks(text: string): string
  {
    Sub(ThinkAt, text, "")
  }

  /** `_strip_think_tags`: the blocks removed, then surrounding whitespace stripped. */
  function StripThinkTags(text: string): (r: string)
    ensures r == [] || (!IsSpace(r[0]) && !IsSpace(r[|r| - 1]))
  {
    Strip(RemoveThinkBlocks(text))
  }

  /** Without a closing tag nothing is removed, so an unclosed `<think>` survives. */
  lemma UnclosedThinkSurvives(text: string)
    requires !Contains(text, CloseTag)
    ensures RemoveThinkBlocks(text) == text
    ensures StripThinkTags(text) == Strip(text)
  {
    NoMatchKeepsText(ThinkAt, text, 0, "");
  }

  /** A block at `k` of `b` is found again at `|a| + k` in `a + b`, moved by `|a|`. */
  lemma BlockAtShift(open: string, close: string, a: string, b: string, k: nat)
    requires k <= |b|
    ensures BlockAt(open, close, a + b, |a| + k).Some? <==> BlockAt(open, close, b, k).Some?
    ensures BlockAt(open, close, b, k).Some? ==>
      BlockAt(open, close, a + b, |a| + k).value
        == Match(BlockAt(open, close, b, k).value.end + |a|, BlockAt(open, close, b, k).value.group)
  {
    var s := a + b;
    var i := |a| + k;
    if k + |open| <= |b| {
      SliceOfAppend(a, b, k, k + |open|);
      if OccursAt(b, open, k) && k < |b| {
        FindFromShift(a, b, close, k + |open|);
        var kb := FindFrom(b, close, k + |open|);
        if kb != -1 {
          SliceOfAppend(a, b, k, kb + |close|);
        }
      }
    } else {
      assert !OccursAt(s, open, i) && !OccursAt(b, open, k);
    }
  }

  /** A block match only looks at the text from its opening tag on. */
  lemma ThinkShiftsAt(a: string, b: string, k: nat)
    requires k <= |b|
    ensures ShiftAt(ThinkAt, a, b, k)
  {
    BlockAtShift(OpenTag, CloseTag, a, b, k);
  }

  lemma ThinkShifts(a: string, b: string)
    ensures ShiftsFrom(ThinkAt, a, b, 0)
  {
    forall k | 0 <= k <= |b| ensures ShiftAt(ThinkAt, a, b, k) {
      ThinkShiftsAt(a, b, k);
    }
  }

  /** Text before the first opening tag is copied unchanged. */
  lemma ThinkKeepsPrefix(pre: string, rest: string)
    requires Find(pre + OpenTag, OpenTag) == |pre|
    requires StartsWith(rest, OpenTag)
    ensures RemoveThinkBlocks(pre + rest) == pre + RemoveThinkBlocks(rest)
  {
    var s := pre + rest;
    assert s[..|pre| + |OpenTag|] == pre + OpenTag;
    forall j | 0 <= j < |pre| ensures !OccursAt(s, OpenTag, j) {
      assert !OccursAt(pre + OpenTag, OpenTag, j);
      SliceOfPrefix(s, |pre| + |OpenTag|, j, j + |OpenTag|);
    }
    SubCopiesUpTo(ThinkAt, s, 0, |pre|, "");
    assert s[..|pre|] == pre;
    ThinkShifts(pre, rest);
    SubShift(ThinkAt, pre, rest, 0, "");
  }

  /** A block whose body holds no closing tag is removed whole. */
  lemma ThinkRemovesBlock(body: string, post: string)
    requires Find(body + CloseTag, CloseTag) == |body|
    ensures RemoveThinkBlocks(OpenTag + body + CloseTag + post) == RemoveThinkBlocks(post)
  {
    var block := OpenTag + body + CloseTag;
    var b := block + post;
    var x := body + CloseTag + post;
    assert b == OpenTag + x;
    assert b[0..|OpenTag|] == OpenTag;
    assert x == (body + CloseTag) + post;
    FindFromExtend(body + CloseTag, post, CloseTag, 0);
    FindFromShift(OpenTag, x, CloseTag, 0);
    assert ThinkAt(b, 0).value.end == |block|;
    ThinkShifts(block, post);
    SubShift(ThinkAt, block, post, 0, "");
  }

  /**
   * A block is removed and the text around it kept: when the first opening tag follows `pre`
   * and the first closing tag after it ends `body`, the block disappears and the scan goes on
   * in `post`.
   */
  lemma RemovesFirstBlock(pre: string, body: string, post: string)
    requires Find(pre + OpenTag, OpenTag) == |pre|
    requires Find(body + CloseTag, CloseTag) == |body|
    ensures RemoveThinkBlocks(pre + OpenTag + body + CloseTag + post) == pre + RemoveThinkBlocks(post)
  {
    var rest := OpenTag + body + CloseTag + post;
    assert pre + OpenTag + body + CloseTag + post == pre + rest;
    assert rest[..|OpenTag|] == OpenTag;
    ThinkKeepsPrefix(pre, rest);
    ThinkRemovesBlock(body, post);
  }

  /** With the blocks removed and whitespace stripped, one block and its surroundings. */
  lemma StripsFirstBlock(pre: string, body: string, post: string)
    requires Find(pre + OpenTag, OpenTag) == |pre|
    requires Find(body + CloseTag, CloseTag) == |body|
    ensures StripThinkTags(pre + OpenTag + body + CloseTag + post) == Strip(pre + RemoveThinkBlocks(post))
  {
    RemovesFirstBlock(pre, body, post);
  }

  // ------------------------------------------------------------------ chat messages

  /** A LangChain message: system, assistant (AI) or user (human). */
  datatype ChatMessage = SystemMessage(content: string) | AiMessage(content: string) | HumanMessage(content: string)

  /** A conversation turn `{"role": ..., "content": ...}`; either key may be missing. */
  type Turn = map<string, string>

  function Role(t: Turn): string
  {
    if "role" in t then t["role"] else "user"
  }

  function TurnContent(t: Turn): string
  {
    if "content" in t then t["content"] else ""
  }

  /** The message one turn becomes. */
  function TurnMessage(t: Turn): (m: ChatMessage)
  {
    if Role(t) == "system" then SystemMessage(TurnContent(t))
    else if Role(t) == "assistant" then AiMessage(TurnContent(t))
    else HumanMessage(TurnContent(t))
  }

  /** `_history_to_messages`: one message per turn, in order. */
  function HistoryToMessages(history: seq<Turn>): (r: seq<ChatMessage>)
    ensures |r| == |history|
    ensures forall i :: 0 <= i < |history| ==> r[i] == TurnMessage(history[i])
  {
    seq(|history|, i requires 0 <= i < |history| => TurnMessage(history[i]))
  }

  /** The role a message carries back: the three roles the conversion tells apart. */
  function MessageRole(m: ChatMessage): string
  {
    match m
    case SystemMessage(_) => "system"
    case AiMessage(_) => "assistant"
    case HumanMessage(_) => "user"
  }

  /**
   * Nothing but the role's spelling is lost: a turn's content survives, "system" and
   * "assistant" are kept, and every other role (or none) reads back as "user".
   */
  lemma HistoryRoundTrip(history: seq<Turn>, i: nat)
    requires i < |history|
    ensures HistoryToMessages(history)[i].content == TurnContent(history[i])
    ensures MessageRole(HistoryToMessages(history)[i]) ==
      if Role(history[i]) in {"system", "assistant"} then Role(history[i]) else "user"
  {
  }

  // ------------------------------------------------------------------ JSON extraction

  /** `json.loads`: the decoded value, or None when it raises. */
  type Loads = string -> Option<Value>

  const Fence: string := "```"

  /** The number of occurrences of `c` in `s`. */
  function CountChar(s: string, c: char): nat
  {
    if |s| == 0 then 0 else CountChar(s[..|s| - 1], c) + (if s[|s| - 1] == c then 1 else 0)
  }

  /** The bracket depth after reading `s[start..end]`: opening brackets minus closing ones. */
  function Depth(s: string, start: nat, end: nat, open: char, close: char): int
    requires start <= end <= |s|
  {
    CountChar(s[start..end], open) - CountChar(s[start..end], close)
  }

  /** Reading one more character moves the depth by one bracket. */
  lemma DepthStep(s: string, start: nat, i: nat, open: char, close: char)
    requires start <= i < |s| && open != close
    ensures Depth(s, start, i + 1, open, close) ==
      Depth(s, start, i, open, close) + (if s[i] == open then 1 else if s[i] == close then -1 else 0)
  {
    assert s[start..i + 1][..i - start] == s[start..i];
  }

  /** The first index at or after `from` where the brackets opened since `start` are all closed. */
  function BalanceFrom(s: string, start: nat, from: nat, open: char, close: char): (r: Option<nat>)
    requires start <= from <= |s|
    ensures r.Some? ==> from <= r.value < |s| && Depth(s, start, r.value + 1, open, close) == 0
    ensures forall e :: from < e <= (if r.Some? then r.value else |s|) ==> Depth(s, start, e, open, close) != 0
    decreases |s| - from
  {
    if from == |s| then None
    else if Depth(s, start, from + 1, open, close) == 0 then Some(from)
    else BalanceFrom(s, start, from + 1, open, close)
  }

  /** As many opening as closing brackets. */
  predicate Balanced(t: string, open: char, close: char)
  {
    CountChar(t, open) == CountChar(t, close)
  }

  /**
   * The bracket-scan candidate: from the first `open` to the first place where the brackets
   * balance. It starts with `open`, is balanced, and no shorter prefix of it is.
   */
  function BracketCandidate(s: string, open: char, close: char): (r: Option<string>)
    ensures r.Some? ==> |r.value| > 0 && r.value[0] == open && Balanced(r.value, open, close)
    ensures r.Some? ==> forall n :: 0 < n < |r.value| ==> !Balanced(r.value[..n], open, close)
  {
    var start := Find(s, [open]);
    if start == -1 then None
    else
      match BalanceFrom(s, start, start, open, close)
      case None => None
      case Some(e) =>
        var c := s[start..e + 1];
        assert s[start..start + 1] == [open];
        assert c[0] == s[start];
        forall n | 0 < n < |c| ensures !Balanced(c[..n], open, close) {
          assert c[..n] == s[start..start + n];
          assert Depth(s, start, start + n, open, close) != 0;
        }
        Some(c)
  }

  /** A leading "json" or "JSON" language tag removed. */
  function DropJsonTag(f: string): (r: string)
  {
    if StartsWith(f, "json") || StartsWith(f, "JSON") then f[4..] else f
  }

  /** The fenced candidate: the text between the first two fences, untagged and stripped. */
  function FencedCandidate(s: string): (r: Option<string>)
    ensures r.Some? ==> Contains(s, Fence)
  {
    if Contains(s, Fence) then
      var parts := Split(s, Fence);
      if |parts| >= 3 then Some(Strip(DropJsonTag(parts[1]))) else None
    else None
  }

  /** A candidate parsed, when there is one. */
  function TryLoads(c: Option<string>, loads: Loads): Option<Value>
  {
    if c.Some? then loads(c.value) else None
  }

  /** The parse of the first candidate that parses. */
  function FirstLoad(cs: seq<Option<string>>, loads: Loads): Option<Value>
  {
    if |cs| == 0 then None
    else if TryLoads(cs[0], loads).Some? then TryLoads(cs[0], loads)
    else FirstLoad(cs[1..], loads)
  }

  /**
   * The answer is the parse of the first candidate that parses, and None exactly when no
   * candidate parses: a later candidate is only tried when every earlier one failed.
   */
  lemma {:induction false} FirstLoadIsFirstSuccess(cs: seq<Option<string>>, loads: Loads)
    ensures FirstLoad(cs, loads).None? <==> forall k :: 0 <= k < |cs| ==> TryLoads(cs[k], loads).None?
    ensures FirstLoad(cs, loads).Some? ==>
      exists k :: 0 <= k < |cs| && FirstLoad(cs, loads) == TryLoads(cs[k], loads)
        && forall j :: 0 <= j < k ==> TryLoads(cs[j], loads).None?
  {
    if |cs| > 0 && TryLoads(cs[0], loads).None? {
      FirstLoadIsFirstSuccess(cs[1..], loads);
      if FirstLoad(cs, loads).Some? {
        var k :| 0 <= k < |cs[1..]| && FirstLoad(cs[1..], loads) == TryLoads(cs[1..][k], loads)
          && forall j :: 0 <= j < k ==> TryLoads(cs[1..][j], loads).None?;
        assert FirstLoad(cs, loads) == TryLoads(cs[k + 1], loads);
        forall j | 0 <= j < k + 1 ensures TryLoads(cs[j], loads).None? {
          if j > 0 {
            assert cs[j] == cs[1..][j - 1];
          }
        }
      } else {
        forall k | 0 <= k < |cs| ensures TryLoads(cs[k], loads).None? {
          if k > 0 {
            assert cs[k] == cs[1..][k - 1];
          }
        }
      }
    }
  }

  /** The candidates `_extract_json` tries, in order: whole text, fenced block, `[` scan, `{` scan. */
  function JsonCandidates(cleaned: string): (cs: seq<Option<string>>)
    ensures |cs| == 4 && cs[0] == Some(cleaned)
  {
    [Some(cleaned), FencedCandidate(cleaned), BracketCandidate(cleaned, '[', ']'), BracketCandidate(cleaned, '{', '}')]
  }

  /** `_extract_json`: the first candidate of the think-free text that parses. */
  function ExtractJsonSpec(text: string, loads: Loads): Option<Value>
  {
    FirstLoad(JsonCandidates(StripThinkTags(text)), loads)
  }

  /** Text that parses as it stands (after think blocks are removed) is taken whole. */
  lemma WholeTextFirst(text: string, loads: Loads)
    requires loads(StripThinkTags(text)).Some?
    ensures ExtractJsonSpec(text, loads) == loads(StripThinkTags(text))
  {
  }

  /** The depth-counting scan for one bracket type. */
  method ScanBracket(cleaned: string, open: char, close: char) returns (c: Option<string>)
    requires open != close
    ensures c == BracketCandidate(cleaned, open, close)
  {
    var start := Find(cleaned, [open]);
    if start == -1 {
      return None;
    }
    var depth := 0;
    var i := start;
    while i < |cleaned|
      invariant start <= i <= |cleaned|
      invariant depth == Depth(cleaned, start, i, open, close)
      invariant BalanceFrom(cleaned, start, start, open, close) == BalanceFrom(cleaned, start, i, open, close)
      decreases |cleaned| - i
    {
      DepthStep(cleaned, start, i, open, close);
      if cleaned[i] == open {
        depth := depth + 1;
      } else if cleaned[i] == close {
        depth := depth - 1;
      }
      assert depth == Depth(cleaned, start, i + 1, open, close);
      if depth == 0 {
        return Some(cleaned[start..i + 1]);
      }
      i := i + 1;
    }
    return None;
  }

  /** `_extract_json`, step by step as the source does it. */
  method ExtractJson(text: string, loads: Loads) returns (r: Option<Value>)
    ensures r == ExtractJsonSpec(text, loads)
  {
    var cleaned := StripThinkTags(text);
    ghost var cs := JsonCandidates(cleaned);
    r := loads(cleaned);
    if r.Some? {
      return;
    }
    assert FirstLoad(cs, loads) == FirstLoad(cs[1..], loads);
    if Contains(cleaned, Fence) {
      var parts := Split(cleaned, Fence);
      if |parts| >= 3 {
        var fenced := parts[1];
        if StartsWith(fenced, "json") || StartsWith(fenced, "JSON") {
          fenced := fenced[4..];
        }
        r := loads(Strip(fenced));
        if r.Some? {
          return;
        }
      }
    }
    assert FirstLoad(cs[1..], loads) == FirstLoad(cs[2..], loads);
    var c := ScanBracket(cleaned, '[', ']');
    if c.Some? {
      r := loads(c.value);
      if r.Some? {
        return;
      }
    }
    assert FirstLoad(cs[2..], loads) == FirstLoad(cs[3..], loads);
    c := ScanBracket(cleaned, '{', '}');
    assert FirstLoad(cs[3..], loads) == TryLoads(c, loads);
    if c.Some? {
      r := loads(c.value);
      if r.Some? {
        return;
      }
    }
    return None;
  }

  // ------------------------------------------------------------------ tool names in prose

  /** A tool call as the planner emits it: `{"name": ..., "args": ...}`. */
  datatype ToolCall = ToolCall(name: Value, args: Value)

  /** The argument key a tool mentioned in prose is given, in the order the tools are tried. */
  const ToolArgKeys: seq<(string, string)> := [
    ("grep_search", "query"), ("vector_search", "query"), ("read_file", "file_path"),
    ("graph_related", "entity_id"), ("jira_fetch", "issue_key"), ("confluence_fetch", "page_id"),
    ("web_fetch", "url")]

  /** The mined tools are the registry's tools, in the registry's order, each once. */
  lemma ToolArgKeysFollowRegistry()
    ensures |ToolArgKeys| == |AgentTools.ToolNames|
    ensures forall m :: 0 <= m < |ToolArgKeys| ==> ToolArgKeys[m].0 == AgentTools.ToolNames[m]
    ensures forall i, j :: 0 <= i < j < |ToolArgKeys| ==> ToolArgKeys[i].0 != ToolArgKeys[j].0
  {
    AgentTools.RegistryNamesDistinct();
  }

  predicate IsQuote(c: char)
  {
    c == '"' || c == '\''
  }

  /** The lower-case `name` at index `i`, letters compared without case. */
  predicate NameAt(s: string, name: string, i: nat)
  {
    i + |name| <= |s| && forall d :: 0 <= d < |name| ==> LowerChar(s[i + d]) == name[d]
  }

  /**
   * Where the opening quote is when the argument list starts at `k`: right there, or after a
   * keyword `\w+\s*=\s*`. Each run is taken whole: a shorter one would be followed by a
   * character the next part cannot start with.
   */
  function OpenQuote(s: string, k: nat): (q: Option<nat>)
    requires k <= |s|
    ensures q.Some? ==> k <= q.value < |s| && IsQuote(s[q.value])
  {
    if k < |s| && IsQuote(s[k]) then Some(k)
    else if k < |s| && IsWord(s[k]) then
      var eq := Span(s, Span(s, k, IsWord), IsSpace);
      if eq < |s| && s[eq] == '=' then
        var q := Span(s, eq + 1, IsSpace);
        if q < |s| && IsQuote(s[q]) then Some(q) else None
      else None
    else None
  }

  /**
   * The pattern `name\s*\(\s*(?:\w+\s*=\s*)?["']([^"']+)["']`, case-insensitive, at index
   * `i`: the group is the non-empty quote-free text between the two quotes.
   */
  function QuotedArgAt(name: string, s: string, i: nat): (r: Option<Match>)
    ensures r.Some? ==> NameAt(s, name, i) && i < r.value.end <= |s| && IsQuote(s[r.value.end - 1])
    ensures r.Some? ==> |r.value.group| > 0 && forall c :: c in r.value.group ==> !IsQuote(c)
  {
    if i < |s| && NameAt(s, name, i) then
      var j := Span(s, i + |name|, IsSpace);
      if j < |s| && s[j] == '(' then
        var q := OpenQuote(s, Span(s, j + 1, IsSpace));
        if q.Some? then
          var e := Span(s, q.value + 1, c => !IsQuote(c));
          if q.value + 1 < e < |s| then
            assert forall c :: c in s[q.value + 1..e] ==> !IsQuote(c);
            Some(Match(e + 1, s[q.value + 1..e]))
          else None
        else None
      else None
    else None
  }

  function QuotedArg(name: string): Matcher
  {
    (s: string, i: nat) => QuotedArgAt(name, s, i)
  }

  /** The argument mined for `name`: the first quoted argument after it, or else the query. */
  function MinedArg(raw: string, name: string, query: string): string
  {
    match SearchFrom(QuotedArg(name), raw, 0)
    case Some(i) => QuotedArgAt(name, raw, i).value.group
    case None => query
  }

  /**
   * The mined argument is the query exactly when no quoted argument follows the name; otherwise
   * it is a non-empty quote-free text.
   */
  lemma MinedArgShape(raw: string, name: string, query: string)
    ensures NoMatchFrom(QuotedArg(name), raw, 0) ==> MinedArg(raw, name, query) == query
    ensures !NoMatchFrom(QuotedArg(name), raw, 0) ==>
      var v := MinedArg(raw, name, query);
      |v| > 0 && forall c :: c in v ==> !IsQuote(c)
  {
  }

  /** The lower-cased text mentions `name` (`tool_name in raw_response.lower()`). */
  predicate Mentions(raw: string, name: string)
  {
    Contains(Lower(raw), name)
  }

  function MinedCall(raw: string, query: string, entry: (string, string)): ToolCall
  {
    ToolCall(Str(entry.0), Obj(map[entry.1 := Str(MinedArg(raw, entry.0, query))]))
  }

  /** The entries kept by `keep`, each turned into a call by `build`, in order. */
  function Mined(keys: seq<(string, string)>, keep: string -> bool, build: ((string, string)) -> ToolCall): seq<ToolCall>
  {
    if |keys| == 0 then []
    else
      var last := keys[|keys| - 1];
      Mined(keys[..|keys| - 1], keep, build) + (if keep(last.0) then [build(last)] else [])
  }

  /** The calls mined from the text over a list of (tool, argument key) entries. */
  function MinedCalls(raw: string, query: string, keys: seq<(string, string)>): seq<ToolCall>
  {
    Mined(keys, name => Mentions(raw, name), entry => MinedCall(raw, query, entry))
  }

  predicate DistinctNames(keys: seq<(string, string)>)
  {
    forall i, j :: 0 <= i < j < |keys| ==> keys[i].0 != keys[j].0
  }

  /** `c` is the call built for one kept entry. */
  ghost predicate BuiltFromKept(keys: seq<(string, string)>, keep: string -> bool, build: ((string, string)) -> ToolCall, c: ToolCall)
  {
    exists m :: 0 <= m < |keys| && keep(keys[m].0) && c == build(keys[m])
  }

  /** Each mined call is the call built for one kept entry. */
  lemma {:induction false} MinedFromEntries(keys: seq<(string, string)>, keep: string -> bool, build: ((string, string)) -> ToolCall)
    ensures forall k :: 0 <= k < |Mined(keys, keep, build)| ==> BuiltFromKept(keys, keep, build, Mined(keys, keep, build)[k])
  {
    if |keys| > 0 {
      var init := keys[..|keys| - 1];
      MinedFromEntries(init, keep, build);
      var r0 := Mined(init, keep, build);
      var r := Mined(keys, keep, build);
      forall k | 0 <= k < |r| ensures BuiltFromKept(keys, keep, build, r[k]) {
        if k < |r0| {
          assert r[k] == r0[k];
          assert BuiltFromKept(init, keep, build, r0[k]);
          var m :| 0 <= m < |init| && keep(init[m].0) && r0[k] == build(init[m]);
          assert init[m] == keys[m];
        } else {
          assert keep(keys[|keys| - 1].0) && r[k] == build(keys[|keys| - 1]);
        }
      }
    }
  }

  /**
   * When the entries' names are distinct and every call carries its entry's name, no name is
   * mined twice and a name is mined exactly when it is kept.
   */
  lemma {:induction false} MinedShape(keys: seq<(string, string)>, keep: string -> bool, build: ((string, string)) -> ToolCall)
    requires DistinctNames(keys)
    requires forall m :: 0 <= m < |keys| ==> build(keys[m]).name == Str(keys[m].0)
    ensures var r := Mined(keys, keep, build);
      forall k1, k2 :: 0 <= k1 < k2 < |r| ==> r[k1].name != r[k2].name
    ensures var r := Mined(keys, keep, build);
      forall m :: 0 <= m < |keys| ==> (keep(keys[m].0) <==> exists k :: 0 <= k < |r| && r[k].name == Str(keys[m].0))
  {
    if |keys| > 0 {
      var init := keys[..|keys| - 1];
      var last := keys[|keys| - 1];
      assert forall m :: 0 <= m < |init| ==> init[m] == keys[m];
      MinedShape(init, keep, build);
      MinedFromEntries(init, keep, build);
      var r0 := Mined(init, keep, build);
      var r := Mined(keys, keep, build);
      forall k | 0 <= k < |r0| ensures r0[k].name != Str(last.0) {
        assert BuiltFromKept(init, keep, build, r0[k]);
        var m :| 0 <= m < |init| && keep(init[m].0) && r0[k] == build(init[m]);
      }
      forall k1, k2 | 0 <= k1 < k2 < |r| ensures r[k1].name != r[k2].name {
        assert r[k1] == r0[k1];
        if k2 < |r0| {
          assert r[k2] == r0[k2];
        }
      }
      forall m | 0 <= m < |keys|
        ensures keep(keys[m].0) <==> exists k :: 0 <= k < |r| && r[k].name == Str(keys[m].0)
      {
        if m == |keys| - 1 {
          if keep(last.0) {
            assert r[|r0|].name == Str(last.0);
          }
        } else {
          if keep(keys[m].0) {
            var k :| 0 <= k < |r0| && r0[k].name == Str(init[m].0);
            assert r[k] == r0[k];
          }
          if exists k :: 0 <= k < |r| && r[k].name == Str(keys[m].0) {
            var k :| 0 <= k < |r| && r[k].name == Str(keys[m].0);
            if k < |r0| {
              assert r0[k] == r[k];
            }
          }
        }
      }
    }
  }

  /**
   * Over the tool map, the mined calls name registered tools, each at most once and in the
   * registry's order of the tools mentioned.
   */
  lemma MinedToolsRegistered(raw: string, query: string)
    ensures var r := MinedCalls(raw, query, ToolArgKeys);
      forall k :: 0 <= k < |r| ==> AgentTools.IsRegistered(r[k].name)
    ensures var r := MinedCalls(raw, query, ToolArgKeys);
      forall k1, k2 :: 0 <= k1 < k2 < |r| ==> r[k1].name != r[k2].name
    ensures var r := MinedCalls(raw, query, ToolArgKeys);
      forall name :: name in AgentTools.ToolNames ==> (Mentions(raw, name) <==> exists k :: 0 <= k < |r| && r[k].name == Str(name))
  {
    ToolArgKeysFollowRegistry();
    var keep := name => Mentions(raw, name);
    var build := entry => MinedCall(raw, query, entry);
    MinedFromEntries(ToolArgKeys, keep, build);
    MinedShape(ToolArgKeys, keep, build);
    var r := MinedCalls(raw, query, ToolArgKeys);
    forall k | 0 <= k < |r| ensures AgentTools.IsRegistered(r[k].name) {
      assert BuiltFromKept(ToolArgKeys, keep, build, r[k]);
      var m :| 0 <= m < |ToolArgKeys| && keep(ToolArgKeys[m].0) && r[k] == build(ToolArgKeys[m]);
      assert r[k].name.s == AgentTools.ToolNames[m];
    }
    forall name | name in AgentTools.ToolNames
      ensures Mentions(raw, name) <==> exists k :: 0 <= k < |r| && r[k].name == Str(name)
    {
      var m :| 0 <= m < |AgentTools.ToolNames| && AgentTools.ToolNames[m] == name;
      assert ToolArgKeys[m].0 == name;
    }
  }

  /** One more entry of the list: its call is added when the text mentions its tool. */
  lemma MinedCallsSnoc(raw: string, query: string, keys: seq<(string, string)>, n: nat)
    requires n < |keys|
    ensures MinedCalls(raw, query, keys[..n + 1])
      == MinedCalls(raw, query, keys[..n]) + (if Mentions(raw, keys[n].0) then [MinedCall(raw, query, keys[n])] else [])
  {
    assert keys[..n + 1][..n] == keys[..n];
  }

  /** `_extract_tools_from_text`, with its `seen` set, as the source loops over the map. */
  method ExtractToolsFromText(raw: string, query: string) returns (found: seq<ToolCall>)
    ensures found == MinedCalls(raw, query, ToolArgKeys)
  {
    ToolArgKeysFollowRegistry();
    var text := Lower(raw);
    found := [];
    var seen: set<string> := {};
    for n := 0 to |ToolArgKeys|
      invariant found == MinedCalls(raw, query, ToolArgKeys[..n])
      invariant forall name :: name in seen ==> exists m :: 0 <= m < n && ToolArgKeys[m].0 == name
    {
      var name := ToolArgKeys[n].0;
      MinedCallsSnoc(raw, query, ToolArgKeys, n);
      assert name !in seen by {
        assert forall m :: 0 <= m < n ==> ToolArgKeys[m].0 != name;
      }
      if Contains(text, name) && name !in seen {
        var argValue := query;
        var at := SearchFrom(QuotedArg(name), raw, 0);
        if at.Some? {
          argValue := QuotedArgAt(name, raw, at.value).value.group;
        }
        assert argValue == MinedArg(raw, name, query);
        found := found + [ToolCall(Str(name), Obj(map[ToolArgKeys[n].1 := Str(argValue)]))];
        seen := seen + {name};
      }
    }
    assert ToolArgKeys[..|ToolArgKeys|] == ToolArgKeys;
  }

  // ------------------------------------------------------------------ file paths in tool results

  const FilePathKey: string := "\"file_path\""

  /** The pattern `"file_path"\s*:\s*"([^"]+)"` at index `i`: the quoted value. */
  function FilePathFieldAt(s: string, i: nat): (r: Option<Match>)
    ensures r.Some? ==> OccursAt(s, FilePathKey, i) && i < r.value.end <= |s| && s[r.value.end - 1] == '"'
    ensures r.Some? ==> |r.value.group| > 0 && '"' !in r.value.group
  {
    if i < |s| && OccursAt(s, FilePathKey, i) then
      var c := Span(s, i + |FilePathKey|, IsSpace);
      if c < |s| && s[c] == ':' then
        var q := Span(s, c + 1, IsSpace);
        if q < |s| && s[q] == '"' then
          var e := Span(s, q + 1, ch => ch != '"');
          if q + 1 < e < |s| then
            Some(Match(e + 1, s[q + 1..e]))
          else None
        else None
      else None
    else None
  }

  predicate IsPathChar(c: char)
  {
    IsWord(c) || c == '/' || c == '.' || c == '-'
  }

  /** The last index `k` in `lo..hi - 3` where ".md" occurs. */
  function LastMd(s: string, lo: nat, hi: nat): (k: Option<nat>)
    requires hi <= |s|
    ensures k.Some? ==> lo <= k.value && k.value + 3 <= hi && OccursAt(s, ".md", k.value)
    ensures forall j :: lo <= j && j + 3 <= hi && (k.None? || k.value < j) ==> !OccursAt(s, ".md", j)
    decreases hi
  {
    if hi < lo + 3 then None
    else if OccursAt(s, ".md", hi - 3) then Some(hi - 3)
    else LastMd(s, lo, hi - 1)
  }

  /**
   * The pattern `[\w/.-]+\.md` at index `i`: the greedy run of path characters gives back
   * characters until ".md" follows it, so the match ends at the last ".md" inside the run.
   */
  function MdRefAt(s: string, i: nat): (r: Option<Match>)
    ensures r.Some? ==> i < r.value.end <= |s| && EndsWith(r.value.group, ".md") && |r.value.group| > 3
    ensures r.Some? ==> r.value.group == s[i..r.value.end] && forall j :: i <= j < r.value.end ==> IsPathChar(s[j])
  {
    if i < |s| then
      var e := Span(s, i, IsPathChar);
      match LastMd(s, i + 1, e)
      case Some(k) =>
        assert s[i..k + 3][k + 3 - i - 3..] == s[k..k + 3];
        Some(Match(k + 3, s[i..k + 3]))
      case None => None
    else None
  }

  /** The paths one tool result names: its `file_path` values, then its ".md" references. */
  function PathsIn(item: string): seq<string>
  {
    FindAll(FilePathFieldAt, item) + FindAll(MdRefAt, item)
  }

  function PathsOf(context: seq<string>): seq<string>
  {
    if |context| == 0 then [] else PathsOf(context[..|context| - 1]) + PathsIn(context[|context| - 1])
  }

  /**
   * `_extract_file_paths_from_context`: the paths named in every result, in order, keeping the
   * first occurrence of each.
   */
  method ExtractFilePathsFromContext(context: seq<string>) returns (unique: seq<string>)
    ensures unique == Dedup(PathsOf(context))
  {
    var paths: seq<string> := [];
    for n := 0 to |context|
      invariant paths == PathsOf(context[..n])
    {
      assert context[..n + 1][..n] == context[..n];
      paths := paths + FindAll(FilePathFieldAt, context[n]);
      paths := paths + FindAll(MdRefAt, context[n]);
    }
    assert context[..|context|] == context;
    var seen: set<string> := {};
    unique := [];
    for n := 0 to |paths|
      invariant unique == Dedup(paths[..n])
      invariant forall p :: p in seen <==> p in paths[..n]
    {
      DedupSnoc(paths[..n], paths[n]);
      assert paths[..n + 1] == paths[..n] + [paths[n]];
      if paths[n] !in seen {
        seen := seen + {paths[n]};
        unique := unique + [paths[n]];
      }
    }
    assert paths[..|paths|] == paths;
  }

  /** Every extracted path is named in some result, none twice, and none that is named is missed. */
  lemma ExtractedPathsEachOnce(context: seq<string>)
    ensures var u := Dedup(PathsOf(context));
      forall i, j :: 0 <= i < j < |u| ==> u[i] != u[j]
    ensures forall p :: p in Dedup(PathsOf(context)) <==> p in PathsOf(context)
  {
    DedupKeepsEachOnce(PathsOf(context));
  }
}
