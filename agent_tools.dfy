/**
 * The tool registry the agent executes from, the result caps and truncations each tool
 * applies to what its backing object returns, and the lazily built backing objects.
 * The backing objects' answers are parameters; serialising a result list with `json.dumps`
 * is not modelled: a tool's result is the list it would serialise.
 */
module AgentTools {
  import opened Wrappers
  import opened Json
  import opened Text
  import opened Docs

  /** The names in `ALL_TOOLS`, in registration order. */
  const ToolNames: seq<string> :=
    ["grep_search", "vector_search", "read_file", "graph_related", "jira_fetch", "confluence_fetch", "web_fetch"]

  /** A call name `tool_node` finds in its registry; any other name is an unknown tool. */
  predicate IsRegistered(name: Value)
  {
    name.Str? && name.s in ToolNames
  }

  /** The registry holds seven tools under seven different names. */
  lemma RegistryNamesDistinct()
    ensures |ToolNames| == 7
    ensures forall i, j :: 0 <= i < j < |ToolNames| ==> ToolNames[i] != ToolNames[j]
  {
    assert ToolNames[0][2] != ToolNames[3][2];
  }

  const GrepCap: nat := 20
  const VectorRequest: nat := 5
  const VectorCap: nat := 10
  const GraphCap: nat := 20
  const ReadLimit: nat := 8000
  const ReadTruncated: string := "\n... (truncated)"
  const WebLimit: nat := 8000
  const WebTruncated: string := "\n\n... (truncated to save tokens)"

  /** A result list cut to its first `cap` entries. */
  function Capped<T>(results: seq<T>, cap: nat): (r: seq<T>)
    ensures |r| <= cap && |r| <= |results| && r == results[..|r|]
    ensures |results| <= cap ==> r == results
  {
    Take(results, cap)
  }

  /** `grep_search`: at most 20 of the grep tool's results, in its order. */
  function GrepSearch(query: string, grep: string -> seq<Value>): (r: seq<Value>)
    ensures |r| <= GrepCap && |r| <= |grep(query)| && r == grep(query)[..|r|]
  {
    Capped(grep(query), GrepCap)
  }

  /** `vector_search`: the vector tool is asked for 5 results and at most 10 are kept. */
  function VectorSearch(query: string, vector: (string, nat) -> seq<Value>): (r: seq<Value>)
    ensures |r| <= VectorCap && |r| <= |vector(query, VectorRequest)| && r == vector(query, VectorRequest)[..|r|]
  {
    Capped(vector(query, VectorRequest), VectorCap)
  }

  /** `graph_related`: at most 20 of the graph tool's neighbours, in its order. */
  function GraphRelated(entity: string, related: string -> seq<Value>): (r: seq<Value>)
    ensures |r| <= GraphCap && |r| <= |related(entity)| && r == related(entity)[..|r|]
  {
    Capped(related(entity), GraphCap)
  }

  /**
   * `read_file`: a refused or missing file gives a fixed message naming the path; content
   * over 8000 characters is cut to its first 8000 and marked; other content is returned as is.
   */
  function ReadFile(path: string, content: Option<string>): (r: string)
    ensures content.None? ==> r == "File not found or access denied: " + path
    ensures content.Some? && |content.value| <= ReadLimit ==> r == content.value
    ensures content.Some? && |content.value| > ReadLimit ==>
      r == content.value[..ReadLimit] + ReadTruncated && |r| == ReadLimit + |ReadTruncated|
  {
    match content
    case None => "File not found or access denied: " + path
    case Some(c) => if |c| > ReadLimit then c[..ReadLimit] + ReadTruncated else c
  }

  /** The content `web_fetch` keeps of one fetched document. */
  function WebContent(content: string): (r: string)
    ensures |content| <= WebLimit ==> r == content
    ensures |content| > WebLimit ==> StartsWith(r, content[..WebLimit]) && |r| == WebLimit + |WebTruncated|
  {
    if |content| > WebLimit then content[..WebLimit] + WebTruncated else content
  }

  /** Truncating twice is truncating once: a kept content is short enough to be kept again. */
  lemma WebContentIdempotent(content: string)
    ensures |WebContent(content)| <= WebLimit + |WebTruncated|
    ensures |content| <= WebLimit ==> WebContent(WebContent(content)) == content
  {
  }

  /**
   * `web_fetch`: each fetched document whose content exceeds 8000 characters has its content
   * replaced, in place, by the truncated one; nothing else changes.
   */
  method TruncateWebResults(results: array<Doc>)
    modifies results
    ensures forall i :: 0 <= i < results.Length ==>
      results[i] == old(results[i]).(content := WebContent(old(results[i]).content))
  {
    var i := 0;
    while i < results.Length
      invariant 0 <= i <= results.Length
      invariant forall j :: 0 <= j < i ==>
        results[j] == old(results[j]).(content := WebContent(old(results[j]).content))
      invariant forall j :: i <= j < results.Length ==> results[j] == old(results[j])
    {
      if |results[i].content| > WebLimit {
        results[i] := results[i].(content := results[i].content[..WebLimit] + WebTruncated);
      }
      i := i + 1;
    }
  }

  /** The backing object each tool delegates to. */
  datatype Backend = GrepBackend | VectorBackend | FileBackend | GraphBackend | JiraBackend | ConfluenceBackend | WebBackend

  /**
   * The module-level singletons: each backend slot holds the object built for it (an
   * instance number standing for its identity) or nothing yet.
   */
  class Singletons {
    var slots: map<Backend, nat>
    var built: nat

    /** Every instance handed out was built here. */
    predicate Valid()
      reads this
    {
      forall b :: b in slots ==> slots[b] < built
    }

    constructor()
      ensures Valid() && slots == map[] && built == 0
    {
      slots := map[];
      built := 0;
    }

    /**
     * `_get_*`: the object already built for `b`, or a new one, which is then kept; the other
     * slots are untouched.
     */
    method Get(b: Backend) returns (obj: nat)
      requires Valid()
      modifies this
      ensures Valid()
      ensures b in old(slots) ==> obj == old(slots)[b] && slots == old(slots) && built == old(built)
      ensures b !in old(slots) ==> obj == old(built) && slots == old(slots)[b := obj] && built == old(built) + 1
      ensures b !in old(slots) ==> forall c :: c in old(slots) ==> old(slots)[c] != obj
    {
      if b in slots {
        obj := slots[b];
      } else {
        obj := built;
        slots := slots[b := obj];
        built := built + 1;
      }
    }

    /** `reset_singletons`: every slot is emptied, so the next `Get` builds afresh. */
    method Reset()
      requires Valid()
      modifies this
      ensures Valid() && slots == map[] && built == old(built)
    {
      slots := map[];
    }
  }

  /** A second `Get` of the same backend returns the object the first one returned. */
  method GetTwice(s: Singletons, b: Backend) returns (first: nat, second: nat)
    requires s.Valid()
    modifies s
    ensures first == second && s.Valid() && b in s.slots && s.slots[b] == first
  {
    first := s.Get(b);
    second := s.Get(b);
  }
}
