/**
 * The public entry point: a query holding a URL is answered from the fetched pages, `normal`
 * mode asks the chat model directly, and `knowledge_base` mode runs the agent graph from a
 * fresh state. The chat service, the web connector and the graph's oracles are parameters.
 */
module Engine {
  import opened Wrappers
  import opened Json
  import opened Docs
  import opened Security
  import opened AgentText
  import opened AgentState
  import opened AgentGraph
  import opened EngineUrls
  import L = Llm
  import W = WebConnector
  import opened Text

  const NormalMode: string := "normal"
  const NormalSystem: string := "You are a helpful assistant."
  const NotFoundAnswer: string :=
    "I couldn't find relevant information in the knowledge base to answer this question."
  const GraphErrorPrefix: string := "An error occurred while processing your query: "

  /**
   * What an `Engine` holds once constructed: the chat client and its completion service, the
   * web connector's `fetch_data` (`Failure` when it raises), the graph's oracles and the value
   * of `KB_AGENT_MAX_ITERATIONS`.
   */
  datatype Engine = Engine(
    client: L.LlmClient,
    complete: L.Completion,
    fetch: string -> Result<seq<Doc>>,
    graph: Oracles,
    env: Option<string>)

  // ------------------------------------------------------------------ knowledge-base mode

  /** The state `_run_agentic_rag` starts the graph from. */
  function InitialState(query: string, history: seq<Turn>): (s: State)
    ensures s.query == query && s.messages == history && s.mode == KnowledgeBaseMode
    ensures s.searchQueries == [] && s.context == [] && s.toolHistory == [] && s.filesRead == []
    ensures s.pending == [] && s.iteration == 0 && !Truthy(s.isSufficient) && s.finalAnswer == ""
  {
    State(query, history, KnowledgeBaseMode, [], [], [], [], [], 0, Bool(false), "")
  }

  /** `_run_agentic_rag`: the graph's answer, a fixed text when it is empty, or the error it raised. */
  function RunAgenticRag(e: Engine, query: string, history: seq<Turn>): (r: string)
    ensures r != ""
    ensures RunFrom(InitialState(query, history), e.env, e.graph).Failure? ==>
      r == GraphErrorPrefix + RunFrom(InitialState(query, history), e.env, e.graph).error
    ensures RunFrom(InitialState(query, history), e.env, e.graph).Success? ==>
      var answer := RunFrom(InitialState(query, history), e.env, e.graph).value.final.finalAnswer;
      r == if answer == "" then NotFoundAnswer else answer
  {
    var run := RunFrom(InitialState(query, history), e.env, e.graph);
    if run.Failure? then GraphErrorPrefix + run.error
    else if run.value.final.finalAnswer == "" then NotFoundAnswer
    else run.value.final.finalAnswer
  }

  /** A knowledge-base run that ends made between one and five rounds, within the configured limit. */
  lemma AgenticRunIsBounded(e: Engine, query: string, history: seq<Turn>)
    requires RunFrom(InitialState(query, history), e.env, e.graph).Success?
    ensures 1 <= |RunFrom(InitialState(query, history), e.env, e.graph).value.trace| / 3 <= MaxIter(e.env).value <= 5
  {
    RunFromStartIsBounded(InitialState(query, history), e.env, e.graph);
  }

  // ------------------------------------------------------------------ dispatch

  /**
   * `Engine.answer_query`: the URL path first, then `normal` mode, then the agent graph. Only the
   * URL path can raise: its fetches run outside any `try`.
   */
  function AnswerQuery(e: Engine, query: string, mode: string, history: Option<seq<Turn>>): (r: Result<string>)
    ensures r.Failure? <==> exists k :: 0 <= k < |Urls(query)| && e.fetch(Urls(query)[k]).Failure?
  {
    var h := HistoryOrEmpty(history);
    var urls := Urls(query);
    if |urls| > 0 then HandleUrlsSpec(e.client, e.complete, e.fetch, query, urls, mode, h)
    else if mode == NormalMode then
      Success(MaskSensitiveData(L.ChatCompletion(e.client, Conversation(NormalSystem, h, query), e.complete)))
    else Success(RunAgenticRag(e, query, h))
  }

  /** A query holding a URL is answered from the fetched pages: the graph and its oracles play no part. */
  lemma UrlPathSkipsGraph(e: Engine, query: string, mode: string, history: Option<seq<Turn>>, i: nat, o: Oracles, env: Option<string>)
    requires UrlAt(query, i)
    ensures |Urls(query)| > 0 && AnswerQuery(e, query, mode, history) ==
      HandleUrlsSpec(e.client, e.complete, e.fetch, query, Urls(query), mode, HistoryOrEmpty(history))
    ensures AnswerQuery(e, query, mode, history) == AnswerQuery(e.(graph := o, env := env), query, mode, history)
  {
    UrlsFoundIff(query);
  }

  /**
   * A query whose first URL cannot be fetched raises the fetch's exception out of `answer_query`,
   * whatever the mode.
   */
  lemma FirstUrlFetchRaises(e: Engine, query: string, mode: string, history: Option<seq<Turn>>)
    requires |Urls(query)| > 0 && e.fetch(Urls(query)[0]).Failure?
    ensures AnswerQuery(e, query, mode, history) == Failure(e.fetch(Urls(query)[0]).error)
  {
    FirstFetchErrorRaised(e.client, e.complete, e.fetch, query, Urls(query), mode, HistoryOrEmpty(history), 0);
  }

  /**
   * With the web connector's `fetch_data` as the fetcher, a first URL whose host has an unmatched
   * bracket makes `answer_query` raise "Invalid IPv6 URL".
   */
  lemma UnbalancedHostRaises(e: Engine, query: string, mode: string, history: Option<seq<Turn>>,
                             env: Option<string>, o: W.WebOracles)
    requires forall u :: e.fetch(u) == W.FetchData(u, env, o)
    requires |Urls(query)| > 0 && !W.IsRefused(Urls(query)[0])
    requires W.UnbalancedBrackets(W.Netloc(W.Normalize(Strip(Urls(query)[0]))))
    ensures AnswerQuery(e, query, mode, history) == Failure(W.InvalidIpv6Message)
  {
    W.FetchDataCases(Urls(query)[0], env, o);
    FirstUrlFetchRaises(e, query, mode, history);
  }

  /** Without a URL, `normal` mode asks the model once with the system prompt, the history and the query. */
  lemma NormalModeAsksOnce(e: Engine, query: string, history: Option<seq<Turn>>)
    requires forall i: nat :: !UrlAt(query, i)
    ensures AnswerQuery(e, query, NormalMode, history) ==
      Success(MaskSensitiveData(L.ChatCompletion(e.client,
        Conversation(NormalSystem, HistoryOrEmpty(history), query), e.complete)))
  {
    UrlsFoundIff(query);
  }

  /**
   * Without a URL, any other mode runs the graph from the initial state and never answers
   * with an empty text.
   */
  lemma KnowledgeBaseModeRunsGraph(e: Engine, query: string, mode: string, history: Option<seq<Turn>>)
    requires mode != NormalMode && forall i: nat :: !UrlAt(query, i)
    ensures AnswerQuery(e, query, mode, history) == Success(RunAgenticRag(e, query, HistoryOrEmpty(history)))
    ensures AnswerQuery(e, query, mode, history).value != ""
  {
    UrlsFoundIff(query);
  }

  /** A missing history is the empty history. */
  lemma MissingHistoryIsEmpty(e: Engine, query: string, mode: string)
    ensures AnswerQuery(e, query, mode, None) == AnswerQuery(e, query, mode, Some([]))
  {
  }
}
