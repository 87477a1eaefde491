/**
 * The state record flowing through the agent graph, and the partial updates the nodes return.
 * A node returns only the keys it sets; the graph overwrites exactly those keys.
 */
module AgentState {
  import opened Wrappers
  import opened Json
  import opened AgentText

  /** One entry of `tool_history`: `{"tool": name, "input": args, "output": first 500 chars}`. */
  datatype ToolRecord = ToolRecord(tool: Value, input: Value, output: string)

  /**
   * The fields of the state the modelled nodes read or write. `files_read` holds whatever the
   * planner passed as a `file_path` argument, so its entries are arbitrary JSON values.
   */
  datatype State = State(
    query: string,
    messages: seq<Turn>,
    mode: string,
    searchQueries: seq<string>,
    context: seq<string>,
    toolHistory: seq<ToolRecord>,
    filesRead: seq<Value>,
    pending: seq<ToolCall>,
    iteration: int,
    isSufficient: Value,
    finalAnswer: string)

  /** The dict a node returns: the keys it sets. */
  datatype Update = Update(
    context: Option<seq<string>>,
    toolHistory: Option<seq<ToolRecord>>,
    filesRead: Option<seq<Value>>,
    pending: Option<seq<ToolCall>>,
    iteration: Option<int>,
    isSufficient: Option<Value>,
    finalAnswer: Option<string>)

  const NoUpdate: Update := Update(None, None, None, None, None, None, None)

  /** The state after a node's update: every returned key overwritten, every other key kept. */
  function Apply(s: State, u: Update): State
  {
    s.(context := u.context.GetOr(s.context),
       toolHistory := u.toolHistory.GetOr(s.toolHistory),
       filesRead := u.filesRead.GetOr(s.filesRead),
       pending := u.pending.GetOr(s.pending),
       iteration := u.iteration.GetOr(s.iteration),
       isSufficient := u.isSufficient.GetOr(s.isSufficient),
       finalAnswer := u.finalAnswer.GetOr(s.finalAnswer))
  }

  /**
   * A node's update never touches the question, the conversation, the mode or the search
   * queries; the empty update changes nothing, and applying the same update twice is applying
   * it once.
   */
  lemma ApplyFacts(s: State, u: Update)
    ensures var r := Apply(s, u);
      && r.query == s.query && r.messages == s.messages && r.mode == s.mode
      && r.searchQueries == s.searchQueries
      && (u.finalAnswer.Some? ==> r.finalAnswer == u.finalAnswer.value)
      && (u.finalAnswer.None? ==> r.finalAnswer == s.finalAnswer)
      && (u.context.Some? ==> r.context == u.context.value)
      && (u.context.None? ==> r.context == s.context)
    ensures Apply(s, NoUpdate) == s
    ensures Apply(Apply(s, u), u) == Apply(s, u)
  {
  }
}
