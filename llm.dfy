/**
 * The chat-completion client: model-name sanitising at construction, the error fallback of a
 * completion and the summary request. The completion service itself is a parameter: given the
 * model name and the messages it either answers with a text or fails.
 */
module Llm {
  import opened Wrappers
  import opened Text

  /** A chat message as the completion API takes it: a dict, normally `{"role": ..., "content": ...}`. */
  type Message = map<string, string>

  function Msg(role: string, content: string): (m: Message)
    ensures m.Keys == {"role", "content"} && m["role"] == role && m["content"] == content
  {
    map["role" := role, "content" := content]
  }

  /** The answer of the completion service, or the exception it raised. */
  type Completion = (string, seq<Message>) -> Result<string>

  const GroqComPrefix: string := "groq-com/"
  const GroqPrefix: string := "groq/"
  const SettingsMissing: string := "Settings not initialized."
  const CompletionFallback: string := "Error generating response."
  const SummarySystem: string := "You are a helpful assistant that summarizes technical documents."
  const SummaryIntro: string :=
    "Please provide a concise summary of the following document. Focus on key entities, decisions, and outcomes:\n\n"
  const SummaryLimit: nat := 4000

  /** `s.removeprefix(p)`. */
  function RemovePrefix(s: string, p: string): (r: string)
    ensures StartsWith(s, p) ==> s == p + r
    ensures !StartsWith(s, p) ==> r == s
  {
    if StartsWith(s, p) then s[|p|..] else s
  }

  /**
   * The model name the client sends: a leading "groq-com/" is removed, otherwise a leading
   * "groq/" is removed, otherwise the name is kept.
   */
  function SanitizeModelName(name: string): (r: string)
  {
    if StartsWith(name, GroqComPrefix) then RemovePrefix(name, GroqComPrefix)
    else if StartsWith(name, GroqPrefix) then RemovePrefix(name, GroqPrefix)
    else name
  }

  /**
   * At most one prefix is removed: the name is one of the two prefixes (or nothing) followed by
   * the sanitised name, and the prefix removed is "groq-com/" exactly when the name starts with it.
   */
  lemma SanitizeRemovesOnePrefix(name: string)
    ensures var r := SanitizeModelName(name);
      && (name == GroqComPrefix + r <==> StartsWith(name, GroqComPrefix))
      && (name == GroqPrefix + r <==> !StartsWith(name, GroqComPrefix) && StartsWith(name, GroqPrefix))
      && (r == name <==> !StartsWith(name, GroqComPrefix) && !StartsWith(name, GroqPrefix))
  {
    var r := SanitizeModelName(name);
    if StartsWith(name, GroqComPrefix) {
      assert |r| < |name|;
      assert name[4] == GroqComPrefix[..|GroqComPrefix|][4] == '-';
      if StartsWith(name, GroqPrefix) {
        assert name[4] == GroqPrefix[..|GroqPrefix|][4] == '/';
      }
    } else if StartsWith(name, GroqPrefix) {
      assert |r| < |name|;
    }
  }

  /** A name without either prefix is kept. */
  lemma SanitizeKeepsPlainNames(name: string)
    requires !StartsWith(name, GroqComPrefix) && !StartsWith(name, GroqPrefix)
    ensures SanitizeModelName(name) == name
  {
  }

  /** `tests/test_llm_sanitization.py`: the four model names checked there. */
  lemma SanitizeExamples()
    ensures SanitizeModelName("groq-com/" + "llama-3.3-70b-versatile") == "llama-3.3-70b-versatile"
    ensures SanitizeModelName("groq/" + "llama-3.3-70b-versatile") == "llama-3.3-70b-versatile"
    ensures SanitizeModelName("gpt-4") == "gpt-4"
    ensures SanitizeModelName("llama-3.3-70b-versatile") == "llama-3.3-70b-versatile"
  {
    var m := "llama-3.3-70b-versatile";
    assert (GroqComPrefix + m)[..|GroqComPrefix|] == GroqComPrefix;
    assert (GroqPrefix + m)[..|GroqPrefix|] == GroqPrefix;
    assert (GroqPrefix + m)[4] != GroqComPrefix[4];
    SanitizeKeepsPlainNames("gpt-4");
    SanitizeKeepsPlainNames(m);
  }

  /** The settings the client reads. */
  datatype LlmSettings = LlmSettings(model: string, apiKey: string, baseUrl: string)

  /** A constructed client: the sanitised model name and the service it talks to. */
  datatype LlmClient = LlmClient(model: string, baseUrl: string)

  /** `LLMClient()`: raises ValueError without settings, else keeps the sanitised model name. */
  function NewClient(settings: Option<LlmSettings>): (r: Result<LlmClient>)
    ensures r.Failure? <==> settings.None?
    ensures r.Failure? ==> r.error == SettingsMissing
    ensures r.Success? ==> r.value.model == SanitizeModelName(settings.value.model)
  {
    match settings
    case None => Failure(SettingsMissing)
    case Some(s) => Success(LlmClient(SanitizeModelName(s.model), s.baseUrl))
  }

  /** `chat_completion`: the service's answer, or the fixed fallback text when it raises. */
  function ChatCompletion(client: LlmClient, messages: seq<Message>, complete: Completion): (r: string)
    ensures complete(client.model, messages).Success? ==> r == complete(client.model, messages).value
    ensures complete(client.model, messages).Failure? ==> r == CompletionFallback
  {
    match complete(client.model, messages)
    case Success(answer) => answer
    case Failure(_) => CompletionFallback
  }

  /** The two messages `generate_summary` sends: a fixed system prompt, then the document cut to 4000 characters. */
  function SummaryMessages(content: string): seq<Message>
  {
    [Msg("system", SummarySystem), Msg("user", SummaryIntro + Take(content, SummaryLimit))]
  }

  /**
   * The summary request is a fixed system prompt and one user message: the instruction followed
   * by the whole document when it is within the limit, or by its first 4000 characters.
   */
  lemma SummaryMessagesShape(content: string)
    ensures var r := SummaryMessages(content);
      && |r| == 2 && r[0] == Msg("system", SummarySystem) && r[1].Keys == {"role", "content"}
      && r[1]["role"] == "user" && StartsWith(r[1]["content"], SummaryIntro)
      && |r[1]["content"]| <= |SummaryIntro| + SummaryLimit
    ensures |content| <= SummaryLimit ==> SummaryMessages(content)[1]["content"] == SummaryIntro + content
    ensures |content| > SummaryLimit ==>
      SummaryMessages(content)[1]["content"] == SummaryIntro + content[..SummaryLimit]
  {
  }

  /** `generate_summary`: a completion of the summary messages. */
  function GenerateSummary(client: LlmClient, content: string, complete: Completion): (r: string)
    ensures complete(client.model, SummaryMessages(content)).Failure? ==> r == CompletionFallback
    ensures complete(client.model, SummaryMessages(content)).Success? ==>
      r == complete(client.model, SummaryMessages(content)).value
  {
    ChatCompletion(client, SummaryMessages(content), complete)
  }
}
