/**
 * The URL path of the engine: detecting URLs in a query, fetching each one, and asking the chat
 * model about the fetched pages. The chat service and the web connector are parameters.
 */
module EngineUrls {
  import opened Wrappers
  import opened Json
  import opened Text
  import opened Regex
  import opened Docs
  import opened Security
  import opened AgentText
  import L = Llm

  const KnowledgeBaseMode: string := "knowledge_base"
  const FetchFailed: string := "Failed to fetch any content from the provided URL(s)."
  const SummarizePrompt: string := "Please summarize the content from the provided URL(s)."
  const WebSystem: string :=
    "You are a helpful assistant. Answer the user's question based on the web page content provided (and previous conversation if necessary). If the content doesn't answer the question, summarize the key points of the page. Be concise and well-structured."
  const WebContentLimit: nat := 8000
  const HttpScheme: string := "http://"
  const HttpsScheme: string := "https://"

  // ------------------------------------------------------------------ URL detection

  /** A character that ends a URL: whitespace, `<`, `>` or a quote. */
  predicate IsUrlStop(c: char)
  {
    IsSpace(c) || c == '<' || c == '>' || c == '"' || c == '\''
  }

  /** The length of the scheme (`http://` or `https://`) starting at `i`, or 0. */
  function SchemeLen(s: string, i: nat): (n: nat)
    ensures n == 0 || n == 7 || n == 8
    ensures n > 0 ==> i + n <= |s|
  {
    if OccursAt(s, HttpsScheme, i) then 8 else if OccursAt(s, HttpScheme, i) then 7 else 0
  }

  /** `_URL_PATTERN`: a scheme followed by as many non-stop characters as there are, at least one. */
  function UrlMatcher(s: string, i: nat): (r: Option<Match>)
    ensures r.Some? ==> i < r.value.end <= |s| && r.value.group == s[i..r.value.end]
  {
    var p := SchemeLen(s, i);
    if p == 0 then None
    else
      var e := Span(s, i + p, c => !IsUrlStop(c));
      if e == i + p then None else Some(Match(e, s[i..e]))
  }

  /** `_URL_PATTERN.findall(query)`. */
  function Urls(query: string): (r: seq<string>)
    ensures forall k :: 0 <= k < |r| ==> |r[k]| > 0
  {
    FindAllGroupsNonEmpty(query, 0);
    FindAll(UrlMatcher, query)
  }

  lemma {:induction false} FindAllGroupsNonEmpty(s: string, i: nat)
    requires i <= |s|
    ensures forall k :: 0 <= k < |FindAllFrom(UrlMatcher, s, i)| ==> |FindAllFrom(UrlMatcher, s, i)[k]| > 0
    decreases |s| - i
  {
    if i < |s| {
      if MatchesAt(UrlMatcher, s, i) {
        FindAllGroupsNonEmpty(s, UrlMatcher(s, i).value.end);
      } else {
        FindAllGroupsNonEmpty(s, i + 1);
      }
    }
  }

  /** An `http://` or `https://` at `i`, followed by a character that can continue a URL. */
  predicate UrlAt(s: string, i: nat)
  {
    || (OccursAt(s, HttpsScheme, i) && i + 8 < |s| && !IsUrlStop(s[i + 8]))
    || (OccursAt(s, HttpScheme, i) && i + 7 < |s| && !IsUrlStop(s[i + 7]))
  }

  /** A scheme followed by a URL character starts a match of the pattern. */
  lemma UrlAtMatches(query: string, i: nat)
    requires UrlAt(query, i)
    ensures MatchesAt(UrlMatcher, query, i)
  {
    if OccursAt(query, HttpScheme, i) {
      assert query[i + 4] == ':';
    }
  }

  /** Every match of the pattern starts with a scheme followed by a URL character. */
  lemma MatchIsUrlAt(query: string, i: nat)
    requires MatchesAt(UrlMatcher, query, i)
    ensures UrlAt(query, i)
  {
  }

  /** The URL path is taken exactly when the query holds a scheme followed by a URL character. */
  lemma UrlsFoundIff(query: string)
    ensures |Urls(query)| > 0 <==> exists i: nat :: UrlAt(query, i)
  {
    FindAllNonEmptyIff(UrlMatcher, query, 0);
    if exists i: nat :: UrlAt(query, i) {
      var i: nat :| UrlAt(query, i);
      UrlAtMatches(query, i);
    }
    if !NoMatchFrom(UrlMatcher, query, 0) {
      var i: nat :| MatchesAt(UrlMatcher, query, i);
      MatchIsUrlAt(query, i);
    }
  }

  // ------------------------------------------------------------------ messages

  /** `history or []`. */
  function HistoryOrEmpty(history: Option<seq<Turn>>): seq<Turn>
  {
    if history.None? then [] else history.value
  }

  /** A system message, the earlier conversation, then the user's message. */
  function Conversation(system: string, history: seq<Turn>, user: string): (r: seq<L.Message>)
    ensures |r| == |history| + 2
    ensures r[0] == L.Msg("system", system) && r[|r| - 1] == L.Msg("user", user)
    ensures r[1..|r| - 1] == history
  {
    [L.Msg("system", system)] + history + [L.Msg("user", user)]
  }

  // ------------------------------------------------------------------ URL path

  /** The entry a fetched document contributes to the web context. */
  function Entry(p: (string, Doc)): string
  {
    var (url, doc) := p;
    if IsErrorDoc(doc) then "Error fetching " + url + ": " + doc.content
    else "Source: " + url + "\nTitle: " + doc.title + "\n\n" + doc.content
  }

  function Entries(ps: seq<(string, Doc)>): (r: seq<string>)
    ensures |r| == |ps|
  {
    seq(|ps|, k requires 0 <= k < |ps| => Entry(ps[k]))
  }

  /** Every document of one URL, tagged with the URL. */
  function Tag(url: string, docs: seq<Doc>): (r: seq<(string, Doc)>)
    ensures |r| == |docs|
  {
    seq(|docs|, k requires 0 <= k < |docs| => (url, docs[k]))
  }

  /**
   * How many URLs `_handle_urls` fetches before a `fetch_data` call raises: the index of the
   * first URL whose fetch fails, or every URL when none does. The loop has no `try`, so the
   * first failure ends `_handle_urls` and `answer_query` with it.
   */
  function FetchedCount(urls: seq<string>, fetch: string -> Result<seq<Doc>>): (n: nat)
    ensures n <= |urls|
    ensures forall k :: 0 <= k < n ==> fetch(urls[k]).Success?
    ensures n < |urls| ==> fetch(urls[n]).Failure?
  {
    if urls == [] || fetch(urls[0]).Failure? then 0
    else
      var n := 1 + FetchedCount(urls[1..], fetch);
      assert forall k :: 1 <= k < n ==> urls[k] == urls[1..][k - 1];
      n
  }

  /** Every URL's fetch returned its records. */
  predicate AllFetched(urls: seq<string>, fetch: string -> Result<seq<Doc>>)
  {
    forall k :: 0 <= k < |urls| ==> fetch(urls[k]).Success?
  }

  /** Every document fetched for the URLs, in order, tagged with its URL. */
  function Fetched(urls: seq<string>, fetch: string -> Result<seq<Doc>>): seq<(string, Doc)>
    requires AllFetched(urls, fetch)
  {
    if urls == [] then []
    else
      var init := urls[..|urls| - 1];
      assert forall k :: 0 <= k < |init| ==> init[k] == urls[k];
      Fetched(init, fetch) + Tag(urls[|urls| - 1], fetch(urls[|urls| - 1]).value)
  }

  /** Nothing is fetched exactly when every URL gave no document. */
  lemma {:induction false} FetchedEmptyIff(urls: seq<string>, fetch: string -> Result<seq<Doc>>)
    requires AllFetched(urls, fetch)
    ensures Fetched(urls, fetch) == [] <==> forall u :: u in urls ==> fetch(u).value == []
  {
    if urls != [] {
      var init := urls[..|urls| - 1];
      assert forall k :: 0 <= k < |init| ==> init[k] == urls[k];
      FetchedEmptyIff(init, fetch);
      assert urls == init + [urls[|urls| - 1]];
      if Fetched(urls, fetch) == [] {
        forall u | u in urls ensures fetch(u).value == [] {
          if u != urls[|urls| - 1] {
            assert u in init;
          }
        }
      }
    }
  }

  /** The documents the processor receives: the ones without an error flag. */
  function Kept(ps: seq<(string, Doc)>): (r: seq<Doc>)
    ensures forall d :: d in r <==> exists k :: 0 <= k < |ps| && ps[k].1 == d && !IsErrorDoc(d)
  {
    if ps == [] then []
    else
      var init := ps[..|ps| - 1];
      var last := ps[|ps| - 1];
      var r := Kept(init) + if IsErrorDoc(last.1) then [] else [last.1];
      assert forall d :: (exists k :: 0 <= k < |init| && init[k].1 == d && !IsErrorDoc(d)) ==>
        (exists k :: 0 <= k < |ps| && ps[k].1 == d && !IsErrorDoc(d));
      r
  }

  /** The question `_handle_urls` asks: each URL removed in turn, then stripped. */
  function QuestionAfter(query: string, urls: seq<string>): (r: string)
    requires forall k :: 0 <= k < |urls| ==> |urls[k]| > 0
    ensures urls != [] ==> r == [] || (!IsSpace(r[0]) && !IsSpace(r[|r| - 1]))
  {
    if urls == [] then query
    else Strip(Replace(QuestionAfter(query, urls[..|urls| - 1]), urls[|urls| - 1], ""))
  }

  /** The final question: never empty; the fixed prompt when nothing is left of the query. */
  function Question(query: string, urls: seq<string>): (r: string)
    requires |urls| > 0 && forall k :: 0 <= k < |urls| ==> |urls[k]| > 0
    ensures r != ""
    ensures QuestionAfter(query, urls) == "" ==> r == SummarizePrompt
    ensures QuestionAfter(query, urls) != "" ==> r == QuestionAfter(query, urls)
  {
    var q := QuestionAfter(query, urls);
    if q == "" then SummarizePrompt else q
  }

  /** The user message: the joined web content cut to 8000 characters, then the question. */
  function WebPrompt(context: seq<string>, question: string): (r: string)
    ensures StartsWith(r, "Web Content:\n")
    ensures |r| <= |"Web Content:\n"| + WebContentLimit + |"\n\nQuestion: "| + |question|
  {
    "Web Content:\n" + Take(Join("\n\n---\n\n", context), WebContentLimit) + "\n\nQuestion: " + question
  }

  /**
   * `_handle_urls`: the exception of the first `fetch_data` call that raises; otherwise the fixed
   * failure text when nothing was fetched, or the masked answer.
   */
  function HandleUrlsSpec(client: L.LlmClient, complete: L.Completion, fetch: string -> Result<seq<Doc>>,
                          query: string, urls: seq<string>, mode: string, history: seq<Turn>): (r: Result<string>)
    requires |urls| > 0 && forall k :: 0 <= k < |urls| ==> |urls[k]| > 0
    ensures r.Failure? <==> exists k :: 0 <= k < |urls| && fetch(urls[k]).Failure?
  {
    var n := FetchedCount(urls, fetch);
    if n < |urls| then Failure(fetch(urls[n]).error)
    else
      var context := Entries(Fetched(urls, fetch));
      if context == [] then Success(FetchFailed)
      else
        var messages := Conversation(WebSystem, history, WebPrompt(context, Question(query, urls)));
        Success(MaskSensitiveData(L.ChatCompletion(client, messages, complete)))
  }

  /** The exception `_handle_urls` raises is the one of the first URL whose fetch raises. */
  lemma FirstFetchErrorRaised(client: L.LlmClient, complete: L.Completion, fetch: string -> Result<seq<Doc>>,
                              query: string, urls: seq<string>, mode: string, history: seq<Turn>, i: nat)
    requires |urls| > 0 && forall k :: 0 <= k < |urls| ==> |urls[k]| > 0
    requires i < |urls| && fetch(urls[i]).Failure?
    requires forall k :: 0 <= k < i ==> fetch(urls[k]).Success?
    ensures HandleUrlsSpec(client, complete, fetch, query, urls, mode, history) == Failure(fetch(urls[i]).error)
  {
  }

  /**
   * When every fetch returns, "Failed to fetch" is the answer exactly when no document came back;
   * otherwise the model is asked.
   */
  lemma FetchFailedOnlyWhenNothingFetched(client: L.LlmClient, complete: L.Completion, fetch: string -> Result<seq<Doc>>,
                                          query: string, urls: seq<string>, mode: string, history: seq<Turn>)
    requires |urls| > 0 && forall k :: 0 <= k < |urls| ==> |urls[k]| > 0
    requires AllFetched(urls, fetch)
    ensures (forall u :: u in urls ==> fetch(u).value == []) ==>
      HandleUrlsSpec(client, complete, fetch, query, urls, mode, history) == Success(FetchFailed)
    ensures (exists u :: u in urls && fetch(u).value != []) ==>
      HandleUrlsSpec(client, complete, fetch, query, urls, mode, history) ==
        Success(MaskSensitiveData(L.ChatCompletion(client,
          Conversation(WebSystem, history, WebPrompt(Entries(Fetched(urls, fetch)), Question(query, urls))), complete)))
  {
    FetchedEmptyIff(urls, fetch);
  }

  lemma EntriesSnoc(ps: seq<(string, Doc)>, p: (string, Doc))
    ensures Entries(ps + [p]) == Entries(ps) + [Entry(p)]
  {
  }

  lemma KeptSnoc(ps: seq<(string, Doc)>, p: (string, Doc))
    ensures Kept(ps + [p]) == Kept(ps) + if IsErrorDoc(p.1) then [] else [p.1]
  {
    assert (ps + [p])[..|ps|] == ps;
  }

  lemma TagSnoc(url: string, docs: seq<Doc>, j: nat)
    requires j < |docs|
    ensures Tag(url, docs[..j + 1]) == Tag(url, docs[..j]) + [(url, docs[j])]
  {
  }

  /** The inner loop of `_handle_urls`: one entry per document of `url`; the unflagged ones go to the processor. */
  method AddDocs(url: string, docs: seq<Doc>, mode: string, ghost before: seq<(string, Doc)>,
                 all0: seq<string>, processed0: seq<Doc>)
      returns (all: seq<string>, processed: seq<Doc>)
    requires all0 == Entries(before)
    requires processed0 == if mode == KnowledgeBaseMode then Kept(before) else []
    ensures all == Entries(before + Tag(url, docs))
    ensures processed == if mode == KnowledgeBaseMode then Kept(before + Tag(url, docs)) else []
  {
    all, processed := all0, processed0;
    var j := 0;
    assert before + Tag(url, docs[..0]) == before;
    while j < |docs|
      invariant 0 <= j <= |docs|
      invariant all == Entries(before + Tag(url, docs[..j]))
      invariant processed == if mode == KnowledgeBaseMode then Kept(before + Tag(url, docs[..j])) else []
    {
      var doc := docs[j];
      TagSnoc(url, docs, j);
      assert before + Tag(url, docs[..j + 1]) == (before + Tag(url, docs[..j])) + [(url, doc)];
      EntriesSnoc(before + Tag(url, docs[..j]), (url, doc));
      KeptSnoc(before + Tag(url, docs[..j]), (url, doc));
      if IsErrorDoc(doc) {
        all := all + ["Error fetching " + url + ": " + doc.content];
        j := j + 1;
        continue;
      }
      if mode == KnowledgeBaseMode {
        processed := processed + [doc];
      }
      all := all + ["Source: " + url + "\nTitle: " + doc.title + "\n\n" + doc.content];
      j := j + 1;
    }
    assert docs[..j] == docs;
  }

  /** The documents fetched from the URLs `_handle_urls` reaches before a fetch raises. */
  function Reached(urls: seq<string>, fetch: string -> Result<seq<Doc>>): (r: seq<(string, Doc)>)
  {
    var n := FetchedCount(urls, fetch);
    assert AllFetched(urls[..n], fetch);
    Fetched(urls[..n], fetch)
  }

  /**
   * The fetch loop of `_handle_urls`: the entries of every document of every URL, in order, or the
   * exception of the first fetch that raises. The records of the URLs before that one have
   * already gone to the processor.
   */
  method FetchAll(urls: seq<string>, fetch: string -> Result<seq<Doc>>, mode: string)
      returns (all: Result<seq<string>>, processed: seq<Doc>)
    ensures FetchedCount(urls, fetch) < |urls| ==> all == Failure(fetch(urls[FetchedCount(urls, fetch)]).error)
    ensures FetchedCount(urls, fetch) == |urls| ==> all == Success(Entries(Reached(urls, fetch)))
    ensures processed == if mode == KnowledgeBaseMode then Kept(Reached(urls, fetch)) else []
  {
    var entries: seq<string> := [];
    processed := [];
    var i := 0;
    while i < |urls|
      invariant 0 <= i <= |urls|
      invariant AllFetched(urls[..i], fetch)
      invariant entries == Entries(Fetched(urls[..i], fetch))
      invariant processed == if mode == KnowledgeBaseMode then Kept(Fetched(urls[..i], fetch)) else []
    {
      var docs := fetch(urls[i]);
      if docs.Failure? {
        assert forall k :: 0 <= k < i ==> fetch(urls[k]).Success? by {
          assert forall k :: 0 <= k < i ==> urls[..i][k] == urls[k];
        }
        return Failure(docs.error), processed;
      }
      assert urls[..i + 1][..i] == urls[..i];
      entries, processed := AddDocs(urls[i], docs.value, mode, Fetched(urls[..i], fetch), entries, processed);
      i := i + 1;
    }
    assert urls[..i] == urls;
    all := Success(entries);
  }

  /** The question loop of `_handle_urls`, with the fixed prompt when nothing is left. */
  method AskedQuestion(query: string, urls: seq<string>) returns (question: string)
    requires |urls| > 0 && forall k :: 0 <= k < |urls| ==> |urls[k]| > 0
    ensures question == Question(query, urls)
  {
    question := query;
    var i := 0;
    while i < |urls|
      invariant 0 <= i <= |urls|
      invariant question == QuestionAfter(query, urls[..i])
    {
      assert urls[..i + 1][..i] == urls[..i];
      question := Strip(Replace(question, urls[i], ""));
      i := i + 1;
    }
    assert urls[..i] == urls;
    if question == "" {
      question := SummarizePrompt;
    }
  }

  /**
   * `_handle_urls`: every document of every URL adds one entry (an error entry for a flagged
   * document, which the processor never sees); without entries the fixed failure text, otherwise
   * the masked answer to the question with the URLs removed. A fetch that raises ends it.
   */
  method HandleUrls(client: L.LlmClient, complete: L.Completion, fetch: string -> Result<seq<Doc>>,
                    query: string, urls: seq<string>, mode: string, history: seq<Turn>)
      returns (answer: Result<string>, processed: seq<Doc>)
    requires |urls| > 0 && forall k :: 0 <= k < |urls| ==> |urls[k]| > 0
    ensures answer == HandleUrlsSpec(client, complete, fetch, query, urls, mode, history)
    ensures processed == if mode == KnowledgeBaseMode then Kept(Reached(urls, fetch)) else []
  {
    var all;
    all, processed := FetchAll(urls, fetch, mode);
    if all.Failure? {
      return Failure(all.error), processed;
    }
    assert urls[..|urls|] == urls;
    if all.value == [] {
      return Success(FetchFailed), processed;
    }
    var context := Join("\n\n---\n\n", all.value);
    var question := AskedQuestion(query, urls);
    var prompt := "Web Content:\n" + Take(context, WebContentLimit) + "\n\nQuestion: " + question;
    var messages := [L.Msg("system", WebSystem)] + history + [L.Msg("user", prompt)];
    answer := Success(MaskSensitiveData(L.ChatCompletion(client, messages, complete)));
  }
}
