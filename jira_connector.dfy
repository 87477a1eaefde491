/**
 * The Jira connector: a query that is an issue key fetches that issue, any other query runs a
 * text search, and every answer (an issue, the search hits, or why there are none) comes back
 * as records. The REST calls and the HTML-to-Markdown conversion are parameters; an issue is
 * given as the fields the connector reads, `None` where the JSON lacks one.
 */
module JiraConnector {
  import opened Wrappers
  import opened Json
  import opened Text
  import opened Docs
  import opened Collections

  /** The settings the connector falls back on. */
  datatype JiraSettings = JiraSettings(jiraUrl: Option<string>, jiraToken: Option<string>)

  /** `base_url`: the argument when given, else the configured URL without trailing slashes. */
  function JiraUrl(explicit: Option<string>, settings: Option<JiraSettings>): Option<string>
  {
    if !Present(explicit) && settings.Some? && Present(settings.value.jiraUrl)
    then Some(RStripBy(settings.value.jiraUrl.value, IsSlash))
    else explicit
  }

  /** `token`: the argument when given, else the configured token. */
  function JiraToken(explicit: Option<string>, settings: Option<JiraSettings>): Option<string>
  {
    if !Present(explicit) && settings.Some? && Present(settings.value.jiraToken)
    then settings.value.jiraToken
    else explicit
  }

  /**
   * An explicit URL or token always wins; without one, the setting is used, the URL with its
   * trailing slashes removed; without either, the value stays unset.
   */
  lemma SettingsPrecedence(explicitUrl: Option<string>, explicitToken: Option<string>, settings: Option<JiraSettings>)
    ensures Present(explicitUrl) ==> JiraUrl(explicitUrl, settings) == explicitUrl
    ensures Present(explicitToken) ==> JiraToken(explicitToken, settings) == explicitToken
    ensures !Present(explicitUrl) && settings.Some? && Present(settings.value.jiraUrl) ==>
      var u := JiraUrl(explicitUrl, settings).value;
      && u == RStripBy(settings.value.jiraUrl.value, IsSlash)
      && (u == "" || u[|u| - 1] != '/')
    ensures !Present(explicitToken) && settings.Some? && Present(settings.value.jiraToken) ==>
      JiraToken(explicitToken, settings) == settings.value.jiraToken
    ensures settings.None? ==> JiraUrl(explicitUrl, settings) == explicitUrl && JiraToken(explicitToken, settings) == explicitToken
  {
  }

  predicate IsKeyChar(c: char)
  {
    IsUpper(c) || IsDigit(c)
  }

  /** `re.match(r'^[A-Z][A-Z0-9]+-\d+$', s)`, scanned left to right. */
  predicate IsIssueKey(s: string)
  {
    |s| > 0 && IsUpper(s[0]) &&
    var k := Span(s, 1, IsKeyChar);
    2 <= k < |s| && s[k] == '-' && IsDigitString(s[k + 1..])
  }

  /** The key pattern read as a split: a capital, one or more capitals or digits, '-' at `k`, then digits. */
  predicate KeySplitAt(s: string, k: int)
  {
    && 2 <= k < |s| - 1
    && IsUpper(s[0])
    && (forall i :: 1 <= i < k ==> IsKeyChar(s[i]))
    && s[k] == '-'
    && (forall i :: k < i < |s| ==> IsDigit(s[i]))
  }

  /** The scan accepts exactly the strings that split as the pattern describes. */
  lemma IsIssueKeyIff(s: string)
    ensures IsIssueKey(s) <==> exists k :: KeySplitAt(s, k)
  {
    if IsIssueKey(s) {
      var k := Span(s, 1, IsKeyChar);
      assert forall i :: k < i < |s| ==> s[i] == s[k + 1..][i - k - 1];
      assert KeySplitAt(s, k);
    }
    if k :| KeySplitAt(s, k) {
      SpanStopsAt(s, 1, IsKeyChar, k);
      var tail := s[k + 1..];
      assert forall i :: 0 <= i < |tail| ==> tail[i] == s[k + 1 + i];
    }
  }

  /** The three capitals-and-digits readings of the pattern on a few keys. */
  lemma IssueKeyExamples()
    ensures IsIssueKey("PROJ-123")
    ensures IsIssueKey("A1-7")
    ensures !IsIssueKey("A-1")
    ensures !IsIssueKey("proj-123")
    ensures !IsIssueKey("PROJ-")
  {
    assert Span("PROJ-123", 4, IsKeyChar) == 4;
    assert Span("A1-7", 2, IsKeyChar) == 2;
    assert Span("A-1", 1, IsKeyChar) == 1;
    assert Span("PROJ-", 4, IsKeyChar) == 4;
  }

  /** A user in an issue field: a non-empty object, with or without a display name. */
  datatype Person = Person(displayName: Option<string>)

  /**
   * What `_format_issue` reads of an issue. `None` is a key the JSON lacks; a person is `None`
   * when the field is missing, null or an empty object; a name is `None` when the object or its
   * "name" is missing.
   */
  datatype JiraIssue = JiraIssue(
    key: Option<string>,
    summary: Option<string>,
    renderedDescription: Option<string>,
    description: Option<string>,
    typeName: Option<string>,
    statusName: Option<string>,
    priorityName: Option<string>,
    assignee: Option<Person>,
    reporter: Option<Person>,
    labels: seq<string>,
    components: seq<Option<string>>,
    created: Option<string>,
    updated: Option<string>)

  const LabelsPrefix: string := "**Labels:** "
  const ComponentsPrefix: string := "**Components:** "
  const NoDescription: string := "(No description)"

  /** `x or y` on optional strings: the first one that is given and not empty. */
  function OrElse(first: Option<string>, second: string): string
  {
    if Present(first) then first.value else second
  }

  /** The description: the rendered one, else the plain one, else ""; converted to Markdown when it holds a '<'. */
  function Description(data: JiraIssue, toMarkdown: string -> string): string
  {
    var raw := OrElse(data.renderedDescription, OrElse(data.description, ""));
    if '<' in raw then toMarkdown(raw) else raw
  }

  function ComponentNames(components: seq<Option<string>>): (r: seq<string>)
    ensures |r| == |components|
  {
    if components == [] then []
    else ComponentNames(components[..|components| - 1]) + [components[|components| - 1].GetOr("")]
  }

  function Assignee(data: JiraIssue): string
  {
    if data.assignee.Some? then data.assignee.value.displayName.GetOr("Unassigned") else "Unassigned"
  }

  function Reporter(data: JiraIssue): string
  {
    if data.reporter.Some? then data.reporter.value.displayName.GetOr("Unknown") else "Unknown"
  }

  /** The heading, a blank line and the five fixed fields, with their defaults. */
  function FieldLines(data: JiraIssue): seq<string>
  {
    ["# " + data.key.GetOr("") + " \U{2014} " + data.summary.GetOr(""),
     "",
     "**Type:** " + data.typeName.GetOr("Unknown"),
     "**Status:** " + data.statusName.GetOr("Unknown"),
     "**Priority:** " + data.priorityName.GetOr("Unknown"),
     "**Assignee:** " + Assignee(data),
     "**Reporter:** " + Reporter(data)]
  }

  /** The Labels and Components lines, each only when its list is not empty. */
  function ListLines(data: JiraIssue): seq<string>
  {
    var components := ComponentNames(data.components);
    (if |data.labels| > 0 then [LabelsPrefix + Join(", ", data.labels)] else [])
    + (if |components| > 0 then [ComponentsPrefix + Join(", ", components)] else [])
  }

  /** The dates and the description section. */
  function TailLines(data: JiraIssue, toMarkdown: string -> string): seq<string>
  {
    var description := Description(data, toMarkdown);
    ["**Created:** " + data.created.GetOr(""),
     "**Updated:** " + data.updated.GetOr(""),
     "",
     "## Description",
     if description == "" then NoDescription else description]
  }

  /** The lines of an issue's content, in the order `_format_issue` appends them. */
  function IssueLines(data: JiraIssue, toMarkdown: string -> string): seq<string>
  {
    FieldLines(data) + ListLines(data) + TailLines(data, toMarkdown)
  }

  /** `_format_issue`. */
  function FormatIssue(baseUrl: string, data: JiraIssue, toMarkdown: string -> string): Doc
  {
    var key := data.key.GetOr("");
    Doc(key, data.summary.GetOr(""), Join("\n", IssueLines(data, toMarkdown)),
        map["source" := Str("jira"),
            "status" := Str(data.statusName.GetOr("Unknown")),
            "priority" := Str(data.priorityName.GetOr("Unknown")),
            "assignee" := Str(if data.assignee.Some? then data.assignee.value.displayName.GetOr("") else ""),
            "type" := Str(data.typeName.GetOr("")),
            "labels" := Arr(StrList(data.labels)),
            "url" := Str(baseUrl + "/browse/" + key)])
  }

  /** Neither list marker starts a line that is not a list line. */
  predicate Unmarked(line: string)
  {
    !StartsWith(line, LabelsPrefix) && !StartsWith(line, ComponentsPrefix)
  }

  /** The first index at which a fixed line differs from both list markers: 0 for the heading, 2 for a field. */
  lemma FieldLinesUnmarked(data: JiraIssue)
    ensures forall j :: 0 <= j < |FieldLines(data)| ==> Unmarked(FieldLines(data)[j])
  {
    var f := FieldLines(data);
    forall j | 0 <= j < 7
      ensures Unmarked(f[j])
    {
      if j != 1 {
        var i := if j == 0 then 0 else 2;
        assert f[j][i] == ['#', ' ', 'T', 'S', 'P', 'A', 'R'][j];
        DiffersAt(f[j], LabelsPrefix, i);
        DiffersAt(f[j], ComponentsPrefix, i);
      }
    }
  }

  lemma TailLinesUnmarked(data: JiraIssue, toMarkdown: string -> string)
    ensures forall j :: 0 <= j < 4 ==> Unmarked(TailLines(data, toMarkdown)[j])
  {
    var t := TailLines(data, toMarkdown);
    assert t[0][3] == 'r' && t[0][2] == 'C';
    DiffersAt(t[0], LabelsPrefix, 2);
    DiffersAt(t[0], ComponentsPrefix, 3);
    assert t[1][2] == 'U';
    DiffersAt(t[1], LabelsPrefix, 2);
    DiffersAt(t[1], ComponentsPrefix, 2);
    assert t[3][1] == '#';
    DiffersAt(t[3], LabelsPrefix, 1);
    DiffersAt(t[3], ComponentsPrefix, 1);
  }

  /**
   * The lines of an issue: the heading, the five fixed fields with "Unknown"/"Unassigned" for
   * what is missing, the list lines, the dates, and last the description or "(No description)".
   */
  lemma IssueLinesShape(data: JiraIssue, toMarkdown: string -> string)
    ensures var lines := IssueLines(data, toMarkdown);
      var labels := if |data.labels| > 0 then 1 else 0;
      var comps := if |data.components| > 0 then 1 else 0;
      && |lines| == 12 + labels + comps
      && StartsWith(lines[0], "# " + data.key.GetOr("") + " ")
      && (data.assignee.None? ==> lines[5] == "**Assignee:** Unassigned")
      && (data.reporter.None? ==> lines[6] == "**Reporter:** Unknown")
      && (|data.labels| > 0 ==> lines[7] == LabelsPrefix + Join(", ", data.labels))
      && (|data.components| > 0 ==> lines[7 + labels] == ComponentsPrefix + Join(", ", ComponentNames(data.components)))
      && lines[|lines| - 2] == "## Description"
      && lines[|lines| - 1] == (if Description(data, toMarkdown) == "" then NoDescription else Description(data, toMarkdown))
      && lines[|lines| - 1] != ""
  {
    var f := FieldLines(data);
    assert f[0] == ("# " + data.key.GetOr("") + " ") + ("\U{2014} " + data.summary.GetOr(""));
  }

  /**
   * A line (other than the description, which is free text) starts with "**Labels:** " exactly
   * when the issue has labels, and with "**Components:** " exactly when it has components.
   */
  lemma ListLinesExactly(data: JiraIssue, toMarkdown: string -> string)
    ensures var lines := IssueLines(data, toMarkdown);
      && ((exists k :: 0 <= k < |lines| - 1 && StartsWith(lines[k], LabelsPrefix)) <==> |data.labels| > 0)
      && ((exists k :: 0 <= k < |lines| - 1 && StartsWith(lines[k], ComponentsPrefix)) <==> |data.components| > 0)
  {
    var f, l, t := FieldLines(data), ListLines(data), TailLines(data, toMarkdown);
    var lines := IssueLines(data, toMarkdown);
    var labels := if |data.labels| > 0 then 1 else 0;
    assert |l| == labels + (if |data.components| > 0 then 1 else 0);
    FieldLinesUnmarked(data);
    TailLinesUnmarked(data, toMarkdown);
    forall k | 0 <= k < |lines| - 1
      ensures labels == 0 || k != 7 ==> !StartsWith(lines[k], LabelsPrefix)
      ensures |data.components| == 0 || k != 7 + labels ==> !StartsWith(lines[k], ComponentsPrefix)
    {
      if k < 7 {
        assert lines[k] == f[k];
      } else if k >= 7 + |l| {
        assert lines[k] == t[k - 7 - |l|];
      } else {
        DiffersAt(LabelsPrefix + Join(", ", data.labels), ComponentsPrefix, 2);
        DiffersAt(ComponentsPrefix + Join(", ", ComponentNames(data.components)), LabelsPrefix, 2);
      }
    }
    if labels == 1 {
      assert StartsWith(lines[7], LabelsPrefix);
    }
    if |data.components| > 0 {
      assert StartsWith(lines[7 + labels], ComponentsPrefix);
    }
  }

  /**
   * An issue record is keyed and titled by the issue, links to its browse page, carries the
   * issue's labels and is never an error record.
   */
  lemma FormatIssueFacts(baseUrl: string, data: JiraIssue, toMarkdown: string -> string)
    ensures var d := FormatIssue(baseUrl, data, toMarkdown);
      && d.id == data.key.GetOr("")
      && d.title == data.summary.GetOr("")
      && d.content == Join("\n", IssueLines(data, toMarkdown))
      && d.metadata["source"] == Str("jira")
      && d.metadata["url"] == Str(baseUrl + "/browse/" + d.id)
      && (data.assignee.None? ==> d.metadata["assignee"] == Str(""))
      && (data.assignee.Some? && data.assignee.value.displayName.Some? ==> d.metadata["assignee"] == Str(Assignee(data)))
      && d.metadata["labels"].Arr? && |d.metadata["labels"].items| == |data.labels|
      && !IsErrorDoc(d)
  {
  }

  /** What the REST call for one issue gives: a 404, a raised request error, or the issue. */
  datatype IssueResponse = IssueNotFound | IssueFailed(error: string) | IssueFound(data: JiraIssue)

  /** What the search call gives: a raised request error, or the issues listed (none when the list is missing). */
  datatype SearchResponse = SearchFailed(error: string) | SearchFound(issues: seq<JiraIssue>)

  /** The Jira REST API: an issue by its URL, a search by its URL and JQL. */
  datatype JiraApi = JiraApi(getIssue: string -> IssueResponse, search: (string, string) -> SearchResponse)

  function IssueUrl(baseUrl: string, key: string): string
  {
    baseUrl + "/rest/api/2/issue/" + key
  }

  function SearchUrl(baseUrl: string): string
  {
    baseUrl + "/rest/api/2/search"
  }

  /** The JQL of a text search, newest first. */
  function Jql(text: string): string
  {
    "text ~ \"" + text + "\" ORDER BY updated DESC"
  }

  const NotConfiguredMessage: string :=
    "Jira URL or API token is not set. Please configure KB_AGENT_JIRA_URL and KB_AGENT_JIRA_TOKEN in .env."

  function ErrorMeta(): map<string, Value>
  {
    map["source" := Str("jira"), "error" := Bool(true)]
  }

  function NotConfiguredDoc(query: string): Doc
  {
    Doc(query, "Jira not configured", NotConfiguredMessage, ErrorMeta())
  }

  function NotFoundDoc(key: string): Doc
  {
    Doc(key, "Issue " + key + " not found", "Jira issue " + key + " does not exist.", ErrorMeta())
  }

  function IssueErrorDoc(key: string, error: string): Doc
  {
    Doc(key, "Jira API error", "Failed to fetch " + key + ": " + error, ErrorMeta())
  }

  function NoResultsDoc(text: string): Doc
  {
    Doc("search", "No Jira results for: " + text, "JQL search '" + Jql(text) + "' returned 0 results.", map["source" := Str("jira")])
  }

  function SearchErrorDoc(error: string): Doc
  {
    Doc("search_error", "Jira search error", "Failed to search Jira: " + error, ErrorMeta())
  }

  /** `_is_configured`: both the URL and the token are set and not empty. */
  predicate Configured(baseUrl: Option<string>, token: Option<string>)
  {
    Present(baseUrl) && Present(token)
  }

  /** `_fetch_issue`. */
  function IssueRecords(baseUrl: string, key: string, api: JiraApi, toMarkdown: string -> string): seq<Doc>
  {
    match api.getIssue(IssueUrl(baseUrl, key))
    case IssueNotFound => [NotFoundDoc(key)]
    case IssueFailed(e) => [IssueErrorDoc(key, e)]
    case IssueFound(data) => [FormatIssue(baseUrl, data, toMarkdown)]
  }

  /** One record per issue, in the order listed. */
  function FormatIssues(baseUrl: string, issues: seq<JiraIssue>, toMarkdown: string -> string): (r: seq<Doc>)
    ensures |r| == |issues|
    ensures forall i :: 0 <= i < |issues| ==> r[i] == FormatIssue(baseUrl, issues[i], toMarkdown)
  {
    MapSeq(issue => FormatIssue(baseUrl, issue, toMarkdown), issues)
  }

  /** `_search_jql`. */
  function SearchRecords(baseUrl: string, text: string, api: JiraApi, toMarkdown: string -> string): seq<Doc>
  {
    match api.search(SearchUrl(baseUrl), Jql(text))
    case SearchFailed(e) => [SearchErrorDoc(e)]
    case SearchFound(issues) =>
      if issues == [] then [NoResultsDoc(text)] else FormatIssues(baseUrl, issues, toMarkdown)
  }

  /** `fetch_data` on a connector with the given URL and token. */
  function FetchRecords(baseUrl: Option<string>, token: Option<string>, query: string, api: JiraApi, toMarkdown: string -> string): seq<Doc>
  {
    if !Configured(baseUrl, token) then [NotConfiguredDoc(query)]
    else if IsIssueKey(Strip(query)) then IssueRecords(baseUrl.value, Strip(query), api, toMarkdown)
    else SearchRecords(baseUrl.value, query, api, toMarkdown)
  }

  /**
   * An unconfigured connector answers with one error record keyed by the query; a configured one
   * fetches the stripped query when it is an issue key and searches the query as given otherwise.
   * There is always at least one record.
   */
  lemma FetchRecordsCases(baseUrl: Option<string>, token: Option<string>, query: string, api: JiraApi, toMarkdown: string -> string)
    ensures var r := FetchRecords(baseUrl, token, query, api, toMarkdown);
      && |r| >= 1
      && (!Configured(baseUrl, token) ==> |r| == 1 && r[0].id == query && IsErrorDoc(r[0]) && r[0].title == "Jira not configured")
      && (Configured(baseUrl, token) && IsIssueKey(Strip(query)) ==> r == IssueRecords(baseUrl.value, Strip(query), api, toMarkdown))
      && (Configured(baseUrl, token) && !IsIssueKey(Strip(query)) ==> r == SearchRecords(baseUrl.value, query, api, toMarkdown))
  {
    var r := FetchRecords(baseUrl, token, query, api, toMarkdown);
    if !Configured(baseUrl, token) {
      assert Get(r[0].metadata, "error", Null) == Bool(true);
    } else if IsIssueKey(Strip(query)) {
      IssueRecordsCases(baseUrl.value, Strip(query), api, toMarkdown);
    } else {
      SearchRecordsCases(baseUrl.value, query, api, toMarkdown);
    }
  }

  /**
   * Fetching an issue gives exactly one record: an error record keyed by the requested key on a
   * 404 or a request error, the formatted issue (not an error) otherwise.
   */
  lemma IssueRecordsCases(baseUrl: string, key: string, api: JiraApi, toMarkdown: string -> string)
    ensures var r := IssueRecords(baseUrl, key, api, toMarkdown);
      var response := api.getIssue(IssueUrl(baseUrl, key));
      && |r| == 1
      && (response.IssueNotFound? ==> r[0].id == key && IsErrorDoc(r[0]) && r[0].title == "Issue " + key + " not found")
      && (response.IssueFailed? ==> r[0].id == key && IsErrorDoc(r[0]) && r[0].content == "Failed to fetch " + key + ": " + response.error)
      && (response.IssueFound? ==> r[0] == FormatIssue(baseUrl, response.data, toMarkdown) && !IsErrorDoc(r[0]))
  {
    var r := IssueRecords(baseUrl, key, api, toMarkdown);
    match api.getIssue(IssueUrl(baseUrl, key))
    case IssueNotFound =>
      assert Get(r[0].metadata, "error", Null) == Bool(true);
    case IssueFailed(e) =>
      assert Get(r[0].metadata, "error", Null) == Bool(true);
    case IssueFound(data) =>
      FormatIssueFacts(baseUrl, data, toMarkdown);
  }

  /**
   * A search gives one record per issue found, in order and none of them errors; with no issues,
   * one placeholder record "search" that is not an error and names the JQL; on a request error,
   * one error record "search_error".
   */
  lemma SearchRecordsCases(baseUrl: string, text: string, api: JiraApi, toMarkdown: string -> string)
    ensures var r := SearchRecords(baseUrl, text, api, toMarkdown);
      var response := api.search(SearchUrl(baseUrl), Jql(text));
      && |r| >= 1
      && (response.SearchFailed? ==> r == [SearchErrorDoc(response.error)] && IsErrorDoc(r[0]) && r[0].id == "search_error")
      && (response.SearchFound? && response.issues == [] ==>
            r == [NoResultsDoc(text)] && !IsErrorDoc(r[0]) && r[0].id == "search"
            && r[0].content == "JQL search '" + Jql(text) + "' returned 0 results.")
      && (response.SearchFound? && response.issues != [] ==>
            && |r| == |response.issues|
            && forall i :: 0 <= i < |r| ==> r[i] == FormatIssue(baseUrl, response.issues[i], toMarkdown) && !IsErrorDoc(r[i]))
  {
    var r := SearchRecords(baseUrl, text, api, toMarkdown);
    match api.search(SearchUrl(baseUrl), Jql(text))
    case SearchFailed(e) =>
      assert Get(r[0].metadata, "error", Null) == Bool(true);
    case SearchFound(issues) =>
      if issues == [] {
        assert "error" !in r[0].metadata;
      } else {
        forall i | 0 <= i < |r|
          ensures !IsErrorDoc(r[i])
        {
          FormatIssueFacts(baseUrl, issues[i], toMarkdown);
        }
      }
  }

  /** `JiraConnector`: the URL and token it was given or read from the settings. */
  class JiraConnector {
    var baseUrl: Option<string>
    var token: Option<string>

    /** Explicit arguments win; the settings fill in what is missing or empty. */
    constructor (baseUrl: Option<string>, token: Option<string>, settings: Option<JiraSettings>)
      ensures this.baseUrl == JiraUrl(baseUrl, settings) && this.token == JiraToken(token, settings)
    {
      var url, tok := baseUrl, token;
      if settings.Some? {
        if !Present(url) && Present(settings.value.jiraUrl) {
          url := Some(RStripBy(settings.value.jiraUrl.value, IsSlash));
        }
        if !Present(tok) && Present(settings.value.jiraToken) {
          tok := settings.value.jiraToken;
        }
      }
      this.baseUrl := url;
      this.token := tok;
    }

    predicate IsConfigured()
      reads this
    {
      Configured(baseUrl, token)
    }

    /** `fetch_data`. */
    method FetchData(query: string, api: JiraApi, toMarkdown: string -> string) returns (r: seq<Doc>)
      ensures r == FetchRecords(baseUrl, token, query, api, toMarkdown)
    {
      if !IsConfigured() {
        return [NotConfiguredDoc(query)];
      }
      var q := Strip(query);
      if IsIssueKey(q) {
        r := IssueRecords(baseUrl.value, q, api, toMarkdown);
      } else {
        r := SearchJql(baseUrl.value, query, api, toMarkdown);
      }
    }

    /** `_search_jql`. */
    method SearchJql(base: string, text: string, api: JiraApi, toMarkdown: string -> string) returns (r: seq<Doc>)
      ensures r == SearchRecords(base, text, api, toMarkdown)
    {
      match api.search(SearchUrl(base), Jql(text))
      case SearchFailed(e) =>
        r := [SearchErrorDoc(e)];
      case SearchFound(issues) =>
        var results := FormatFound(base, issues, toMarkdown);
        r := if results != [] then results else [NoResultsDoc(text)];
    }

    /** The loop of `_search_jql`: the results list is filled one issue at a time. */
    method FormatFound(base: string, issues: seq<JiraIssue>, toMarkdown: string -> string) returns (results: seq<Doc>)
      ensures results == FormatIssues(base, issues, toMarkdown)
    {
      results := [];
      var i := 0;
      while i < |issues|
        invariant 0 <= i <= |issues|
        invariant |results| == i
        invariant forall k :: 0 <= k < i ==> results[k] == FormatIssue(base, issues[k], toMarkdown)
      {
        results := results + [FormatIssue(base, issues[i], toMarkdown)];
        i := i + 1;
      }
    }

    /** `fetch_all`: nothing is listed without a query. */
    method FetchAll() returns (r: seq<Doc>)
      ensures r == []
    {
      r := [];
    }
  }
}
