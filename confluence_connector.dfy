/**
 * The Confluence connector: a query that is all digits fetches that page, any other query runs a
 * text search, and every answer (a page, the search hits, or why there are none) comes back as
 * records. The REST calls and the HTML-to-Markdown conversion are parameters; a page is given as
 * the fields the connector reads, `None` where the JSON lacks one.
 */
module ConfluenceConnector {
  import opened Wrappers
  import opened Json
  import opened Text
  import opened Docs

  /** The settings the connector falls back on. */
  datatype ConfluenceSettings = ConfluenceSettings(
    confluenceUrl: Option<string>, confluenceEmail: Option<string>, confluenceToken: Option<string>)

  /** `base_url`: the argument when given, else the configured URL without trailing slashes. */
  function ConfluenceUrl(explicit: Option<string>, settings: Option<ConfluenceSettings>): Option<string>
  {
    if !Present(explicit) && settings.Some? && Present(settings.value.confluenceUrl)
    then Some(RStripBy(settings.value.confluenceUrl.value, IsSlash))
    else explicit
  }

  /** A setting taken as it is: the argument when given, else the configured value. */
  function Fallback(explicit: Option<string>, configured: Option<string>): Option<string>
  {
    if !Present(explicit) && Present(configured) then configured else explicit
  }

  /** `_auth`: the user is the email when one is set, else empty; the password is the token, set or not. */
  function Auth(email: Option<string>, token: Option<string>): (r: (string, Option<string>))
    ensures r.1 == token
    ensures Present(email) ==> r.0 == email.value
    ensures r.0 == "" <==> !Present(email)
  {
    if Present(email) then (email.value, token) else ("", token)
  }

  /** A page's space: its name and key, each `None` when missing. */
  datatype Space = Space(name: Option<string>, key: Option<string>)

  /** A page's version: its number as printed, when and by whom it was last modified. */
  datatype Version = Version(number: Option<string>, when: Option<string>, author: Option<string>)

  /**
   * What `_format_page` reads of a page. `None` is a key the JSON lacks; `bodyHtml` is the
   * storage body, `ancestors` the ancestors' titles, `webui` the page's web link.
   */
  datatype Page = Page(
    id: Option<string>,
    title: Option<string>,
    bodyHtml: Option<string>,
    space: Space,
    version: Version,
    ancestors: seq<Option<string>>,
    webui: Option<string>)

  const PathPrefix: string := "**Path:** "
  const NoContent: string := "(No content)"

  function Title(data: Page): string
  {
    data.title.GetOr("Untitled")
  }

  /** The Markdown of the body; a page with no body gets "(No content)". */
  function ContentMarkdown(data: Page, toMarkdown: string -> string): string
  {
    if Present(data.bodyHtml) then toMarkdown(data.bodyHtml.value) else NoContent
  }

  /** `[a.get("title", "") for a in ancestors]`. */
  function AncestorTitles(ancestors: seq<Option<string>>): (r: seq<string>)
    ensures |r| == |ancestors|
  {
    if ancestors == [] then []
    else AncestorTitles(ancestors[..|ancestors| - 1]) + [ancestors[|ancestors| - 1].GetOr("")]
  }

  /** The space shown: its name, else its key, else "Unknown". */
  function SpaceLabel(space: Space): string
  {
    space.name.GetOr(space.key.GetOr("Unknown"))
  }

  /** The heading, a blank line, and the space and version lines. */
  function FieldLines(data: Page): seq<string>
  {
    ["# " + Title(data),
     "",
     "**Space:** " + SpaceLabel(data.space),
     "**Version:** " + data.version.number.GetOr("Unknown"),
     "**Last Modified:** " + data.version.when.GetOr("Unknown") + " by " + data.version.author.GetOr("Unknown")]
  }

  /** The breadcrumb line, only when the page has ancestors. */
  function PathLines(data: Page): seq<string>
  {
    if |data.ancestors| > 0 then [PathPrefix + Join(" > ", AncestorTitles(data.ancestors)) + " > " + Title(data)] else []
  }

  function TailLines(data: Page, toMarkdown: string -> string): seq<string>
  {
    ["", "## Content", ContentMarkdown(data, toMarkdown)]
  }

  /** The lines of a page's content, in the order `_format_page` appends them. */
  function PageLines(data: Page, toMarkdown: string -> string): seq<string>
  {
    FieldLines(data) + PathLines(data) + TailLines(data, toMarkdown)
  }

  /** `page_url`: the wiki link when both the connector's URL and the page's web link are set, else "". */
  function PageUrl(baseUrl: Option<string>, data: Page): string
  {
    if Present(baseUrl) && Present(data.webui) then baseUrl.value + "/wiki" + data.webui.value else ""
  }

  /** `_format_page`. */
  function FormatPage(baseUrl: Option<string>, data: Page, toMarkdown: string -> string): Doc
  {
    Doc(data.id.GetOr(""), Title(data), Join("\n", PageLines(data, toMarkdown)),
        map["source" := Str("confluence"),
            "space" := Str(data.space.key.GetOr("")),
            "space_name" := Str(data.space.name.GetOr("")),
            "version" := Num(data.version.number.GetOr("0")),
            "url" := Str(PageUrl(baseUrl, data)),
            "ancestors" := Arr(StrList(AncestorTitles(data.ancestors)))])
  }

  /**
   * The lines of a page: the title heading, the space (name, else key, else "Unknown"), the
   * version, the breadcrumb ending in the page's own title when it has ancestors, and last the
   * body's Markdown or "(No content)".
   */
  lemma PageLinesShape(data: Page, toMarkdown: string -> string)
    ensures var lines := PageLines(data, toMarkdown);
      var path := if |data.ancestors| > 0 then 1 else 0;
      && |lines| == 8 + path
      && lines[0] == "# " + Title(data)
      && (data.title.None? ==> lines[0] == "# Untitled")
      && (data.space.name.None? && data.space.key.None? ==> lines[2] == "**Space:** Unknown")
      && (|data.ancestors| > 0 ==>
            && StartsWith(lines[5], PathPrefix + Join(" > ", AncestorTitles(data.ancestors)))
            && EndsWith(lines[5], " > " + Title(data)))
      && lines[|lines| - 2] == "## Content"
      && (Present(data.bodyHtml) ==> lines[|lines| - 1] == toMarkdown(data.bodyHtml.value))
      && (!Present(data.bodyHtml) ==> lines[|lines| - 1] == NoContent)
  {
    var lines := PageLines(data, toMarkdown);
    if |data.ancestors| > 0 {
      var crumbs := PathPrefix + Join(" > ", AncestorTitles(data.ancestors));
      var tail := " > " + Title(data);
      assert lines[5] == crumbs + tail;
      assert (crumbs + tail)[|crumbs + tail| - |tail|..] == tail;
    }
  }

  /** The breadcrumb marker starts none of the fixed lines. */
  lemma FixedLinesUnmarked(data: Page, toMarkdown: string -> string)
    ensures forall j :: 0 <= j < |FieldLines(data)| ==> !StartsWith(FieldLines(data)[j], PathPrefix)
    ensures forall j :: 0 <= j < 2 ==> !StartsWith(TailLines(data, toMarkdown)[j], PathPrefix)
  {
    var f := FieldLines(data);
    forall j | 0 <= j < 5
      ensures !StartsWith(f[j], PathPrefix)
    {
      if j != 1 {
        var i := if j == 0 then 0 else 2;
        assert f[j][i] == ['#', ' ', 'S', 'V', 'L'][j];
        DiffersAt(f[j], PathPrefix, i);
      }
    }
    var t := TailLines(data, toMarkdown);
    assert t[1][1] == '#';
    DiffersAt(t[1], PathPrefix, 1);
  }

  /** A line (other than the body, which is free text) starts with "**Path:** " exactly when the page has ancestors. */
  lemma PathLineExactly(data: Page, toMarkdown: string -> string)
    ensures var lines := PageLines(data, toMarkdown);
      (exists k :: 0 <= k < |lines| - 1 && StartsWith(lines[k], PathPrefix)) <==> |data.ancestors| > 0
  {
    var f, p, t := FieldLines(data), PathLines(data), TailLines(data, toMarkdown);
    var lines := PageLines(data, toMarkdown);
    FixedLinesUnmarked(data, toMarkdown);
    forall k | 0 <= k < |lines| - 1 && (k != 5 || |p| == 0)
      ensures !StartsWith(lines[k], PathPrefix)
    {
      if k < 5 {
        assert lines[k] == f[k];
      } else {
        assert lines[k] == t[k - 5 - |p|];
      }
    }
    if |p| == 1 {
      assert lines[5] == PathPrefix + (Join(" > ", AncestorTitles(data.ancestors)) + " > " + Title(data));
      assert StartsWith(lines[5], PathPrefix);
    }
  }

  /**
   * A page record is keyed by the page id, titled "Untitled" when the page has none, links to
   * the page only when both URLs are known, reports version 0 when the page has none, lists the
   * ancestors' titles, and is never an error record.
   */
  lemma FormatPageFacts(baseUrl: Option<string>, data: Page, toMarkdown: string -> string)
    ensures var d := FormatPage(baseUrl, data, toMarkdown);
      && d.id == data.id.GetOr("")
      && d.title == Title(data)
      && d.content == Join("\n", PageLines(data, toMarkdown))
      && d.metadata["source"] == Str("confluence")
      && (Present(baseUrl) && Present(data.webui) <==> d.metadata["url"] != Str(""))
      && (Present(baseUrl) && Present(data.webui) ==> d.metadata["url"] == Str(baseUrl.value + "/wiki" + data.webui.value))
      && (data.version.number.None? ==> d.metadata["version"] == Num("0"))
      && d.metadata["ancestors"].Arr? && |d.metadata["ancestors"].items| == |data.ancestors|
      && !IsErrorDoc(d)
  {
    var d := FormatPage(baseUrl, data, toMarkdown);
    if Present(baseUrl) && Present(data.webui) {
      assert |PageUrl(baseUrl, data)| > 0;
    }
  }

  /** What the REST call for one page gives: a 404, a raised request error, or the page. */
  datatype PageResponse = PageNotFound | PageFailed(error: string) | PageFound(data: Page)

  /** What the search call gives: a raised request error, or the pages listed (none when the list is missing). */
  datatype SearchResponse = SearchFailed(error: string) | SearchFound(results: seq<Page>)

  /** The Confluence REST API: a page by its URL, a search by its URL and CQL; both are sent the credentials. */
  datatype ConfluenceApi = ConfluenceApi(
    getPage: (string, (string, Option<string>)) -> PageResponse,
    search: (string, string, (string, Option<string>)) -> SearchResponse)

  function PageApiUrl(baseUrl: string, pageId: string): string
  {
    baseUrl + "/wiki/rest/api/content/" + pageId
  }

  function SearchUrl(baseUrl: string): string
  {
    baseUrl + "/wiki/rest/api/content/search"
  }

  /** The CQL of a text search, most recently modified first. */
  function Cql(text: string): string
  {
    "text ~ \"" + text + "\" ORDER BY lastmodified DESC"
  }

  const NotConfiguredMessage: string :=
    "Confluence URL or API token is not set. Please configure KB_AGENT_CONFLUENCE_URL and KB_AGENT_CONFLUENCE_TOKEN in .env."

  function ErrorMeta(): map<string, Value>
  {
    map["source" := Str("confluence"), "error" := Bool(true)]
  }

  function NotConfiguredDoc(query: string): Doc
  {
    Doc(query, "Confluence not configured", NotConfiguredMessage, ErrorMeta())
  }

  function NotFoundDoc(pageId: string): Doc
  {
    Doc(pageId, "Page " + pageId + " not found", "Confluence page ID " + pageId + " does not exist.", ErrorMeta())
  }

  function PageErrorDoc(pageId: string, error: string): Doc
  {
    Doc(pageId, "Confluence API error", "Failed to fetch page " + pageId + ": " + error, ErrorMeta())
  }

  function NoResultsDoc(text: string): Doc
  {
    Doc("search", "No Confluence results for: " + text, "CQL search returned 0 results for '" + text + "'.",
        map["source" := Str("confluence")])
  }

  function SearchErrorDoc(error: string): Doc
  {
    Doc("search_error", "Confluence search error", "Failed to search Confluence: " + error, ErrorMeta())
  }

  /** `_is_configured`: both the URL and the token are set and not empty. */
  predicate Configured(baseUrl: Option<string>, token: Option<string>)
  {
    Present(baseUrl) && Present(token)
  }

  /** The connector's state as the fetch functions read it. */
  datatype Credentials = Credentials(baseUrl: Option<string>, email: Option<string>, token: Option<string>)

  /** `_fetch_page`. */
  function PageRecords(c: Credentials, pageId: string, api: ConfluenceApi, toMarkdown: string -> string): seq<Doc>
    requires Present(c.baseUrl)
  {
    match api.getPage(PageApiUrl(c.baseUrl.value, pageId), Auth(c.email, c.token))
    case PageNotFound => [NotFoundDoc(pageId)]
    case PageFailed(e) => [PageErrorDoc(pageId, e)]
    case PageFound(data) => [FormatPage(c.baseUrl, data, toMarkdown)]
  }

  /** One record per page, in the order listed. */
  function FormatPages(baseUrl: Option<string>, pages: seq<Page>, toMarkdown: string -> string): (r: seq<Doc>)
    ensures |r| == |pages|
    ensures forall i :: 0 <= i < |pages| ==> r[i] == FormatPage(baseUrl, pages[i], toMarkdown)
  {
    if pages == [] then []
    else FormatPages(baseUrl, pages[..|pages| - 1], toMarkdown) + [FormatPage(baseUrl, pages[|pages| - 1], toMarkdown)]
  }

  /** `_search_cql`. */
  function SearchRecords(c: Credentials, text: string, api: ConfluenceApi, toMarkdown: string -> string): seq<Doc>
    requires Present(c.baseUrl)
  {
    match api.search(SearchUrl(c.baseUrl.value), Cql(text), Auth(c.email, c.token))
    case SearchFailed(e) => [SearchErrorDoc(e)]
    case SearchFound(pages) =>
      if pages == [] then [NoResultsDoc(text)] else FormatPages(c.baseUrl, pages, toMarkdown)
  }

  /** `fetch_data` on a connector in the given state. */
  function FetchRecords(c: Credentials, query: string, api: ConfluenceApi, toMarkdown: string -> string): seq<Doc>
  {
    if !Configured(c.baseUrl, c.token) then [NotConfiguredDoc(query)]
    else if IsDigitString(Strip(query)) then PageRecords(c, Strip(query), api, toMarkdown)
    else SearchRecords(c, query, api, toMarkdown)
  }

  /**
   * An unconfigured connector answers with one error record keyed by the query; a configured one
   * fetches the stripped query when it is all digits and searches the query as given otherwise.
   * There is always at least one record.
   */
  lemma FetchRecordsCases(c: Credentials, query: string, api: ConfluenceApi, toMarkdown: string -> string)
    ensures var r := FetchRecords(c, query, api, toMarkdown);
      && |r| >= 1
      && (!Configured(c.baseUrl, c.token) ==> |r| == 1 && r[0].id == query && IsErrorDoc(r[0]) && r[0].title == "Confluence not configured")
      && (Configured(c.baseUrl, c.token) && IsDigitString(Strip(query)) ==> r == PageRecords(c, Strip(query), api, toMarkdown))
      && (Configured(c.baseUrl, c.token) && !IsDigitString(Strip(query)) ==> r == SearchRecords(c, query, api, toMarkdown))
  {
    var r := FetchRecords(c, query, api, toMarkdown);
    if !Configured(c.baseUrl, c.token) {
      assert Get(r[0].metadata, "error", Null) == Bool(true);
    } else if IsDigitString(Strip(query)) {
      PageRecordsCases(c, Strip(query), api, toMarkdown);
    } else {
      SearchRecordsCases(c, query, api, toMarkdown);
    }
  }

  /**
   * Fetching a page gives exactly one record: an error record keyed by the requested id on a 404
   * or a request error, the formatted page (not an error) otherwise.
   */
  lemma PageRecordsCases(c: Credentials, pageId: string, api: ConfluenceApi, toMarkdown: string -> string)
    requires Present(c.baseUrl)
    ensures var r := PageRecords(c, pageId, api, toMarkdown);
      var response := api.getPage(PageApiUrl(c.baseUrl.value, pageId), Auth(c.email, c.token));
      && |r| == 1
      && (response.PageNotFound? ==> r[0].id == pageId && IsErrorDoc(r[0]) && r[0].title == "Page " + pageId + " not found")
      && (response.PageFailed? ==> r[0].id == pageId && IsErrorDoc(r[0]) && r[0].content == "Failed to fetch page " + pageId + ": " + response.error)
      && (response.PageFound? ==> r[0] == FormatPage(c.baseUrl, response.data, toMarkdown) && !IsErrorDoc(r[0]))
  {
    var r := PageRecords(c, pageId, api, toMarkdown);
    match api.getPage(PageApiUrl(c.baseUrl.value, pageId), Auth(c.email, c.token))
    case PageNotFound =>
      assert Get(r[0].metadata, "error", Null) == Bool(true);
    case PageFailed(e) =>
      assert Get(r[0].metadata, "error", Null) == Bool(true);
    case PageFound(data) =>
      FormatPageFacts(c.baseUrl, data, toMarkdown);
  }

  /**
   * A search gives one record per page found, in order and none of them errors; with no pages,
   * one placeholder record "search" that is not an error and names the text; on a request error,
   * one error record "search_error".
   */
  lemma SearchRecordsCases(c: Credentials, text: string, api: ConfluenceApi, toMarkdown: string -> string)
    requires Present(c.baseUrl)
    ensures var r := SearchRecords(c, text, api, toMarkdown);
      var response := api.search(SearchUrl(c.baseUrl.value), Cql(text), Auth(c.email, c.token));
      && |r| >= 1
      && (response.SearchFailed? ==> r == [SearchErrorDoc(response.error)] && IsErrorDoc(r[0]) && r[0].id == "search_error")
      && (response.SearchFound? && response.results == [] ==>
            r == [NoResultsDoc(text)] && !IsErrorDoc(r[0]) && r[0].id == "search")
      && (response.SearchFound? && response.results != [] ==>
            && |r| == |response.results|
            && forall i :: 0 <= i < |r| ==> r[i] == FormatPage(c.baseUrl, response.results[i], toMarkdown) && !IsErrorDoc(r[i]))
  {
    var r := SearchRecords(c, text, api, toMarkdown);
    match api.search(SearchUrl(c.baseUrl.value), Cql(text), Auth(c.email, c.token))
    case SearchFailed(e) =>
      assert Get(r[0].metadata, "error", Null) == Bool(true);
    case SearchFound(pages) =>
      if pages == [] {
        assert "error" !in r[0].metadata;
      } else {
        forall i | 0 <= i < |r|
          ensures !IsErrorDoc(r[i])
        {
          FormatPageFacts(c.baseUrl, pages[i], toMarkdown);
        }
      }
  }

  /** `ConfluenceConnector`: the URL, email and token it was given or read from the settings. */
  class ConfluenceConnector {
    var baseUrl: Option<string>
    var email: Option<string>
    var token: Option<string>

    /** Explicit arguments win; the settings fill in what is missing or empty. */
    constructor (baseUrl: Option<string>, email: Option<string>, token: Option<string>, settings: Option<ConfluenceSettings>)
      ensures this.baseUrl == ConfluenceUrl(baseUrl, settings)
      ensures settings.Some? ==>
        this.email == Fallback(email, settings.value.confluenceEmail) && this.token == Fallback(token, settings.value.confluenceToken)
      ensures settings.None? ==> this.email == email && this.token == token
    {
      var url, mail, tok := baseUrl, email, token;
      if settings.Some? {
        if !Present(url) && Present(settings.value.confluenceUrl) {
          url := Some(RStripBy(settings.value.confluenceUrl.value, IsSlash));
        }
        if !Present(mail) && Present(settings.value.confluenceEmail) {
          mail := settings.value.confluenceEmail;
        }
        if !Present(tok) && Present(settings.value.confluenceToken) {
          tok := settings.value.confluenceToken;
        }
      }
      this.baseUrl := url;
      this.email := mail;
      this.token := tok;
    }

    function State(): Credentials
      reads this
    {
      Credentials(baseUrl, email, token)
    }

    /** `fetch_data`. */
    method FetchData(query: string, api: ConfluenceApi, toMarkdown: string -> string) returns (r: seq<Doc>)
      ensures r == FetchRecords(State(), query, api, toMarkdown)
    {
      if !Configured(baseUrl, token) {
        return [NotConfiguredDoc(query)];
      }
      var q := Strip(query);
      if IsDigitString(q) {
        r := PageRecords(State(), q, api, toMarkdown);
      } else {
        r := SearchCql(query, api, toMarkdown);
      }
    }

    /** `_search_cql`: the results list is filled one page at a time. */
    method SearchCql(text: string, api: ConfluenceApi, toMarkdown: string -> string) returns (r: seq<Doc>)
      requires Present(baseUrl)
      ensures r == SearchRecords(State(), text, api, toMarkdown)
    {
      match api.search(SearchUrl(baseUrl.value), Cql(text), Auth(email, token))
      case SearchFailed(e) =>
        r := [SearchErrorDoc(e)];
      case SearchFound(pages) =>
        var results: seq<Doc> := [];
        var i := 0;
        while i < |pages|
          invariant 0 <= i <= |pages|
          invariant results == FormatPages(baseUrl, pages[..i], toMarkdown)
        {
          results := results + [FormatPage(baseUrl, pages[i], toMarkdown)];
          i := i + 1;
          assert pages[..i][..i - 1] == pages[..i - 1];
        }
        assert pages[..|pages|] == pages;
        r := if results != [] then results else [NoResultsDoc(text)];
    }

    /** `fetch_all`: nothing is listed without a query. */
    method FetchAll() returns (r: seq<Doc>)
      ensures r == []
    {
      r := [];
    }
  }
}
