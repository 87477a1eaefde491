/**
 * The web connector: a query that looks like a URL is fetched and its main content returned
 * as one Markdown record; anything with a space or a line break inside is refused without a
 * fetch. The two fetching back ends (a headless browser and plain HTTP with HTML clean-up), the
 * HTML-to-Markdown conversion and MD5 are outside the model: each is a parameter that returns
 * what the library would, and the connector's own shaping of that output is modelled.
 */
module WebConnector {
  import opened Wrappers
  import opened Json
  import opened Text
  import opened Docs

  const DefaultEngine: string := "markdownify"
  const BrowserEngine: string := "crawl4ai"
  const InvalidUrlId: string := "invalid_url"
  const FetchErrorPrefix: string := "Error fetching URL: "
  const InvalidIpv6Message: string := "Invalid IPv6 URL"
  const InvalidUrlMessage: string :=
    "' is not a valid URL. The web_fetch tool ONLY accepts valid HTTP/HTTPS URLs (like 'https://example.com'). It CANNOT be used for web searches."

  /** `_get_web_engine`: the engine setting, or the default, lower-cased and then stripped. */
  function EngineName(env: Option<string>): string
  {
    Strip(Lower(env.GetOr(DefaultEngine)))
  }

  predicate HasScheme(url: string)
  {
    StartsWith(url, "http://") || StartsWith(url, "https://")
  }

  /** A URL without an http(s) scheme gets "https://" in front. */
  function Normalize(url: string): string
  {
    if HasScheme(url) then url else "https://" + url
  }

  /** Normalised URLs always carry a scheme; a URL that has one is kept; normalising twice changes nothing. */
  lemma NormalizeFacts(url: string)
    ensures HasScheme(Normalize(url))
    ensures HasScheme(url) <==> Normalize(url) == url
    ensures !HasScheme(url) ==> Normalize(url) == "https://" + url
    ensures Normalize(Normalize(url)) == Normalize(url)
  {
    if !HasScheme(url) {
      assert ("https://" + url)[..8] == "https://";
    }
  }

  predicate IsNetlocEnd(c: char)
  {
    c == '/' || c == '?' || c == '#'
  }

  predicate IsNetlocChar(c: char)
  {
    !IsNetlocEnd(c)
  }

  /** The characters `urlsplit` deletes from a URL before splitting it. */
  predicate IsUnsafeUrlChar(c: char)
  {
    c == '\t' || c == '\r' || c == '\n'
  }

  /** The URL without its tabs and line breaks. */
  function RemoveUnsafe(url: string): (r: string)
    ensures |r| <= |url|
    ensures forall i :: 0 <= i < |r| ==> !IsUnsafeUrlChar(r[i])
  {
    if url == [] then []
    else RemoveUnsafe(url[..|url| - 1]) + (if IsUnsafeUrlChar(url[|url| - 1]) then [] else [url[|url| - 1]])
  }

  lemma {:induction false} RemoveUnsafeAppend(a: string, b: string)
    ensures RemoveUnsafe(a + b) == RemoveUnsafe(a) + RemoveUnsafe(b)
    decreases |b|
  {
    if b != [] {
      RemoveUnsafeAppend(a, b[..|b| - 1]);
      assert (a + b)[..|a + b| - 1] == a + b[..|b| - 1];
    } else {
      assert a + b == a;
    }
  }

  /** A text without tabs or line breaks is left as it is. */
  lemma {:induction false} RemoveUnsafeOfSafe(s: string)
    requires forall i :: 0 <= i < |s| ==> !IsUnsafeUrlChar(s[i])
    ensures RemoveUnsafe(s) == s
    decreases |s|
  {
    if s != [] {
      RemoveUnsafeOfSafe(s[..|s| - 1]);
      assert s[..|s| - 1] + [s[|s| - 1]] == s;
    }
  }

  /** A prefix without tabs or line breaks survives the clean-up. */
  lemma RemoveUnsafeKeepsPrefix(url: string, p: string)
    requires StartsWith(url, p)
    requires forall i :: 0 <= i < |p| ==> !IsUnsafeUrlChar(p[i])
    ensures StartsWith(RemoveUnsafe(url), p)
  {
    assert url == p + url[|p|..];
    RemoveUnsafeAppend(p, url[|p|..]);
    RemoveUnsafeOfSafe(p);
  }

  /** The scheme survives the clean-up. */
  lemma RemoveUnsafeKeepsScheme(url: string)
    requires HasScheme(url)
    ensures StartsWith(url, "http://") ==> StartsWith(RemoveUnsafe(url), "http://")
    ensures StartsWith(url, "https://") ==> StartsWith(RemoveUnsafe(url), "https://")
  {
    if StartsWith(url, "http://") {
      RemoveUnsafeKeepsPrefix(url, "http://");
    }
    if StartsWith(url, "https://") {
      RemoveUnsafeKeepsPrefix(url, "https://");
    }
  }

  /**
   * `urlparse(url).netloc` for an http(s) URL: tabs and line breaks are deleted first, then
   * the host is what follows `//` up to the first `/`, `?` or `#`.
   */
  function Netloc(url: string): (r: string)
    requires HasScheme(url)
  {
    RemoveUnsafeKeepsScheme(url);
    var u := RemoveUnsafe(url);
    var start := if StartsWith(url, "http://") then 7 else 8;
    u[start..Span(u, start, IsNetlocChar)]
  }

  /** The host holds no tab, line break, `/`, `?` or `#`. */
  lemma NetlocChars(url: string)
    requires HasScheme(url)
    ensures forall i :: 0 <= i < |Netloc(url)| ==> !IsUnsafeUrlChar(Netloc(url)[i]) && !IsNetlocEnd(Netloc(url)[i])
  {
    RemoveUnsafeKeepsScheme(url);
    var u := RemoveUnsafe(url);
    var start := if StartsWith(url, "http://") then 7 else 8;
    var e := Span(u, start, IsNetlocChar);
    forall j | start <= j < e ensures !IsNetlocEnd(u[j]) {
      assert IsNetlocChar(u[j]);
    }
    assert Netloc(url) == u[start..e];
  }

  /**
   * Tabs and line breaks play no part in the host: the host of a URL is the host of the URL
   * with them deleted, as `urlsplit` deletes them before it splits.
   */
  lemma NetlocIgnoresUnsafe(url: string)
    requires HasScheme(url)
    ensures HasScheme(RemoveUnsafe(url))
    ensures Netloc(RemoveUnsafe(url)) == Netloc(url)
  {
    RemoveUnsafeKeepsScheme(url);
    var u := RemoveUnsafe(url);
    RemoveUnsafeOfSafe(u);
    if !StartsWith(url, "http://") {
      assert u[..8] == "https://";
      assert u[4] == 's';
      assert !StartsWith(u, "http://");
    }
  }

  /** `_url_id`: "web_", the host with its dots turned into underscores, "_" and ten digits of the URL's MD5. */
  function UrlId(url: string, md5Hex: string -> string): string
    requires HasScheme(url)
  {
    "web_" + Replace(Netloc(url), ".", "_") + "_" + Take(md5Hex(url), 10)
  }

  /**
   * The id of a URL is "web_", then its host character by character with every '.' replaced
   * by '_', then "_" and the first ten characters of the digest; it holds no dot before the
   * digest, nor any tab, line break, `/`, `?` or `#`, and the same URL always gets the same id.
   */
  lemma UrlIdShape(url: string, md5Hex: string -> string)
    requires HasScheme(url)
    ensures var host := Netloc(url);
      var id := UrlId(url, md5Hex);
      && |id| == |host| + 5 + |Take(md5Hex(url), 10)|
      && (|md5Hex(url)| >= 10 ==> |id| == |host| + 15)
      && StartsWith(id, "web_")
      && EndsWith(id, "_" + Take(md5Hex(url), 10))
      && (forall i :: 0 <= i < |host| ==> id[4 + i] == (if host[i] == '.' then '_' else host[i]))
      && (forall i :: 4 <= i < 4 + |host| ==> id[i] != '.' && !IsUnsafeUrlChar(id[i]) && !IsNetlocEnd(id[i]))
  {
    var host := Netloc(url);
    NetlocChars(url);
    ReplaceChar(host, '.', '_');
    var d := Replace(host, ".", "_");
    var h := Take(md5Hex(url), 10);
    var id := "web_" + d + "_" + h;
    assert id == UrlId(url, md5Hex);
    assert id[..4] == "web_";
    assert id[|id| - |"_" + h|..] == "_" + h;
    forall i | 0 <= i < |host| ensures id[4 + i] == d[i] {
    }
  }

  predicate IsNewline(c: char)
  {
    c == '\n'
  }

  /** `re.sub(r"\n{3,}", "\n\n", s)`: every run of three or more line breaks becomes two. */
  function CollapseNewlines(s: string): string
    decreases |s|
  {
    if s == [] then []
    else if s[0] != '\n' then [s[0]] + CollapseNewlines(s[1..])
    else
      var n := Span(s, 0, IsNewline);
      (if n >= 3 then "\n\n" else s[..n]) + CollapseNewlines(s[n..])
  }

  /** Three line breaks start at `i`. */
  predicate TripleAt(s: string, i: int)
  {
    0 <= i && i + 2 < |s| && s[i] == '\n' && s[i + 1] == '\n' && s[i + 2] == '\n'
  }

  /** No three line breaks in a row. */
  predicate NoTripleNewline(s: string)
  {
    forall i :: 0 <= i < |s| ==> !TripleAt(s, i)
  }

  lemma NoTripleSlice(s: string, a: nat, b: nat)
    requires NoTripleNewline(s) && a <= b <= |s|
    ensures NoTripleNewline(s[a..b])
  {
    forall i | 0 <= i < |s[a..b]| ensures !TripleAt(s[a..b], i) {
      if TripleAt(s[a..b], i) {
        assert TripleAt(s, a + i);
      }
    }
  }

  /** A character other than a line break in front keeps a text free of triple line breaks. */
  lemma NoTripleCons(c: char, rest: string)
    requires c != '\n' && NoTripleNewline(rest)
    ensures NoTripleNewline([c] + rest)
  {
    var r := [c] + rest;
    forall i | 0 <= i < |r| ensures !TripleAt(r, i) {
      if TripleAt(r, i) {
        assert i > 0;
        assert TripleAt(rest, i - 1);
      }
    }
  }

  /** At most two line breaks in front of a text that does not start with one. */
  lemma NoTripleBreaks(head: string, rest: string)
    requires |head| <= 2 && (rest == [] || rest[0] != '\n') && NoTripleNewline(rest)
    ensures NoTripleNewline(head + rest)
  {
    var r := head + rest;
    forall i | 0 <= i < |r| ensures !TripleAt(r, i) {
      if TripleAt(r, i) {
        if i >= |head| {
          assert TripleAt(rest, i - |head|);
        }
      }
    }
  }

  /** The characters of a string that are not line breaks. */
  function Visible(s: string): (r: string)
  {
    if s == [] then [] else (if s[0] == '\n' then [] else [s[0]]) + Visible(s[1..])
  }

  lemma {:induction false} VisibleAppend(a: string, b: string)
    ensures Visible(a + b) == Visible(a) + Visible(b)
    decreases |a|
  {
    if a != [] {
      assert (a + b)[1..] == a[1..] + b;
      VisibleAppend(a[1..], b);
    } else {
      assert a + b == b;
    }
  }

  /** A run of line breaks has no visible character. */
  lemma {:induction false} VisibleOfNewlines(s: string)
    requires forall i :: 0 <= i < |s| ==> s[i] == '\n'
    ensures Visible(s) == []
    decreases |s|
  {
    if s != [] {
      VisibleOfNewlines(s[1..]);
    }
  }

  /** The collapse starts with the same character as its input. */
  lemma CollapseHead(s: string)
    requires s != []
    ensures CollapseNewlines(s) != [] && CollapseNewlines(s)[0] == s[0]
  {
    if s[0] == '\n' {
      var n := Span(s, 0, IsNewline);
      assert n >= 1;
    }
  }

  /** Collapsing leaves no run of three line breaks. */
  lemma {:induction false} CollapseNoTriple(s: string)
    ensures NoTripleNewline(CollapseNewlines(s))
    decreases |s|
  {
    if s == [] {
    } else if s[0] != '\n' {
      CollapseNoTriple(s[1..]);
      NoTripleCons(s[0], CollapseNewlines(s[1..]));
    } else {
      var n := Span(s, 0, IsNewline);
      var tail := s[n..];
      CollapseNoTriple(tail);
      if tail != [] {
        CollapseHead(tail);
      }
      NoTripleBreaks(if n >= 3 then "\n\n" else s[..n], CollapseNewlines(tail));
    }
  }

  /** Collapsing keeps every character other than a line break, in order. */
  lemma {:induction false} CollapseVisible(s: string)
    ensures Visible(CollapseNewlines(s)) == Visible(s)
    decreases |s|
  {
    if s == [] {
    } else if s[0] != '\n' {
      var rest := CollapseNewlines(s[1..]);
      CollapseVisible(s[1..]);
      VisibleAppend([s[0]], rest);
      assert s == [s[0]] + s[1..];
      VisibleAppend([s[0]], s[1..]);
    } else {
      var n := Span(s, 0, IsNewline);
      var head := if n >= 3 then "\n\n" else s[..n];
      var tail := s[n..];
      CollapseVisible(tail);
      assert s == s[..n] + tail;
      VisibleOfNewlines(head);
      VisibleOfNewlines(s[..n]);
      VisibleAppend(head, CollapseNewlines(tail));
      VisibleAppend(s[..n], tail);
    }
  }

  /** A run of three or more line breaks at the start is a triple there. */
  lemma LongRunIsTriple(s: string)
    ensures Span(s, 0, IsNewline) >= 3 ==> TripleAt(s, 0)
  {
    if Span(s, 0, IsNewline) >= 3 {
      assert IsNewline(s[0]) && IsNewline(s[1]) && IsNewline(s[2]);
    }
  }

  /** Text without a run of three line breaks is left as it is; so collapsing twice is collapsing once. */
  lemma {:induction false} CollapseFixed(s: string)
    requires NoTripleNewline(s)
    ensures CollapseNewlines(s) == s
    decreases |s|
  {
    if s == [] {
    } else if s[0] != '\n' {
      NoTripleSlice(s, 1, |s|);
      assert s[1..|s|] == s[1..];
      CollapseFixed(s[1..]);
    } else {
      var n := Span(s, 0, IsNewline);
      LongRunIsTriple(s);
      assert n < 3;
      NoTripleSlice(s, n, |s|);
      assert s[n..|s|] == s[n..];
      CollapseFixed(s[n..]);
      assert s == s[..n] + s[n..];
    }
  }

  /** `re.sub(r"\n{3,}", "\n\n", markdown).strip()`. */
  function CleanMarkdown(markdown: string): string
  {
    Strip(CollapseNewlines(markdown))
  }

  /** The placeholder content of a page that yielded no text. */
  function NoContent(url: string): string
  {
    "(No meaningful content extracted from " + url + ")"
  }

  /**
   * The record of a fetched page, as both back ends shape it: the cleaned Markdown or the
   * placeholder, the page title or else the URL, the URL's id, and which back end produced it.
   */
  function PageDoc(url: string, title: string, markdown: string, backEnd: string, md5Hex: string -> string): Doc
    requires HasScheme(url)
  {
    var content := CleanMarkdown(markdown);
    Doc(UrlId(url, md5Hex),
        if title == "" then url else title,
        if content == "" then NoContent(url) else content,
        map["source" := Str("web"), "url" := Str(url), "domain" := Str(Netloc(url)), "method" := Str(backEnd)])
  }

  /**
   * A page record always has an id, a title and some content; its content is the cleaned
   * Markdown unless that is empty, and then names the URL; its title is the page's own unless
   * that is empty; it is not an error record.
   */
  lemma PageDocFacts(url: string, title: string, markdown: string, backEnd: string, md5Hex: string -> string)
    requires HasScheme(url)
    ensures var d := PageDoc(url, title, markdown, backEnd, md5Hex);
      && d.id == UrlId(url, md5Hex) && d.title != "" && d.content != ""
      && (title != "" ==> d.title == title) && (title == "" ==> d.title == url)
      && (CleanMarkdown(markdown) != "" ==> d.content == CleanMarkdown(markdown))
      && (CleanMarkdown(markdown) == "" ==> d.content == NoContent(url))
      && !IsErrorDoc(d)
      && d.metadata["url"] == Str(url) && d.metadata["method"] == Str(backEnd)
  {
    var d := PageDoc(url, title, markdown, backEnd, md5Hex);
    assert "error" !in d.metadata;
  }

  /** Cleaned Markdown has no run of three line breaks and keeps every other character of the page in order. */
  lemma CleanMarkdownFacts(markdown: string)
    ensures NoTripleNewline(CleanMarkdown(markdown))
    ensures Visible(CollapseNewlines(markdown)) == Visible(markdown)
  {
    CollapseNoTriple(markdown);
    CollapseVisible(markdown);
    StripKeepsNoTriple(CollapseNewlines(markdown));
  }

  /** Stripping keeps a text free of runs of three line breaks. */
  lemma StripKeepsNoTriple(s: string)
    requires NoTripleNewline(s)
    ensures NoTripleNewline(Strip(s))
  {
    var l := LStripBy(s, IsSpace);
    LStripByIsSuffix(s, IsSpace);
    assert l == s[|s| - |l|..|s|];
    NoTripleSlice(s, |s| - |l|, |s|);
    var r := RStripBy(l, IsSpace);
    RStripByIsPrefix(l, IsSpace);
    NoTripleSlice(l, 0, |r|);
    assert Strip(s) == r;
  }

  /** What the headless browser hands back: the chosen Markdown and the page metadata's title ("" when absent). */
  datatype BrowserPage = BrowserPage(markdown: string, metaTitle: string)

  /** What plain HTTP hands back: the `<title>` text when there is one, and the main content as Markdown. */
  datatype HttpPage = HttpPage(title: Option<string>, markdown: string)

  /**
   * The libraries behind the connector. A `Failure` of `browse` is any exception the browser
   * path raised; a `Failure` of `httpGet` is a `requests.RequestException`, the only exception the
   * plain HTTP path catches (any other would propagate and is not modelled).
   */
  datatype WebOracles = WebOracles(
    browse: string -> Result<BrowserPage>,
    httpGet: string -> Result<HttpPage>,
    md5Hex: string -> string)

  predicate IsLineChar(c: char)
  {
    c != '\n'
  }

  /** The part of a line after position `i`, up to the next line break. */
  function RestOfLine(s: string, i: nat): string
    requires i <= |s|
  {
    s[i..Span(s, i, IsLineChar)]
  }

  /**
   * The title `re.match(r"#\s+(.+)", markdown)` yields, stripped: the rest of the first line
   * after a "#" and white space; "" where there is no match, or where the match is only white space.
   */
  function HeadingTitle(markdown: string): string
  {
    if markdown == [] || markdown[0] != '#' then ""
    else
      var n := Span(markdown, 1, IsSpace);
      if n == 1 || n == |markdown| then "" else Strip(RestOfLine(markdown, n))
  }

  /** Where the stripped text starts in the original. */
  function StripOffset(s: string): nat
  {
    |s| - |LStripBy(s, IsSpace)|
  }

  /** Stripping gives a piece of the text, starting at `StripOffset`. */
  lemma StripIsSlice(s: string)
    ensures StripOffset(s) + |Strip(s)| <= |s|
    ensures forall i :: 0 <= i < |Strip(s)| ==> Strip(s)[i] == s[StripOffset(s) + i]
  {
    var l := LStripBy(s, IsSpace);
    var r := RStripBy(l, IsSpace);
    LStripByIsSuffix(s, IsSpace);
    RStripByIsPrefix(l, IsSpace);
    assert Strip(s) == r;
    assert r == s[StripOffset(s)..StripOffset(s) + |r|];
  }

  /**
   * A heading title is a whole line's rest: it holds no line break and no surrounding white
   * space, and it is found only after a "#" and white space at the start of the Markdown.
   */
  lemma HeadingTitleFacts(markdown: string)
    ensures var t := HeadingTitle(markdown);
      && (t != "" ==> |markdown| >= 3 && markdown[0] == '#' && IsSpace(markdown[1]))
      && (forall i :: 0 <= i < |t| ==> t[i] != '\n')
      && (t == "" || (!IsSpace(t[0]) && !IsSpace(t[|t| - 1])))
  {
    var t := HeadingTitle(markdown);
    if markdown != [] && markdown[0] == '#' {
      var n := Span(markdown, 1, IsSpace);
      if n != 1 && n != |markdown| {
        var line := RestOfLine(markdown, n);
        assert forall i :: 0 <= i < |line| ==> IsLineChar(line[i]);
        StripIsSlice(line);
        assert t == Strip(line);
        forall i | 0 <= i < |t| ensures t[i] != '\n' {
          assert t[i] == line[StripOffset(line) + i];
        }
      }
    }
  }

  /** `_fetch_with_crawl4ai` once the browser succeeded: the metadata's title, else the first heading's. */
  function BrowserDoc(url: string, page: BrowserPage, md5Hex: string -> string): Doc
    requires HasScheme(url)
  {
    var title := if page.metaTitle != "" then page.metaTitle else HeadingTitle(CleanMarkdown(page.markdown));
    PageDoc(url, title, page.markdown, "crawl4ai", md5Hex)
  }

  /** The browser's record takes the page metadata's title, else the first heading's, else the URL. */
  lemma BrowserTitle(url: string, page: BrowserPage, md5Hex: string -> string)
    requires HasScheme(url)
    ensures var d := BrowserDoc(url, page, md5Hex);
      var heading := HeadingTitle(CleanMarkdown(page.markdown));
      && (page.metaTitle != "" ==> d.title == page.metaTitle)
      && (page.metaTitle == "" && heading != "" ==> d.title == heading)
      && (page.metaTitle == "" && heading == "" ==> d.title == url)
      && d.metadata["method"] == Str(BrowserEngine)
  {
  }

  /** `_fetch_with_requests`: an error record when the request raised, else the page record. */
  function HttpFetch(url: string, o: WebOracles): seq<Doc>
    requires HasScheme(url)
  {
    match o.httpGet(url)
    case Failure(e) =>
      [Doc(UrlId(url, o.md5Hex), url, FetchErrorPrefix + e, map["source" := Str("web"), "url" := Str(url), "error" := Str(e)])]
    case Success(page) =>
      var title := if page.title.Some? && page.title.value != "" then Strip(page.title.value) else "";
      [PageDoc(url, title, page.markdown, "requests_fallback", o.md5Hex)]
  }

  /** The record that refuses a query that cannot be a URL. */
  function InvalidUrlDoc(query: string): Doc
  {
    Doc(InvalidUrlId, "Invalid URL Error",
        "Error: '" + query + InvalidUrlMessage,
        map["source" := Str("web"), "error" := Bool(true)])
  }

  /** Whether the stripped query is refused. */
  predicate IsRefused(query: string)
  {
    ' ' in Strip(query) || '\n' in Strip(query)
  }

  /** A host with a `[` and no `]`, or the reverse, which `urlsplit` refuses. */
  predicate UnbalancedBrackets(host: string)
  {
    ('[' in host && ']' !in host) || (']' in host && '[' !in host)
  }

  /**
   * `fetch_data`, with the engine setting and the libraries given. Every record is built with
   * `_url_id`, so a URL whose host `urlsplit` refuses raises its ValueError out of every path
   * (in the browser path the exception is caught once and raised again by the fallback).
   */
  function FetchData(query: string, env: Option<string>, o: WebOracles): Result<seq<Doc>>
  {
    if IsRefused(query) then Success([InvalidUrlDoc(query)])
    else
      NormalizeFacts(Strip(query));
      var url := Normalize(Strip(query));
      if UnbalancedBrackets(Netloc(url)) then Failure(InvalidIpv6Message)
      else Success(FetchUrl(url, env, o))
  }

  /** The fetch of a normalised URL: the browser when the setting names it, with plain HTTP as its fallback. */
  function FetchUrl(url: string, env: Option<string>, o: WebOracles): seq<Doc>
    requires HasScheme(url)
  {
    if EngineName(env) == BrowserEngine then
      match o.browse(url)
      case Success(page) => [BrowserDoc(url, page, o.md5Hex)]
      case Failure(_) => HttpFetch(url, o)
    else HttpFetch(url, o)
  }

  /** Plain HTTP gives one record with the URL's id and the URL in its metadata, whether the request raised or not. */
  lemma HttpFetchShape(url: string, o: WebOracles)
    requires HasScheme(url)
    ensures |HttpFetch(url, o)| == 1
    ensures HttpFetch(url, o)[0].id == UrlId(url, o.md5Hex)
    ensures HttpFetch(url, o)[0].metadata["url"] == Str(url)
  {
  }

  /** Every fetch of a URL gives one record with the URL's id and the URL in its metadata. */
  lemma FetchUrlShape(url: string, env: Option<string>, o: WebOracles)
    requires HasScheme(url)
    ensures |FetchUrl(url, env, o)| == 1
    ensures FetchUrl(url, env, o)[0].id == UrlId(url, o.md5Hex)
    ensures FetchUrl(url, env, o)[0].metadata["url"] == Str(url)
  {
    HttpFetchShape(url, o);
  }

  /**
   * `fetch_data`: a query whose stripped form holds a space or a line break gives only the
   * "invalid_url" error record and nothing is fetched; any other is fetched as the stripped
   * query with "https://" added when it had no scheme, unless its host has an unmatched
   * bracket, which raises; whatever returns is a single record.
   */
  lemma FetchDataCases(query: string, env: Option<string>, o: WebOracles)
    ensures IsRefused(query) ==> FetchData(query, env, o) == Success([InvalidUrlDoc(query)])
    ensures !IsRefused(query) ==> HasScheme(Normalize(Strip(query)))
    ensures !IsRefused(query) && UnbalancedBrackets(Netloc(Normalize(Strip(query)))) ==>
      FetchData(query, env, o) == Failure(InvalidIpv6Message)
    ensures !IsRefused(query) && !UnbalancedBrackets(Netloc(Normalize(Strip(query)))) ==>
      FetchData(query, env, o) == Success(FetchUrl(Normalize(Strip(query)), env, o))
    ensures FetchData(query, env, o).Success? ==> |FetchData(query, env, o).value| == 1
  {
    NormalizeFacts(Strip(query));
    if !IsRefused(query) {
      FetchUrlShape(Normalize(Strip(query)), env, o);
    }
  }

  /**
   * The engine choice: the browser is used only when the setting names it, and when it fails
   * the plain HTTP fetch is made instead; any other setting goes straight to plain HTTP.
   */
  lemma EngineFallback(url: string, env: Option<string>, o: WebOracles)
    requires HasScheme(url)
    ensures EngineName(env) != BrowserEngine ==> FetchUrl(url, env, o) == HttpFetch(url, o)
    ensures EngineName(env) == BrowserEngine && o.browse(url).Failure? ==> FetchUrl(url, env, o) == HttpFetch(url, o)
    ensures EngineName(env) == BrowserEngine && o.browse(url).Success? ==>
      FetchUrl(url, env, o) == [BrowserDoc(url, o.browse(url).value, o.md5Hex)]
      && FetchUrl(url, env, o)[0].metadata["method"] == Str(BrowserEngine)
  {
  }

  /** A request that raised gives one error record whose content starts "Error fetching URL" and whose metadata has "error". */
  lemma HttpErrorRecord(url: string, o: WebOracles)
    requires HasScheme(url) && o.httpGet(url).Failure?
    ensures var r := HttpFetch(url, o);
      && |r| == 1
      && StartsWith(r[0].content, "Error fetching URL")
      && "error" in r[0].metadata
      && r[0].title == url
      && r[0].id == UrlId(url, o.md5Hex)
  {
    var r := HttpFetch(url, o);
    assert r[0].content == FetchErrorPrefix + o.httpGet(url).error;
    assert r[0].content[..18] == "Error fetching URL";
  }

  /** The refusal is an error record with the fixed id. */
  lemma InvalidUrlIsError(query: string)
    ensures InvalidUrlDoc(query).id == InvalidUrlId && IsErrorDoc(InvalidUrlDoc(query))
  {
  }

  /** `fetch_all`: the web connector has nothing to list. */
  function FetchAll(): (r: seq<Doc>)
    ensures |r| == 0
  {
    []
  }
}
