/**
 * Full-text search over the knowledge-base directory. ripgrep's JSON event stream is grouped
 * per file, sorted by line number and merged into passages of nearby lines; without ripgrep,
 * or when it fails, the Markdown files are scanned line by line with context windows around
 * each match. The ripgrep process, the directory walk, file reading and the regex engine are
 * parameters.
 */
module GrepTool {
  import opened Wrappers
  import opened Json
  import opened Text
  import opened Collections

  /** Lines at most this far apart belong to one passage. */
  const MergeGap: int := 20
  /** Context lines kept on each side of a match by the fallback scan. */
  const ContextLines: int := 10
  const RipgrepUnreadable: string := "ripgrep output could not be read"

  /** `json.loads` on one output line: the decoded value, or None when it raises a decode error. */
  type Loads = string -> Option<Value>

  /** A line ripgrep reported: its number, its text, and whether it matched or is context. */
  datatype RgLine = RgLine(line: int, content: string, isMatch: bool)

  /** A search result: the file, the reported line and the passage text. */
  datatype Hit = Hit(filePath: Value, line: int, content: string)

  /**
   * What one output line contributes: nothing (the exceptions the loop catches, or another
   * event type), an exception that ends the ripgrep search, or a line of a file.
   */
  datatype Event = Skip | Raise | Record(path: Value, rl: RgLine)

  // ------------------------------------------------------------------ reading ripgrep's events

  /** `v[key]`: None when it raises, a KeyError for a missing key or a TypeError for a non-dict. */
  function Index(v: Value, key: string): Option<Value>
  {
    if v.Obj? && key in v.fields then Some(v.fields[key]) else None
  }

  /** `x["text"] if isinstance(x, dict) else str(x)`; `show` is `str()` of a list. */
  function TextOf(x: Value, show: Value -> string): Option<Value>
  {
    if x.Obj? then Index(x, "text")
    else if Hashable(x) then Some(Str(Render(x)))
    else Some(Str(show(x)))
  }

  /**
   * The fields of a `match` or `context` event. A missing key, a non-dict and an unhashable
   * path are skipped; a line number that is not an integer or a text that is not a string
   * makes the later sort, subtraction or `strip` raise.
   */
  function DecodeLine(data: Value, isMatch: bool, show: Value -> string): Event
  {
    var d := Index(data, "data");
    if d.None? then Skip
    else
      var pd := Index(d.value, "path");
      var num := Index(d.value, "line_number");
      var ld := Index(d.value, "lines");
      if pd.None? || num.None? || ld.None? then Skip
      else
        var path := TextOf(pd.value, show);
        var content := TextOf(ld.value, show);
        if path.None? || content.None? || !Hashable(path.value) then Skip
        else if !content.value.Str? || !num.value.Num? || ParseInt(num.value.repr).None? then Raise
        else Record(path.value, RgLine(ParseInt(num.value.repr).value, content.value.s, isMatch))
  }

  /** One output line: undecodable lines and other event types are skipped; a non-dict raises. */
  function Decode(loads: Loads, show: Value -> string, raw: string): (e: Event)
    ensures loads(raw).None? ==> e.Skip?
    ensures loads(raw).Some? && !loads(raw).value.Obj? ==> e.Raise?
    ensures e.Record? ==>
      (loads(raw).Some? && loads(raw).value.Obj? &&
       (e.rl.isMatch <==> Get(loads(raw).value.fields, "type", Null) == Str("match")))
  {
    match loads(raw)
    case None => Skip
    case Some(data) =>
      if !data.Obj? then Raise
      else
        var kind := Get(data.fields, "type", Null);
        if kind != Str("match") && kind != Str("context") then Skip
        else DecodeLine(data, kind == Str("match"), show)
  }

  // ------------------------------------------------------------------ grouping per file

  /** The files in first-seen order, and each file's lines in output order. */
  datatype Collected = Collected(order: seq<Value>, lines: map<Value, seq<RgLine>>)

  /** The paths of the records among the events, in order, repeats included. */
  function RecordPaths(evs: seq<Event>): seq<Value>
  {
    if evs == [] then []
    else RecordPaths(evs[..|evs| - 1]) + if evs[|evs| - 1].Record? then [evs[|evs| - 1].path] else []
  }

  /** The lines recorded for `path`, in order. */
  function LinesAt(evs: seq<Event>, path: Value): seq<RgLine>
  {
    if evs == [] then []
    else
      var e := evs[|evs| - 1];
      LinesAt(evs[..|evs| - 1], path) + if e.Record? && e.path == path then [e.rl] else []
  }

  /** The collection loop: a record's path gets a list on first sight, then the line is appended. */
  function CollectSpec(evs: seq<Event>): (c: Collected)
    ensures forall p :: p in c.lines <==> p in c.order
  {
    if evs == [] then Collected([], map[])
    else
      var c := CollectSpec(evs[..|evs| - 1]);
      var e := evs[|evs| - 1];
      if !e.Record? then c
      else if e.path in c.lines then Collected(c.order, c.lines[e.path := c.lines[e.path] + [e.rl]])
      else Collected(c.order + [e.path], c.lines[e.path := [e.rl]])
  }

  lemma {:induction false} LinesAtAbsent(evs: seq<Event>, p: Value)
    requires p !in RecordPaths(evs)
    ensures LinesAt(evs, p) == []
    decreases |evs|
  {
    if evs != [] {
      LinesAtAbsent(evs[..|evs| - 1], p);
    }
  }

  /** The grouping is exact: each file once, in first-seen order, with exactly its lines in order. */
  lemma {:induction false} CollectIsGrouping(evs: seq<Event>)
    ensures CollectSpec(evs).order == Dedup(RecordPaths(evs))
    ensures forall p :: p in CollectSpec(evs).lines <==> p in RecordPaths(evs)
    ensures forall p :: p in CollectSpec(evs).lines ==> CollectSpec(evs).lines[p] == LinesAt(evs, p)
    decreases |evs|
  {
    if evs != [] {
      var init := evs[..|evs| - 1];
      var e := evs[|evs| - 1];
      CollectIsGrouping(init);
      var c := CollectSpec(init);
      if e.Record? {
        assert RecordPaths(evs) == RecordPaths(init) + [e.path];
        DedupSnoc(RecordPaths(init), e.path);
        forall p | p in CollectSpec(evs).lines ensures CollectSpec(evs).lines[p] == LinesAt(evs, p) {
          assert LinesAt(evs, p) == LinesAt(init, p) + if e.path == p then [e.rl] else [];
          if p == e.path && p !in c.lines {
            LinesAtAbsent(init, p);
          }
        }
      } else {
        assert RecordPaths(evs) == RecordPaths(init);
        forall p | p in CollectSpec(evs).lines ensures CollectSpec(evs).lines[p] == LinesAt(evs, p) {
          assert LinesAt(evs, p) == LinesAt(init, p);
        }
      }
    }
  }

  lemma CollectStep(evs: seq<Event>, i: nat)
    requires i < |evs|
    ensures CollectSpec(evs[..i + 1]) ==
      var c := CollectSpec(evs[..i]);
      var e := evs[i];
      if !e.Record? then c
      else if e.path in c.lines then Collected(c.order, c.lines[e.path := c.lines[e.path] + [e.rl]])
      else Collected(c.order + [e.path], c.lines[e.path := [e.rl]])
  {
    assert evs[..i + 1][..i] == evs[..i];
  }

  // ------------------------------------------------------------------ sorting by line number

  predicate SortedByLine(xs: seq<RgLine>)
  {
    forall i, j :: 0 <= i < j < |xs| ==> xs[i].line <= xs[j].line
  }

  /** `x` placed after every element whose line is not greater: the step of a stable sort. */
  function InsertByLine(s: seq<RgLine>, x: RgLine): (r: seq<RgLine>)
    ensures |r| == |s| + 1
  {
    if s == [] || s[|s| - 1].line <= x.line then s + [x]
    else InsertByLine(s[..|s| - 1], x) + [s[|s| - 1]]
  }

  /** Inserting below a bound stays below it. */
  lemma {:induction false} InsertByLineBound(s: seq<RgLine>, x: RgLine, m: int)
    requires forall i :: 0 <= i < |s| ==> s[i].line <= m
    requires x.line <= m
    ensures forall i :: 0 <= i < |s| + 1 ==> InsertByLine(s, x)[i].line <= m
    decreases |s|
  {
    if s != [] && s[|s| - 1].line > x.line {
      InsertByLineBound(s[..|s| - 1], x, m);
    }
  }

  /** Inserting keeps every element and adds `x`. */
  lemma {:induction false} InsertByLineKeeps(s: seq<RgLine>, x: RgLine)
    ensures multiset(InsertByLine(s, x)) == multiset(s) + multiset{x}
    decreases |s|
  {
    if s != [] && s[|s| - 1].line > x.line {
      var init := s[..|s| - 1];
      assert s == init + [s[|s| - 1]];
      InsertByLineKeeps(init, x);
    }
  }

  /** Inserting into a sorted list keeps it sorted. */
  lemma {:induction false} InsertByLineSorted(s: seq<RgLine>, x: RgLine)
    requires SortedByLine(s)
    ensures SortedByLine(InsertByLine(s, x))
    decreases |s|
  {
    if s != [] && s[|s| - 1].line > x.line {
      var init := s[..|s| - 1];
      InsertByLineSorted(init, x);
      InsertByLineBound(init, x, s[|s| - 1].line);
    }
  }

  /** Inserting keeps every element, adds `x`, and keeps the order sorted. */
  lemma InsertByLineSorts(s: seq<RgLine>, x: RgLine)
    ensures multiset(InsertByLine(s, x)) == multiset(s) + multiset{x}
    ensures SortedByLine(s) ==> SortedByLine(InsertByLine(s, x))
  {
    InsertByLineKeeps(s, x);
    if SortedByLine(s) {
      InsertByLineSorted(s, x);
    }
  }

  /** `lines.sort(key=lambda x: x["line"])`: a stable sort by line number. */
  function SortByLine(xs: seq<RgLine>): (r: seq<RgLine>)
    ensures SortedByLine(r)
    ensures multiset(r) == multiset(xs)
  {
    if xs == [] then []
    else
      assert xs == xs[..|xs| - 1] + [xs[|xs| - 1]];
      InsertByLineSorts(SortByLine(xs[..|xs| - 1]), xs[|xs| - 1]);
      InsertByLine(SortByLine(xs[..|xs| - 1]), xs[|xs| - 1])
  }

  /** Sorting lines already in order leaves them as they are. */
  lemma {:induction false} SortByLineKeepsSorted(xs: seq<RgLine>)
    requires SortedByLine(xs)
    ensures SortByLine(xs) == xs
    decreases |xs|
  {
    if xs != [] {
      var init := xs[..|xs| - 1];
      assert SortedByLine(init);
      SortByLineKeepsSorted(init);
    }
  }

  // ------------------------------------------------------------------ passages

  /** A line joins the open passage when it is at most 20 lines after the passage's last line. */
  predicate Near(a: RgLine, b: RgLine)
  {
    b.line - a.line <= MergeGap
  }

  predicate IsNewline(c: char)
  {
    c == '\n'
  }

  /** The line numbers of the matching lines, in order. */
  function MatchLines(ls: seq<RgLine>): seq<int>
  {
    if ls == [] then []
    else MatchLines(ls[..|ls| - 1]) + if ls[|ls| - 1].isMatch then [ls[|ls| - 1].line] else []
  }

  /** Each line's text with leading and trailing newlines stripped. */
  function StrippedLines(ls: seq<RgLine>): (r: seq<string>)
    ensures |r| == |ls|
  {
    if ls == [] then []
    else StrippedLines(ls[..|ls| - 1]) + [StripBy(ls[|ls| - 1].content, IsNewline)]
  }

  /** `_format_passage`: the first match line (else the first line) and the joined texts. */
  function PassageSpec(path: Value, ls: seq<RgLine>): Hit
    requires |ls| > 0
  {
    var m := MatchLines(ls);
    Hit(path, if |m| > 0 then m[0] else ls[0].line, Join("\n", StrippedLines(ls)))
  }

  lemma {:induction false} MatchLinesNone(ls: seq<RgLine>)
    requires forall j :: 0 <= j < |ls| ==> !ls[j].isMatch
    ensures MatchLines(ls) == []
    decreases |ls|
  {
    if ls != [] {
      MatchLinesNone(ls[..|ls| - 1]);
    }
  }

  lemma {:induction false} MatchLinesFirst(ls: seq<RgLine>, k: nat)
    requires k < |ls| && ls[k].isMatch && forall j :: 0 <= j < k ==> !ls[j].isMatch
    ensures |MatchLines(ls)| > 0 && MatchLines(ls)[0] == ls[k].line
    decreases |ls|
  {
    var init := ls[..|ls| - 1];
    if k < |init| {
      MatchLinesFirst(init, k);
    } else {
      MatchLinesNone(init);
    }
  }

  /** The reported line is the first matching line's, or the first line's when none matched. */
  lemma ReportedLine(path: Value, ls: seq<RgLine>)
    requires |ls| > 0
    ensures (forall j :: 0 <= j < |ls| ==> !ls[j].isMatch) ==> PassageSpec(path, ls).line == ls[0].line
    ensures forall k :: 0 <= k < |ls| && ls[k].isMatch && (forall j :: 0 <= j < k ==> !ls[j].isMatch) ==>
      PassageSpec(path, ls).line == ls[k].line
  {
    if forall j :: 0 <= j < |ls| ==> !ls[j].isMatch {
      MatchLinesNone(ls);
    }
    forall k | 0 <= k < |ls| && ls[k].isMatch && (forall j :: 0 <= j < k ==> !ls[j].isMatch)
      ensures PassageSpec(path, ls).line == ls[k].line
    {
      MatchLinesFirst(ls, k);
    }
  }

  /** One more line extends the stripped texts by its text and the match lines by its number if it matched. */
  lemma PassageLinesStep(ls: seq<RgLine>, i: nat)
    requires i < |ls|
    ensures StrippedLines(ls[..i + 1]) == StrippedLines(ls[..i]) + [StripBy(ls[i].content, IsNewline)]
    ensures MatchLines(ls[..i + 1]) == MatchLines(ls[..i]) + if ls[i].isMatch then [ls[i].line] else []
  {
    assert ls[..i + 1][..i] == ls[..i];
  }

  /** `_format_passage`, line by line. */
  method FormatPassage(path: Value, ls: seq<RgLine>) returns (h: Hit)
    requires |ls| > 0
    ensures h == PassageSpec(path, ls)
  {
    var contentLines: seq<string> := [];
    var matchLines: seq<int> := [];
    for i := 0 to |ls|
      invariant contentLines == StrippedLines(ls[..i])
      invariant matchLines == MatchLines(ls[..i])
    {
      PassageLinesStep(ls, i);
      var text := StripBy(ls[i].content, IsNewline);
      if ls[i].isMatch {
        matchLines := matchLines + [ls[i].line];
      }
      contentLines := contentLines + [text];
    }
    assert ls[..|ls|] == ls;
    h := Hit(path, if |matchLines| > 0 then matchLines[0] else ls[0].line, Join("\n", contentLines));
  }

  /** The hits of a list of passages. */
  function Formats(path: Value, groups: seq<seq<RgLine>>): (r: seq<Hit>)
    requires forall g :: 0 <= g < |groups| ==> |groups[g]| > 0
    ensures |r| == |groups|
  {
    if groups == [] then []
    else Formats(path, groups[..|groups| - 1]) + [PassageSpec(path, groups[|groups| - 1])]
  }

  /** Every hit of a file's passages names that file. */
  lemma {:induction false} FormatsPath(path: Value, groups: seq<seq<RgLine>>)
    requires forall g :: 0 <= g < |groups| ==> |groups[g]| > 0
    ensures forall i :: 0 <= i < |groups| ==> Formats(path, groups)[i].filePath == path
    decreases |groups|
  {
    if groups != [] {
      FormatsPath(path, groups[..|groups| - 1]);
    }
  }

  /** The passages of one file's lines: maximal runs of lines at most 20 apart, each formatted. */
  function PassageHits(path: Value, ls: seq<RgLine>): seq<Hit>
  {
    Formats(path, Runs(ls, Near))
  }

  /** Where the merge loop stands after the passages `g` of the lines so far. */
  ghost predicate MergeLoop(g: seq<seq<RgLine>>, path: Value, hits: seq<Hit>, current: seq<RgLine>)
  {
    && (forall k :: 0 <= k < |g| ==> |g[k]| > 0)
    && |g| > 0 && current == g[|g| - 1] && hits == Formats(path, g[..|g| - 1])
  }

  lemma FormatsSnoc(path: Value, g: seq<seq<RgLine>>, x: seq<RgLine>)
    requires forall k :: 0 <= k < |g| ==> |g[k]| > 0
    requires |x| > 0
    ensures forall k :: 0 <= k < |g + [x]| ==> |(g + [x])[k]| > 0
    ensures Formats(path, g + [x]) == Formats(path, g) + [PassageSpec(path, x)]
  {
    assert (g + [x])[..|g|] == g;
  }

  /** One line of the merge: it extends the open passage, or closes it and opens its own. */
  method MergeStep(ghost g: seq<seq<RgLine>>, path: Value, l: RgLine, hits0: seq<Hit>, current0: seq<RgLine>)
      returns (hits: seq<Hit>, current: seq<RgLine>)
    requires MergeLoop(g, path, hits0, current0)
    ensures MergeLoop(RunsSnoc(g, l, Near), path, hits, current)
  {
    if Near(current0[|current0| - 1], l) {
      hits := hits0;
      current := current0 + [l];
      FormatsSnoc(path, g[..|g| - 1], current);
      assert (g[..|g| - 1] + [current])[..|g| - 1] == g[..|g| - 1];
    } else {
      var h := FormatPassage(path, current0);
      hits := hits0 + [h];
      current := [l];
      FormatsSnoc(path, g, current);
      assert (g + [current])[..|g|] == g;
    }
  }

  /** The merge loop of `_ripgrep_search` over one file's sorted lines. */
  method MergeLines(path: Value, ls: seq<RgLine>) returns (hits: seq<Hit>)
    ensures hits == PassageHits(path, ls)
  {
    hits := [];
    if |ls| == 0 {
      return;
    }
    var current := [ls[0]];
    RunsPrefixStep(ls, 0, Near);
    for i := 1 to |ls|
      invariant MergeLoop(Runs(ls[..i], Near), path, hits, current)
    {
      RunsPrefixStep(ls, i, Near);
      hits, current := MergeStep(Runs(ls[..i], Near), path, ls[i], hits, current);
    }
    assert ls[..|ls|] == ls;
    var h := FormatPassage(path, current);
    hits := hits + [h];
  }

  // ------------------------------------------------------------------ the ripgrep search

  /** Every output line of ripgrep, read. */
  function Events(loads: Loads, show: Value -> string, out: seq<string>): (evs: seq<Event>)
    ensures |evs| == |out|
    ensures forall i :: 0 <= i < |out| ==> evs[i] == Decode(loads, show, out[i])
  {
    seq(|out|, i requires 0 <= i < |out| => Decode(loads, show, out[i]))
  }

  /** Some output line makes the search raise. */
  predicate Raises(evs: seq<Event>)
  {
    exists i :: 0 <= i < |evs| && evs[i].Raise?
  }

  /** The passages of each file in turn, each file's lines sorted by line number first. */
  function HitsFor(order: seq<Value>, lines: map<Value, seq<RgLine>>): seq<Hit>
    requires forall k :: 0 <= k < |order| ==> order[k] in lines
  {
    if order == [] then []
    else
      var p := order[|order| - 1];
      HitsFor(order[..|order| - 1], lines) + PassageHits(p, SortByLine(lines[p]))
  }

  /** Every hit of one file's passages names that file. */
  lemma PassageHitsPath(path: Value, ls: seq<RgLine>)
    ensures forall i :: 0 <= i < |PassageHits(path, ls)| ==> PassageHits(path, ls)[i].filePath == path
  {
    FormatsPath(path, Runs(ls, Near));
  }

  /** Hits naming all but the last file, followed by hits naming the last, name files of `order`. */
  lemma AppendPaths(earlier: seq<Hit>, mine: seq<Hit>, order: seq<Value>)
    requires |order| > 0
    requires forall i :: 0 <= i < |earlier| ==> earlier[i].filePath in order[..|order| - 1]
    requires forall i :: 0 <= i < |mine| ==> mine[i].filePath == order[|order| - 1]
    ensures forall i :: 0 <= i < |earlier + mine| ==> (earlier + mine)[i].filePath in order
  {
    forall i | 0 <= i < |earlier + mine| ensures (earlier + mine)[i].filePath in order {
      if i < |earlier| {
        assert (earlier + mine)[i] == earlier[i];
        var k :| 0 <= k < |order| - 1 && order[..|order| - 1][k] == earlier[i].filePath;
        assert order[k] == earlier[i].filePath;
      } else {
        assert (earlier + mine)[i] == mine[i - |earlier|];
      }
    }
  }

  /** Every hit names one of the files it was built from. */
  lemma {:induction false} HitsForPaths(order: seq<Value>, lines: map<Value, seq<RgLine>>)
    requires forall k :: 0 <= k < |order| ==> order[k] in lines
    ensures forall i :: 0 <= i < |HitsFor(order, lines)| ==> HitsFor(order, lines)[i].filePath in order
    decreases |order|
  {
    if order != [] {
      var init := order[..|order| - 1];
      var p := order[|order| - 1];
      HitsForPaths(init, lines);
      PassageHitsPath(p, SortByLine(lines[p]));
      AppendPaths(HitsFor(init, lines), PassageHits(p, SortByLine(lines[p])), order);
    }
  }

  /**
   * `_ripgrep_search` on ripgrep's exit code and output lines: an exit code other than 0 or 1
   * raises, as does a line that cannot be read; otherwise the passages of every file.
   */
  function RipgrepSpec(code: int, out: seq<string>, loads: Loads, show: Value -> string): Result<seq<Hit>>
  {
    if code != 0 && code != 1 then Failure("Ripgrep error code " + IntToString(code))
    else
      var evs := Events(loads, show, out);
      if Raises(evs) then Failure(RipgrepUnreadable)
      else
        var c := CollectSpec(evs);
        Success(HitsFor(c.order, c.lines))
  }

  /** The decoding loop of `_ripgrep_search`: the lines per file, or None when a line raises. */
  method CollectEvents(out: seq<string>, loads: Loads, show: Value -> string) returns (r: Option<Collected>)
    ensures r.None? <==> Raises(Events(loads, show, out))
    ensures r.Some? ==> r.value == CollectSpec(Events(loads, show, out))
  {
    ghost var evs := Events(loads, show, out);
    var order: seq<Value> := [];
    var passages: map<Value, seq<RgLine>> := map[];
    for i := 0 to |out|
      invariant Collected(order, passages) == CollectSpec(evs[..i])
      invariant forall j :: 0 <= j < i ==> !evs[j].Raise?
    {
      var e := Decode(loads, show, out[i]);
      CollectStep(evs, i);
      if e.Raise? {
        return None;
      }
      if e.Record? {
        if e.path in passages {
          passages := passages[e.path := passages[e.path] + [e.rl]];
        } else {
          order := order + [e.path];
          passages := passages[e.path := [e.rl]];
        }
      }
    }
    assert evs[..|out|] == evs;
    return Some(Collected(order, passages));
  }

  lemma HitsForStep(order: seq<Value>, lines: map<Value, seq<RgLine>>, k: nat)
    requires forall j :: 0 <= j < |order| ==> order[j] in lines
    requires k < |order|
    ensures HitsFor(order[..k + 1], lines) ==
      HitsFor(order[..k], lines) + PassageHits(order[k], SortByLine(lines[order[k]]))
  {
    assert order[..k + 1][..k] == order[..k];
  }

  /** The merging loop of `_ripgrep_search`: each file's lines sorted, then merged into passages. */
  method MergeFiles(order: seq<Value>, passages: map<Value, seq<RgLine>>) returns (results: seq<Hit>)
    requires forall k :: 0 <= k < |order| ==> order[k] in passages
    ensures results == HitsFor(order, passages)
  {
    results := [];
    for k := 0 to |order|
      invariant results == HitsFor(order[..k], passages)
    {
      HitsForStep(order, passages, k);
      var lines := SortByLine(passages[order[k]]);
      var merged := MergeLines(order[k], lines);
      results := results + merged;
    }
    assert order[..|order|] == order;
  }

  /** `_ripgrep_search`: the exit code, then the decoding loop, then the merging loop. */
  method RipgrepSearch(code: int, out: seq<string>, loads: Loads, show: Value -> string)
      returns (r: Result<seq<Hit>>)
    ensures r == RipgrepSpec(code, out, loads, show)
  {
    if code != 0 && code != 1 {
      return Failure("Ripgrep error code " + IntToString(code));
    }
    var collected := CollectEvents(out, loads, show);
    if collected.None? {
      return Failure(RipgrepUnreadable);
    }
    var c := collected.value;
    assert forall k :: 0 <= k < |c.order| ==> c.order[k] in c.lines;
    var results := MergeFiles(c.order, c.lines);
    return Success(results);
  }

  /** Every ripgrep result names a file that some `match` or `context` line reported. */
  lemma RipgrepHitsAreReported(code: int, out: seq<string>, loads: Loads, show: Value -> string)
    requires RipgrepSpec(code, out, loads, show).Success?
    ensures forall i :: 0 <= i < |RipgrepSpec(code, out, loads, show).value| ==>
      RipgrepSpec(code, out, loads, show).value[i].filePath in RecordPaths(Events(loads, show, out))
  {
    var evs := Events(loads, show, out);
    CollectIsGrouping(evs);
    HitsForPaths(CollectSpec(evs).order, CollectSpec(evs).lines);
  }

  // ------------------------------------------------------------------ the fallback scan

  /**
   * A file the directory walk lists: its joined path, its name, and its lines as `readlines`
   * returns them, or None when opening or reading it raises.
   */
  datatype WalkedFile = WalkedFile(path: string, name: string, lines: Option<seq<string>>)

  /** The 1-based numbers of the lines the pattern finds a match in, in order. */
  function Matching(lines: seq<string>, search: string -> bool): (r: seq<int>)
    ensures forall k :: 0 <= k < |r| ==> 1 <= r[k] <= |lines| && search(lines[r[k] - 1])
    ensures forall k, j :: 0 <= k < j < |r| ==> r[k] < r[j]
  {
    if lines == [] then []
    else
      var init := lines[..|lines| - 1];
      var earlier := Matching(init, search);
      assert forall k :: 0 <= k < |earlier| ==> lines[earlier[k] - 1] == init[earlier[k] - 1];
      earlier + if search(lines[|lines| - 1]) then [|lines|] else []
  }

  /** No matching line is missed: a line is listed exactly when the pattern matches it. */
  lemma {:induction false} MatchingComplete(lines: seq<string>, search: string -> bool, i: nat)
    requires i < |lines|
    ensures i + 1 in Matching(lines, search) <==> search(lines[i])
    decreases |lines|
  {
    var init := lines[..|lines| - 1];
    if i < |init| {
      MatchingComplete(init, search, i);
      assert lines[i] == init[i];
    }
  }

  /** `max(1, m - 10)`: the first line of a match's window. */
  function WindowStart(m: int): int
  {
    if m - ContextLines < 1 then 1 else m - ContextLines
  }

  /** `min(n, m + 10)`: the last line of a match's window in a file of `n` lines. */
  function WindowEnd(m: int, n: int): int
  {
    if n < m + ContextLines then n else m + ContextLines
  }

  /** A passage of the fallback scan: its first and last line, and the matches it holds. */
  datatype Window = Window(start: int, end: int, matchLines: seq<int>)

  /**
   * The window loop: a match whose window starts at most 20 lines after the last passage's end
   * widens that passage to its own window's end; any other match opens a passage of its own.
   */
  function Windows(matches: seq<int>, n: int): (r: seq<Window>)
    ensures |r| <= |matches|
    ensures |matches| > 0 ==> |r| > 0
  {
    if matches == [] then []
    else
      var ps := Windows(matches[..|matches| - 1], n);
      var m := matches[|matches| - 1];
      if |ps| > 0 && WindowStart(m) - ps[|ps| - 1].end <= MergeGap then
        ps[|ps| - 1 := Window(ps[|ps| - 1].start, WindowEnd(m, n), ps[|ps| - 1].matchLines + [m])]
      else ps + [Window(WindowStart(m), WindowEnd(m, n), [m])]
  }

  /** The matches of the passages, read in order. */
  function AllMatchLines(ws: seq<Window>): seq<int>
  {
    if ws == [] then [] else AllMatchLines(ws[..|ws| - 1]) + ws[|ws| - 1].matchLines
  }

  /** Read in order, the passages hold every match exactly once. */
  lemma {:induction false} WindowsPartitionMatches(matches: seq<int>, n: int)
    ensures AllMatchLines(Windows(matches, n)) == matches
    decreases |matches|
  {
    if matches != [] {
      var init := matches[..|matches| - 1];
      var m := matches[|matches| - 1];
      var ps := Windows(init, n);
      WindowsPartitionMatches(init, n);
      if |ps| > 0 && WindowStart(m) - ps[|ps| - 1].end <= MergeGap {
        var last := ps[|ps| - 1];
        var q := ps[|ps| - 1 := Window(last.start, WindowEnd(m, n), last.matchLines + [m])];
        assert q[..|q| - 1] == ps[..|ps| - 1];
        assert ps[..|ps| - 1] + [last] == ps;
        assert AllMatchLines(ps) == AllMatchLines(ps[..|ps| - 1]) + last.matchLines;
      } else {
        assert (ps + [Window(WindowStart(m), WindowEnd(m, n), [m])])[..|ps|] == ps;
      }
    }
  }

  /** A passage spans the windows of its first and last match and holds its matches in order. */
  predicate Spans(w: Window, n: int)
  {
    && |w.matchLines| > 0
    && w.start == WindowStart(w.matchLines[0])
    && w.end == WindowEnd(w.matchLines[|w.matchLines| - 1], n)
    && Ascending(w.matchLines)
  }

  /** Passage `k` starts more than 20 lines after passage `k - 1` ends. */
  predicate Apart(ws: seq<Window>, k: int)
    requires 0 < k < |ws|
  {
    ws[k].start - ws[k - 1].end > MergeGap
  }

  predicate Ascending(xs: seq<int>)
  {
    forall i, j :: 0 <= i < j < |xs| ==> xs[i] < xs[j]
  }

  /** A passage that spans its matches' windows, all of them between `lo` and `hi`. */
  predicate SpansBetween(w: Window, n: int, lo: int, hi: int)
  {
    Spans(w, n) && lo <= w.matchLines[0] && w.matchLines[|w.matchLines| - 1] <= hi
  }

  /** The passage the window loop widens with match `m`. */
  lemma Widen(w: Window, n: int, lo: int, hi: int, m: int)
    requires SpansBetween(w, n, lo, hi) && hi < m
    ensures SpansBetween(Window(w.start, WindowEnd(m, n), w.matchLines + [m]), n, lo, m)
  {
    assert (w.matchLines + [m])[0] == w.matchLines[0];
  }

  /**
   * For ascending matches, every passage spans its first and last match's windows, and its
   * matches lie between the first and the last match.
   */
  lemma {:induction false} WindowsSpan(matches: seq<int>, n: int)
    requires Ascending(matches)
    ensures forall k :: 0 <= k < |Windows(matches, n)| ==>
      SpansBetween(Windows(matches, n)[k], n, matches[0], matches[|matches| - 1])
    decreases |matches|
  {
    if matches != [] {
      var init := matches[..|matches| - 1];
      var m := matches[|matches| - 1];
      var ps := Windows(init, n);
      var r := Windows(matches, n);
      WindowsSpan(init, n);
      if |ps| > 0 && WindowStart(m) - ps[|ps| - 1].end <= MergeGap {
        assert init[0] == matches[0] && init[|init| - 1] < m;
        Widen(ps[|ps| - 1], n, init[0], init[|init| - 1], m);
        forall k | 0 <= k < |r| ensures SpansBetween(r[k], n, matches[0], m) {
          if k < |ps| - 1 {
            assert r[k] == ps[k] && SpansBetween(ps[k], n, init[0], init[|init| - 1]);
          }
        }
      } else {
        forall k | 0 <= k < |r| ensures SpansBetween(r[k], n, matches[0], m) {
          if k < |ps| {
            assert init[0] == matches[0] && init[|init| - 1] < m;
            assert r[k] == ps[k] && SpansBetween(ps[k], n, init[0], init[|init| - 1]);
          }
        }
      }
    }
  }

  /** Passages that were kept apart are more than 20 lines apart. */
  lemma {:induction false} WindowsApart(matches: seq<int>, n: int)
    ensures forall k :: 0 < k < |Windows(matches, n)| ==> Apart(Windows(matches, n), k)
    decreases |matches|
  {
    if matches != [] {
      var init := matches[..|matches| - 1];
      var ps := Windows(init, n);
      WindowsApart(init, n);
      var r := Windows(matches, n);
      forall k | 0 < k < |r| ensures Apart(r, k) {
        if k < |ps| { assert Apart(ps, k); }
      }
    }
  }

  /** A passage inside a file of `n` lines that holds its first match. */
  predicate InFile(w: Window, n: int)
  {
    1 <= w.start <= w.end <= n && |w.matchLines| > 0
  }

  /** Each passage of a file's matches lies inside the file and around the matches it holds. */
  lemma WindowsWithinFile(lines: seq<string>, search: string -> bool)
    ensures forall k :: 0 <= k < |Windows(Matching(lines, search), |lines|)| ==>
      var w := Windows(Matching(lines, search), |lines|)[k];
      InFile(w, |lines|) && forall j :: 0 <= j < |w.matchLines| ==> w.start <= w.matchLines[j] <= w.end
  {
    var ms := Matching(lines, search);
    var n := |lines|;
    WindowsSpan(ms, n);
    var ws := Windows(ms, n);
    forall k | 0 <= k < |ws|
      ensures InFile(ws[k], n)
      ensures forall j :: 0 <= j < |ws[k].matchLines| ==> ws[k].start <= ws[k].matchLines[j] <= ws[k].end
    {
      var w := ws[k];
      assert SpansBetween(w, n, ms[0], ms[|ms| - 1]);
      assert 1 <= ms[0] && ms[|ms| - 1] <= n;
      forall j | 0 <= j < |w.matchLines| ensures w.start <= w.matchLines[j] <= w.end {
        assert w.matchLines[0] <= w.matchLines[j] <= w.matchLines[|w.matchLines| - 1];
      }
    }
  }

  /** A passage's hit: its first match, and its lines concatenated with surrounding newlines stripped. */
  function WindowHit(path: string, lines: seq<string>, w: Window): Hit
    requires InFile(w, |lines|)
  {
    Hit(Str(path), w.matchLines[0], StripBy(Join("", lines[w.start - 1..w.end]), IsNewline))
  }

  function WindowHits(path: string, lines: seq<string>, ws: seq<Window>): (r: seq<Hit>)
    requires forall k :: 0 <= k < |ws| ==> InFile(ws[k], |lines|)
    ensures |r| == |ws|
  {
    if ws == [] then []
    else WindowHits(path, lines, ws[..|ws| - 1]) + [WindowHit(path, lines, ws[|ws| - 1])]
  }

  /** Every hit of a file's passages names that file. */
  lemma {:induction false} WindowHitsPath(path: string, lines: seq<string>, ws: seq<Window>)
    requires forall k :: 0 <= k < |ws| ==> InFile(ws[k], |lines|)
    ensures forall i :: 0 <= i < |ws| ==> WindowHits(path, lines, ws)[i].filePath == Str(path)
    decreases |ws|
  {
    if ws != [] {
      WindowHitsPath(path, lines, ws[..|ws| - 1]);
    }
  }

  /** The hits of one readable Markdown file: one per passage, reported at its first match. */
  function FileHits(path: string, lines: seq<string>, search: string -> bool): (r: seq<Hit>)
    ensures forall i :: 0 <= i < |r| ==> r[i].filePath == Str(path)
  {
    WindowsWithinFile(lines, search);
    WindowHitsPath(path, lines, Windows(Matching(lines, search), |lines|));
    WindowHits(path, lines, Windows(Matching(lines, search), |lines|))
  }

  /** What one walked file contributes: nothing unless it is a Markdown file that could be read. */
  function FileResult(search: string -> bool, f: WalkedFile): seq<Hit>
  {
    if IsMarkdown(f.name) && f.lines.Some? then FileHits(f.path, f.lines.value, search) else []
  }

  function ScanSpec(search: string -> bool, files: seq<WalkedFile>): seq<Hit>
  {
    if files == [] then []
    else ScanSpec(search, files[..|files| - 1]) + FileResult(search, files[|files| - 1])
  }

  /**
   * `_python_search`: `search` is the compiled case-insensitive pattern's `search`, or None
   * when compiling raises; `files` are the files of the walk in order.
   */
  function PythonSpec(search: Option<string -> bool>, files: seq<WalkedFile>): seq<Hit>
  {
    if search.None? then [] else ScanSpec(search.value, files)
  }

  /** The paths of the walked Markdown files that could be read. */
  ghost function MarkdownPaths(files: seq<WalkedFile>): set<Value>
  {
    set f | f in files && IsMarkdown(f.name) && f.lines.Some? :: Str(f.path)
  }

  /** Every hit of the fallback scan comes from a readable Markdown file of the walk. */
  lemma {:induction false} ScanHitsAreMarkdown(search: string -> bool, files: seq<WalkedFile>)
    ensures forall i :: 0 <= i < |ScanSpec(search, files)| ==> ScanSpec(search, files)[i].filePath in MarkdownPaths(files)
    decreases |files|
  {
    if files != [] {
      var init := files[..|files| - 1];
      var f := files[|files| - 1];
      ScanHitsAreMarkdown(search, init);
      var earlier := ScanSpec(search, init);
      var mine := FileResult(search, f);
      assert MarkdownPaths(init) <= MarkdownPaths(files) by {
        forall g | g in init ensures g in files { }
      }
      forall i | 0 <= i < |mine| ensures mine[i].filePath in MarkdownPaths(files) {
        assert f in files;
      }
    }
  }

  /** The matching loop of `_python_search`. */
  method MatchLinesOf(lines: seq<string>, search: string -> bool) returns (matches: seq<int>)
    ensures matches == Matching(lines, search)
  {
    matches := [];
    for i := 0 to |lines|
      invariant matches == Matching(lines[..i], search)
    {
      assert lines[..i + 1][..i] == lines[..i];
      if search(lines[i]) {
        matches := matches + [i + 1];
      }
    }
    assert lines[..|lines|] == lines;
  }

  /** The window loop of `_python_search`. */
  method BuildWindows(matches: seq<int>, n: int) returns (ps: seq<Window>)
    ensures ps == Windows(matches, n)
  {
    ps := [];
    for i := 0 to |matches|
      invariant ps == Windows(matches[..i], n)
    {
      assert matches[..i + 1][..i] == matches[..i];
      var m := matches[i];
      var start := WindowStart(m);
      var end := WindowEnd(m, n);
      if |ps| > 0 && start - ps[|ps| - 1].end <= MergeGap {
        var last := ps[|ps| - 1];
        ps := ps[|ps| - 1 := Window(last.start, end, last.matchLines + [m])];
      } else {
        ps := ps + [Window(start, end, [m])];
      }
    }
    assert matches[..|matches|] == matches;
  }

  /** The hit loop of `_python_search`: one hit per passage, at its first match. */
  method HitsOfWindows(path: string, lines: seq<string>, ps: seq<Window>) returns (hits: seq<Hit>)
    requires forall k :: 0 <= k < |ps| ==> InFile(ps[k], |lines|)
    ensures hits == WindowHits(path, lines, ps)
  {
    hits := [];
    for k := 0 to |ps|
      invariant hits == WindowHits(path, lines, ps[..k])
    {
      assert ps[..k + 1][..k] == ps[..k];
      hits := hits + [WindowHit(path, lines, ps[k])];
    }
    assert ps[..|ps|] == ps;
  }

  /** One readable Markdown file of `_python_search`: matches, passages, then one hit per passage. */
  method FileSearch(path: string, lines: seq<string>, search: string -> bool) returns (hits: seq<Hit>)
    ensures hits == FileHits(path, lines, search)
  {
    var matches := MatchLinesOf(lines, search);
    var ps := BuildWindows(matches, |lines|);
    WindowsWithinFile(lines, search);
    hits := HitsOfWindows(path, lines, ps);
  }

  /** `_python_search` over the walked files. */
  method PythonSearch(search: Option<string -> bool>, files: seq<WalkedFile>) returns (results: seq<Hit>)
    ensures results == PythonSpec(search, files)
  {
    results := [];
    if search.None? {
      return;
    }
    for i := 0 to |files|
      invariant results == ScanSpec(search.value, files[..i])
    {
      assert files[..i + 1][..i] == files[..i];
      var f := files[i];
      if IsMarkdown(f.name) && f.lines.Some? {
        var hits := FileSearch(f.path, f.lines.value, search.value);
        results := results + hits;
      }
    }
    assert files[..|files|] == files;
  }

  // ------------------------------------------------------------------ the tool

  /**
   * `GrepTool.search`: with ripgrep installed, its result unless it raises; the fallback scan
   * when it raises or is not installed.
   */
  method Search(rgFound: bool, code: int, out: seq<string>, loads: Loads, show: Value -> string,
                search: Option<string -> bool>, files: seq<WalkedFile>) returns (r: seq<Hit>)
    ensures rgFound && RipgrepSpec(code, out, loads, show).Success? ==> r == RipgrepSpec(code, out, loads, show).value
    ensures !(rgFound && RipgrepSpec(code, out, loads, show).Success?) ==> r == PythonSpec(search, files)
  {
    if rgFound {
      var rg := RipgrepSearch(code, out, loads, show);
      if rg.Success? {
        return rg.value;
      }
    }
    r := PythonSearch(search, files);
  }
}
