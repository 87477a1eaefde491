/**
 * Markdown-aware chunking: a document is cut at level 1-3 `#` headings as the regular
 * expression `^(#{1,3})\s+` reads them, and a section longer than the limit is packed into
 * overlapping runs of paragraphs. Every final chunk carries the caller's metadata, its
 * section title, its position and the total count.
 */
module Chunking {
  import opened Wrappers
  import opened Json
  import opened Text
  import opened Collections

  const Introduction: string := "Introduction"
  const DefaultMaxChars: int := 800
  const DefaultOverlapChars: int := 200
  const ParagraphBreak: string := "\n\n"

  /** A chunk of text and its metadata. */
  datatype Chunk = Chunk(text: string, metadata: map<string, Value>)

  // ------------------------------------------------------------------ headings

  predicate IsHash(c: char)
  {
    c == '#'
  }

  /** The number of `#` a line starts with. */
  function HashRun(line: string): (n: nat)
    ensures n <= |line|
  {
    Span(line, 0, IsHash)
  }

  /** `^(#{1,3})\s+(.*)` matches: one to three `#`, then whitespace. */
  predicate IsHeader(line: string)
  {
    var h := HashRun(line);
    1 <= h <= 3 && h < |line| && IsSpace(line[h])
  }

  /** The heading text: what follows the `#` run, stripped. */
  function HeaderTitle(line: string): (r: string)
    requires IsHeader(line)
    ensures r == [] || (!IsSpace(r[0]) && !IsSpace(r[|r| - 1]))
  {
    Strip(line[HashRun(line)..])
  }

  /** Two neighbouring lines belong to one section unless the second is a heading. */
  predicate SameSection(a: string, b: string)
  {
    !IsHeader(b)
  }

  /** The lines of the text cut into sections: a new section at every heading. */
  function Sections(text: string): (groups: seq<seq<string>>)
    ensures IsRunSplit(Split(text, "\n"), groups, SameSection)
  {
    Runs(Split(text, "\n"), SameSection)
  }

  /** The title of a section: its heading's text, or "Introduction" for text before any heading. */
  function TitleOf(g: seq<string>): string
    requires |g| > 0
  {
    if IsHeader(g[0]) then HeaderTitle(g[0]) else Introduction
  }

  function TitleMeta(title: string): (m: map<string, Value>)
    ensures m.Keys == {"section_title"} && m["section_title"] == Str(title)
  {
    map["section_title" := Str(title)]
  }

  /** A section chunk: text without surrounding whitespace, tagged with its section title only. */
  predicate TitledChunk(c: Chunk)
  {
    && c.text != "" && !IsSpace(c.text[0]) && !IsSpace(c.text[|c.text| - 1])
    && c.metadata.Keys == {"section_title"}
  }

  /** The chunk a section gives: its lines joined and stripped, unless nothing is left. */
  function SectionChunk(g: seq<string>): (r: Option<Chunk>)
    requires |g| > 0
    ensures r.Some? <==> Strip(Join("\n", g)) != ""
    ensures r.Some? ==> r.value.text == Strip(Join("\n", g)) && r.value.metadata == TitleMeta(TitleOf(g))
    ensures r.Some? ==> TitledChunk(r.value)
  {
    var joined := Strip(Join("\n", g));
    if joined == "" then None else Some(Chunk(joined, TitleMeta(TitleOf(g))))
  }

  /** The chunks of the sections, in order, skipping sections that are only whitespace. */
  function SectionChunks(groups: seq<seq<string>>): (r: seq<Chunk>)
    requires forall g :: 0 <= g < |groups| ==> |groups[g]| > 0
    ensures |r| <= |groups|
    ensures forall k :: 0 <= k < |r| ==> TitledChunk(r[k])
  {
    if groups == [] then []
    else
      var c := SectionChunk(groups[|groups| - 1]);
      SectionChunks(groups[..|groups| - 1]) + if c.Some? then [c.value] else []
  }

  /** `split_by_markdown_headers`. */
  function HeaderChunks(text: string): seq<Chunk>
  {
    SectionChunks(Sections(text))
  }

  lemma {:induction false} JoinStartsWithFirst(sep: string, parts: seq<string>)
    requires |parts| > 0
    ensures StartsWith(Join(sep, parts), parts[0])
  {
  }

  /** The chunk of a section that starts at a heading starts with that heading's `#`. */
  lemma HeadingLeads(g: seq<string>)
    requires |g| > 0 && IsHeader(g[0]) && SectionChunk(g).Some?
    ensures SectionChunk(g).value.text[0] == '#'
  {
    JoinStartsWithFirst("\n", g);
    var s := Join("\n", g);
    assert s[0] == g[0][0] == '#';
    assert !IsSpace(s[0]);
    assert LStripBy(s, IsSpace) == s;
    RStripByIsPrefix(s, IsSpace);
  }

  /**
   * The sections are the document's lines in order; every section but the first starts at a
   * heading, and no heading sits inside a section.
   */
  lemma SectionsStartAtHeadings(text: string)
    ensures Flatten(Sections(text)) == Split(text, "\n")
    ensures forall g :: 0 < g < |Sections(text)| ==> IsHeader(Sections(text)[g][0])
    ensures forall g, i :: 0 <= g < |Sections(text)| && 0 < i < |Sections(text)[g]| ==> !IsHeader(Sections(text)[g][i])
  {
    var groups := Sections(text);
    forall g | 0 < g < |groups| ensures IsHeader(groups[g][0]) {
      assert !SameSection(groups[g - 1][|groups[g - 1]| - 1], groups[g][0]);
    }
    forall g, i | 0 <= g < |groups| && 0 < i < |groups[g]| ensures !IsHeader(groups[g][i]) {
      assert SameSection(groups[g][i - 1], groups[g][i]);
    }
  }

  /** Lines with no heading after the first form a single section. */
  lemma OneSection(lines: seq<string>)
    requires |lines| > 0
    requires forall k :: 0 < k < |lines| ==> !IsHeader(lines[k])
    ensures Runs(lines, SameSection) == [lines]
  {
    forall i | 0 < i < |lines| ensures SameSection(lines[i - 1], lines[i]) {
      assert !IsHeader(lines[i]);
    }
    SingleRun(lines, SameSection);
  }

  /** Lines without a heading give one "Introduction" chunk, unless they are all blank. */
  lemma NoHeadingLines(lines: seq<string>)
    requires |lines| > 0
    requires forall k :: 0 <= k < |lines| ==> !IsHeader(lines[k])
    ensures SectionChunks(Runs(lines, SameSection)) ==
      if Strip(Join("\n", lines)) == "" then [] else [Chunk(Strip(Join("\n", lines)), TitleMeta(Introduction))]
  {
    OneSection(lines);
    assert [lines][..0] == [];
    assert TitleOf(lines) == Introduction;
  }

  /** A document without headings is one "Introduction" chunk holding the stripped text, if any. */
  lemma NoHeadingsOneChunk(text: string)
    requires forall k :: 0 <= k < |Split(text, "\n")| ==> !IsHeader(Split(text, "\n")[k])
    ensures Strip(text) == "" ==> HeaderChunks(text) == []
    ensures Strip(text) != "" ==> HeaderChunks(text) == [Chunk(Strip(text), TitleMeta(Introduction))]
  {
    NoHeadingLines(Split(text, "\n"));
  }

  lemma RunsStep(lines: seq<string>, i: nat)
    requires i < |lines|
    ensures Runs(lines[..i + 1], SameSection) == RunsSnoc(Runs(lines[..i], SameSection), lines[i], SameSection)
  {
    assert lines[..i + 1][..i] == lines[..i];
  }

  /**
   * Where the heading loop stands after the sections `g` of the lines read so far: the open
   * section is the last one, its title is current, and the earlier ones are already chunks.
   */
  ghost predicate HeaderLoop(g: seq<seq<string>>, chunks: seq<Chunk>, title: string, current: seq<string>)
  {
    && (forall k :: 0 <= k < |g| ==> |g[k]| > 0)
    && (|g| == 0 ==> current == [] && chunks == [] && title == Introduction)
    && (|g| > 0 ==> current == g[|g| - 1] && title == TitleOf(current) && chunks == SectionChunks(g[..|g| - 1]))
  }

  /** Closing the open section: its chunk, if it is not blank, joins the others. */
  method FlushSection(ghost g: seq<seq<string>>, chunks0: seq<Chunk>, title: string, current: seq<string>)
      returns (chunks: seq<Chunk>)
    requires HeaderLoop(g, chunks0, title, current)
    ensures chunks == SectionChunks(g)
  {
    chunks := chunks0;
    if current != [] {
      var joined := Strip(Join("\n", current));
      if joined != "" {
        chunks := chunks + [Chunk(joined, TitleMeta(title))];
      }
    }
  }

  /** One line of `split_by_markdown_headers`: a heading closes the open section and opens its own. */
  method AddLine(ghost g: seq<seq<string>>, line: string, chunks0: seq<Chunk>, title0: string, current0: seq<string>)
      returns (chunks: seq<Chunk>, title: string, current: seq<string>)
    requires HeaderLoop(g, chunks0, title0, current0)
    ensures HeaderLoop(RunsSnoc(g, line, SameSection), chunks, title, current)
  {
    if IsHeader(line) {
      chunks := FlushSection(g, chunks0, title0, current0);
      title := HeaderTitle(line);
      current := [line];
      assert RunsSnoc(g, line, SameSection) == g + [[line]];
      assert (g + [[line]])[..|g|] == g;
    } else {
      chunks := chunks0;
      title := title0;
      current := current0 + [line];
      if |g| > 0 {
        var n := |g| - 1;
        assert RunsSnoc(g, line, SameSection) == g[..n] + [g[n] + [line]];
        assert (g[..n] + [g[n] + [line]])[..n] == g[..n];
        assert (g[n] + [line])[0] == g[n][0];
      } else {
        assert RunsSnoc(g, line, SameSection) == [[line]];
      }
    }
  }

  /** `split_by_markdown_headers`, line by line. */
  method SplitByMarkdownHeaders(text: string) returns (chunks: seq<Chunk>)
    ensures chunks == HeaderChunks(text)
  {
    var lines := Split(text, "\n");
    var currentTitle, currentText;
    chunks, currentTitle, currentText := ReadLines(lines);
    chunks := FlushSection(Runs(lines, SameSection), chunks, currentTitle, currentText);
  }

  /** The line loop of `split_by_markdown_headers`, before the last section is closed. */
  method ReadLines(lines: seq<string>) returns (chunks: seq<Chunk>, currentTitle: string, currentText: seq<string>)
    ensures HeaderLoop(Runs(lines, SameSection), chunks, currentTitle, currentText)
  {
    chunks := [];
    currentTitle := Introduction;
    currentText := [];
    for i := 0 to |lines|
      invariant HeaderLoop(Runs(lines[..i], SameSection), chunks, currentTitle, currentText)
    {
      RunsStep(lines, i);
      chunks, currentTitle, currentText := AddLine(Runs(lines[..i], SameSection), lines[i], chunks, currentTitle, currentText);
    }
    assert lines[..|lines|] == lines;
  }

  // ------------------------------------------------------------------ paragraph packing

  /** The stripped paragraphs that are not blank, in order. */
  function NonBlank(paras: seq<string>): (r: seq<string>)
    ensures forall k :: 0 <= k < |r| ==> r[k] != ""
  {
    if paras == [] then []
    else
      var p := Strip(paras[|paras| - 1]);
      NonBlank(paras[..|paras| - 1]) + if p == "" then [] else [p]
  }

  /**
   * How many trailing paragraphs the overlap loop takes: walking back from the last, a
   * paragraph is taken while the characters taken so far (`used`, each paragraph counted with
   * a two-character separator) plus its own length stay within the budget.
   */
  function Taken(cur: seq<string>, budget: int, used: int): (t: nat)
    ensures t <= |cur|
  {
    if cur == [] then 0
    else
      var p := cur[|cur| - 1];
      if used + |p| <= budget then 1 + Taken(cur[..|cur| - 1], budget, used + |p| + 2) else 0
  }

  /** The overlap carried into the next chunk: the taken paragraphs, or the last one if none fit. */
  function OverlapCount(cur: seq<string>, budget: int): (k: nat)
    requires |cur| > 0
    ensures 1 <= k <= |cur|
  {
    var t := Taken(cur, budget, 0);
    if t == 0 then 1 else t
  }

  /** The last `t` paragraphs, joined with separators, fit in `budget` after `used` characters. */
  predicate Fits(cur: seq<string>, t: nat, budget: int, used: int)
    requires 1 <= t <= |cur|
  {
    used + SumLen(cur[|cur| - t..]) + 2 * (t - 1) <= budget
  }

  /** The last `t` paragraphs weigh the last `t - 1` of the others plus the last one. */
  lemma TailSum(cur: seq<string>, t: nat)
    requires 1 <= t <= |cur|
    ensures SumLen(cur[|cur| - t..]) == SumLen(cur[..|cur| - 1][|cur| - t..]) + |cur[|cur| - 1]|
  {
    assert cur[|cur| - t..][..t - 1] == cur[..|cur| - 1][|cur| - t..];
  }

  /** The overlap is the longest run of trailing paragraphs that fits the budget. */
  lemma {:induction false} TakenIsLongestFit(cur: seq<string>, budget: int, used: int)
    ensures var t := Taken(cur, budget, used);
      && (t >= 1 ==> Fits(cur, t, budget, used))
      && (t < |cur| ==> !Fits(cur, t + 1, budget, used))
    decreases |cur|
  {
    if cur != [] {
      var n := |cur| - 1;
      var p := cur[n];
      var init := cur[..n];
      var t := Taken(cur, budget, used);
      if used + |p| <= budget {
        TakenIsLongestFit(init, budget, used + |p| + 2);
        TailSum(cur, t);
        if t < |cur| {
          TailSum(cur, t + 1);
        }
      } else {
        TailSum(cur, 1);
      }
    }
  }

  /** The reverse loop of `split_by_paragraphs` that collects the overlap. */
  method Overlap(current: seq<string>, budget: int) returns (paras: seq<string>)
    requires |current| > 0
    ensures paras == current[|current| - OverlapCount(current, budget)..]
  {
    var used := 0;
    paras := [];
    var k := |current|;
    assert current[..k] == current;
    while k > 0
      invariant 0 <= k <= |current|
      invariant paras == current[k..]
      invariant Taken(current, budget, 0) == (|current| - k) + Taken(current[..k], budget, used)
    {
      var p := current[k - 1];
      if used + |p| <= budget {
        assert current[..k][..k - 1] == current[..k - 1];
        paras := [p] + paras;
        used := used + |p| + 2;
        k := k - 1;
      } else {
        break;
      }
    }
    assert Taken(current, budget, 0) == |current| - k;
    if paras == [] {
      paras := [current[|current| - 1]];
    }
  }

  /**
   * The packing state after some paragraphs: the index ranges of the chunks already closed,
   * where the open chunk starts, and the running length the loop keeps.
   */
  datatype Packing = Packing(closed: seq<(nat, nat)>, start: nat, length: int)

  /** Range `k` follows range `k - 1`: it starts inside it and ends after it. */
  predicate FollowsPrevious(ranges: seq<(nat, nat)>, k: nat)
    requires 0 < k < |ranges|
  {
    ranges[k].0 < ranges[k - 1].1 < ranges[k].1
  }

  /** Ranges over `n` paragraphs that start at 0, are not empty, and each follow the previous. */
  ghost predicate Chained(ranges: seq<(nat, nat)>, n: nat)
  {
    && (|ranges| > 0 ==> ranges[0].0 == 0)
    && (forall k :: 0 <= k < |ranges| ==> ranges[k].0 < ranges[k].1 <= n)
    && (forall k: nat :: 0 < k < |ranges| ==> FollowsPrevious(ranges, k))
  }

  /** A range added after chained ranges, starting inside the last and reaching past it, keeps them chained. */
  lemma ChainedSnoc(ranges: seq<(nat, nat)>, r: (nat, nat), n: nat, m: nat)
    requires Chained(ranges, n) && n <= m && r.0 < r.1 <= m
    requires |ranges| == 0 ==> r.0 == 0
    requires |ranges| > 0 ==> r.0 < ranges[|ranges| - 1].1 < r.1
    ensures Chained(ranges + [r], m)
  {
    var rs := ranges + [r];
    forall k: nat | 0 < k < |rs| ensures FollowsPrevious(rs, k) {
      if k < |ranges| {
        assert FollowsPrevious(ranges, k);
      }
    }
  }

  lemma ChainedWiden(ranges: seq<(nat, nat)>, n: nat, m: nat)
    requires Chained(ranges, n) && n <= m
    ensures Chained(ranges, m)
  {
  }

  /**
   * What the packing state over `n` paragraphs always satisfies: the closed ranges are chained,
   * and the open chunk starts inside the last closed one (or at 0) and before `n`.
   */
  ghost predicate PackInv(st: Packing, n: nat)
  {
    && st.start <= n && (n > 0 ==> st.start < n)
    && Chained(st.closed, n)
    && (|st.closed| == 0 ==> st.start == 0)
    && (|st.closed| > 0 ==> st.start < st.closed[|st.closed| - 1].1 < n)
  }

  /**
   * One paragraph of the packing loop: when it would overflow a nonempty open chunk, that chunk
   * is closed and the next one starts with the overlap; otherwise the paragraph joins it.
   */
  function PackNext(st: Packing, prev: seq<string>, para: string, maxChars: int, budget: int): (r: Packing)
    requires PackInv(st, |prev|)
    ensures PackInv(r, |prev| + 1)
  {
    var e := |prev|;
    if st.length + |para| > maxChars && st.start < e then
      var s := e - OverlapCount(prev[st.start..], budget);
      ChainedSnoc(st.closed, (st.start, e), e, e + 1);
      Packing(st.closed + [(st.start, e)], s, SumLen(prev[s..] + [para]) + (e - s) * 2)
    else
      ChainedWiden(st.closed, e, e + 1);
      Packing(st.closed, st.start, st.length + |para| + 2)
  }

  /** The packing loop over the non-blank paragraphs `ps`. */
  function Pack(ps: seq<string>, maxChars: int, budget: int): (st: Packing)
    ensures PackInv(st, |ps|)
    decreases |ps|
  {
    if ps == [] then Packing([], 0, 0)
    else
      var e := |ps| - 1;
      PackNext(Pack(ps[..e], maxChars, budget), ps[..e], ps[e], maxChars, budget)
  }

  /** The ranges of every chunk: the closed ones, then the open one if it holds a paragraph. */
  function Ranges(ps: seq<string>, maxChars: int, budget: int): (r: seq<(nat, nat)>)
    ensures Chained(r, |ps|)
    ensures |r| > 0 <==> |ps| > 0
    ensures |r| > 0 ==> r[|r| - 1].1 == |ps|
  {
    var st := Pack(ps, maxChars, budget);
    if st.start < |ps| then
      ChainedSnoc(st.closed, (st.start, |ps|), |ps|, |ps|);
      st.closed + [(st.start, |ps|)]
    else st.closed
  }

  /** The chunk texts of a list of ranges. */
  function Texts(ps: seq<string>, ranges: seq<(nat, nat)>): (r: seq<string>)
    requires forall k :: 0 <= k < |ranges| ==> ranges[k].0 <= ranges[k].1 <= |ps|
    ensures |r| == |ranges|
  {
    seq(|ranges|, k requires 0 <= k < |ranges| => Join(ParagraphBreak, ps[ranges[k].0..ranges[k].1]))
  }

  /** The paragraphs `split_by_paragraphs` works on. */
  function Paragraphs(text: string): seq<string>
  {
    NonBlank(Split(text, ParagraphBreak))
  }

  /** `split_by_paragraphs` with explicit limits. */
  function ParagraphChunks(text: string, maxChars: int, budget: int): seq<string>
  {
    var ps := Paragraphs(text);
    Texts(ps, Ranges(ps, maxChars, budget))
  }

  /**
   * Every non-blank paragraph lands in some chunk: the chunks are runs of consecutive
   * paragraphs, the first starts at the first paragraph, the last ends at the last one, and
   * each starts inside the previous one (the overlap) and reaches past it.
   */
  lemma {:induction false} EveryParagraphPlaced(ranges: seq<(nat, nat)>, n: nat, j: nat)
    requires Chained(ranges, n) && |ranges| > 0 && j < ranges[|ranges| - 1].1
    ensures exists k :: 0 <= k < |ranges| && ranges[k].0 <= j < ranges[k].1
    decreases |ranges|
  {
    var m := |ranges| - 1;
    if j < ranges[m].0 {
      assert m > 0 && FollowsPrevious(ranges, m);
      var init := ranges[..m];
      assert Chained(init, n) by {
        forall k: nat | 0 < k < |init| ensures FollowsPrevious(init, k) {
          assert FollowsPrevious(ranges, k);
        }
      }
      EveryParagraphPlaced(init, n, j);
      var k :| 0 <= k < |init| && init[k].0 <= j < init[k].1;
      assert ranges[k] == init[k];
    }
  }

  /** `split_by_paragraphs` places every paragraph, and never emits an empty chunk. */
  lemma ParagraphChunksCover(text: string, maxChars: int, budget: int, j: nat)
    requires j < |Paragraphs(text)|
    ensures var r := Ranges(Paragraphs(text), maxChars, budget);
      exists k :: 0 <= k < |r| && r[k].0 <= j < r[k].1
  {
    var ps := Paragraphs(text);
    EveryParagraphPlaced(Ranges(ps, maxChars, budget), |ps|, j);
  }

  lemma ChunkTextsNonEmpty(text: string, maxChars: int, budget: int)
    ensures forall k :: 0 <= k < |ParagraphChunks(text, maxChars, budget)| ==> ParagraphChunks(text, maxChars, budget)[k] != ""
  {
    var ps := Paragraphs(text);
    var r := Ranges(ps, maxChars, budget);
    forall k | 0 <= k < |r| ensures Join(ParagraphBreak, ps[r[k].0..r[k].1]) != "" {
      var parts := ps[r[k].0..r[k].1];
      JoinStartsWithFirst(ParagraphBreak, parts);
      assert parts[0] == ps[r[k].0];
    }
  }

  /** A single paragraph is one chunk, however long. */
  lemma OneParagraphOneChunk(text: string, maxChars: int, budget: int)
    requires |Paragraphs(text)| == 1
    ensures ParagraphChunks(text, maxChars, budget) == [Paragraphs(text)[0]]
  {
    var ps := Paragraphs(text);
    assert ps[..0] == [];
  }

  lemma TextsExtend(ps: seq<string>, p: string, ranges: seq<(nat, nat)>)
    requires forall k :: 0 <= k < |ranges| ==> ranges[k].0 <= ranges[k].1 <= |ps|
    ensures Texts(ps + [p], ranges) == Texts(ps, ranges)
  {
    forall k | 0 <= k < |ranges| ensures (ps + [p])[ranges[k].0..ranges[k].1] == ps[ranges[k].0..ranges[k].1] {
    }
  }

  lemma NonBlankSnoc(done: seq<string>, raw: string)
    ensures NonBlank(done + [raw]) == NonBlank(done) + if Strip(raw) == "" then [] else [Strip(raw)]
  {
    assert (done + [raw])[..|done|] == done;
  }

  lemma TextsSnoc(ps: seq<string>, ranges: seq<(nat, nat)>, r: (nat, nat))
    requires forall k :: 0 <= k < |ranges| ==> ranges[k].0 <= ranges[k].1 <= |ps|
    requires r.0 <= r.1 <= |ps|
    ensures Texts(ps, ranges + [r]) == Texts(ps, ranges) + [Join(ParagraphBreak, ps[r.0..r.1])]
  {
  }

  /** Where the packing loop stands after the non-blank paragraphs `ps`, in packing state `st`. */
  ghost predicate PackLoop(ps: seq<string>, st: Packing, chunks: seq<string>, current: seq<string>, length: int)
  {
    && PackInv(st, |ps|)
    && chunks == Texts(ps, st.closed) && current == ps[st.start..] && length == st.length
  }

  /** One more paragraph: the packing state after it is `PackNext` of the state before it. */
  lemma PackStep(prev: seq<string>, para: string, maxChars: int, budget: int)
    ensures Pack(prev + [para], maxChars, budget) == PackNext(Pack(prev, maxChars, budget), prev, para, maxChars, budget)
  {
    assert (prev + [para])[..|prev|] == prev;
  }

  /** The open chunk is emitted; the next starts with its overlap and the paragraph. */
  method StartNext(ghost prev: seq<string>, ghost st: Packing, para: string, budget: int,
                   chunks0: seq<string>, current0: seq<string>)
      returns (chunks: seq<string>, current: seq<string>, length: int)
    requires PackInv(st, |prev|) && st.start < |prev|
    requires chunks0 == Texts(prev, st.closed) && current0 == prev[st.start..]
    ensures var s := |prev| - OverlapCount(prev[st.start..], budget);
      && chunks == Texts(prev + [para], st.closed + [(st.start, |prev|)])
      && current == (prev + [para])[s..]
      && length == SumLen(prev[s..] + [para]) + (|prev| - s) * 2
  {
    chunks := chunks0 + [Join(ParagraphBreak, current0)];
    var overlap := Overlap(current0, budget);
    current := overlap + [para];
    length := SumLen(current) + (|current| - 1) * 2;
    ghost var s := |prev| - OverlapCount(prev[st.start..], budget);
    assert overlap == prev[s..];
    assert current == (prev + [para])[s..];
    ChainedSnoc(st.closed, (st.start, |prev|), |prev|, |prev|);
    TextsSnoc(prev, st.closed, (st.start, |prev|));
    TextsExtend(prev, para, st.closed + [(st.start, |prev|)]);
  }

  /**
   * One paragraph of the loop: either it joins the open chunk, or the open chunk is emitted
   * and the next one starts with the overlap and the paragraph.
   */
  method AddParagraph(ghost prev: seq<string>, ghost st: Packing, para: string, maxChars: int, budget: int,
                      chunks0: seq<string>, current0: seq<string>, length0: int)
      returns (chunks: seq<string>, current: seq<string>, length: int)
    requires PackLoop(prev, st, chunks0, current0, length0)
    ensures PackLoop(prev + [para], PackNext(st, prev, para, maxChars, budget), chunks, current, length)
  {
    if length0 + |para| > maxChars && current0 != [] {
      chunks, current, length := StartNext(prev, st, para, budget, chunks0, current0);
    } else {
      TextsExtend(prev, para, st.closed);
      chunks := chunks0;
      current := current0 + [para];
      length := length0 + |para| + 2;
      assert current == (prev + [para])[st.start..];
    }
  }

  /** The packing state after one more raw paragraph: unchanged if it is blank. */
  lemma PackRaw(done: seq<string>, raw: string, maxChars: int, budget: int)
    ensures var prev := NonBlank(done); var para := Strip(raw);
      && (para == "" ==> NonBlank(done + [raw]) == prev)
      && (para != "" ==> NonBlank(done + [raw]) == prev + [para])
      && Pack(NonBlank(done + [raw]), maxChars, budget) ==
           if para == "" then Pack(prev, maxChars, budget)
           else PackNext(Pack(prev, maxChars, budget), prev, para, maxChars, budget)
  {
    NonBlankSnoc(done, raw);
    if Strip(raw) != "" {
      PackStep(NonBlank(done), Strip(raw), maxChars, budget);
    }
  }

  /** One raw paragraph: a blank one is skipped, any other is stripped and packed. */
  method AddRaw(ghost prev: seq<string>, ghost st: Packing, raw: string, maxChars: int, budget: int,
                chunks0: seq<string>, current0: seq<string>, length0: int)
      returns (chunks: seq<string>, current: seq<string>, length: int)
    requires PackLoop(prev, st, chunks0, current0, length0)
    ensures Strip(raw) == "" ==> PackLoop(prev, st, chunks, current, length)
    ensures Strip(raw) != "" ==>
      PackLoop(prev + [Strip(raw)], PackNext(st, prev, Strip(raw), maxChars, budget), chunks, current, length)
  {
    var para := Strip(raw);
    chunks, current, length := chunks0, current0, length0;
    if para != "" {
      chunks, current, length := AddParagraph(prev, st, para, maxChars, budget, chunks, current, length);
    }
  }

  /** The end of `split_by_paragraphs`: the open chunk, if any, is the last. */
  method CloseLast(ghost ps: seq<string>, maxChars: int, budget: int,
                   chunks0: seq<string>, current: seq<string>, length: int) returns (chunks: seq<string>)
    requires PackLoop(ps, Pack(ps, maxChars, budget), chunks0, current, length)
    ensures chunks == Texts(ps, Ranges(ps, maxChars, budget))
  {
    ghost var st := Pack(ps, maxChars, budget);
    chunks := chunks0;
    if current != [] {
      TextsSnoc(ps, st.closed, (st.start, |ps|));
      assert current == ps[st.start..|ps|];
      chunks := chunks + [Join(ParagraphBreak, current)];
    }
  }

  /** The loop of `split_by_paragraphs` over the raw paragraphs. */
  method PackParagraphs(paragraphs: seq<string>, maxChars: int, budget: int) returns (chunks: seq<string>)
    ensures chunks == Texts(NonBlank(paragraphs), Ranges(NonBlank(paragraphs), maxChars, budget))
  {
    chunks := [];
    var current: seq<string> := [];
    var length := 0;
    for i := 0 to |paragraphs|
      invariant var ps := NonBlank(paragraphs[..i]);
        PackLoop(ps, Pack(ps, maxChars, budget), chunks, current, length)
    {
      assert paragraphs[..i + 1] == paragraphs[..i] + [paragraphs[i]];
      ghost var prev := NonBlank(paragraphs[..i]);
      PackRaw(paragraphs[..i], paragraphs[i], maxChars, budget);
      chunks, current, length := AddRaw(prev, Pack(prev, maxChars, budget), paragraphs[i], maxChars, budget, chunks, current, length);
    }
    assert paragraphs[..|paragraphs|] == paragraphs;
    chunks := CloseLast(NonBlank(paragraphs), maxChars, budget, chunks, current, length);
  }

  /** `split_by_paragraphs`: the text cut at blank lines, then packed. */
  method SplitByParagraphs(text: string, maxChars: int, budget: int) returns (chunks: seq<string>)
    ensures chunks == ParagraphChunks(text, maxChars, budget)
  {
    var paragraphs := Split(text, ParagraphBreak);
    chunks := PackParagraphs(paragraphs, maxChars, budget);
  }

  // ------------------------------------------------------------------ the chunker

  /** What the settings say about chunk sizes; a missing setting is None. */
  datatype ChunkSettings = ChunkSettings(maxChars: Option<int>, overlapChars: Option<int>)

  /** An explicit argument, else the configured value, else the default. */
  function Setting(arg: Option<int>, configured: Option<int>, default: int): (r: int)
    ensures arg.Some? ==> r == arg.value
    ensures arg.None? && configured.Some? ==> r == configured.value
    ensures arg.None? && configured.None? ==> r == default
  {
    if arg.Some? then arg.value else if configured.Some? then configured.value else default
  }

  /** A `MarkdownAwareChunker`: the two limits, fixed at construction. */
  datatype Chunker = Chunker(maxChars: int, overlapChars: int)

  /** `MarkdownAwareChunker(max_chars, overlap_chars)`: 800 and 200 unless given or configured. */
  function NewChunker(maxArg: Option<int>, overlapArg: Option<int>, settings: Option<ChunkSettings>): (c: Chunker)
    ensures maxArg.None? && (settings.None? || settings.value.maxChars.None?) ==> c.maxChars == DefaultMaxChars
    ensures overlapArg.None? && (settings.None? || settings.value.overlapChars.None?) ==> c.overlapChars == DefaultOverlapChars
    ensures maxArg.Some? ==> c.maxChars == maxArg.value
    ensures overlapArg.Some? ==> c.overlapChars == overlapArg.value
  {
    var configured := if settings.Some? then settings.value else ChunkSettings(None, None);
    Chunker(Setting(maxArg, configured.maxChars, DefaultMaxChars),
            Setting(overlapArg, configured.overlapChars, DefaultOverlapChars))
  }

  /** Each text as a chunk carrying `meta`. */
  function Tagged(texts: seq<string>, meta: map<string, Value>): (r: seq<Chunk>)
    ensures |r| == |texts|
  {
    seq(|texts|, k requires 0 <= k < |texts| => Chunk(texts[k], meta))
  }

  /**
   * The chunks one section gives: itself, or its paragraph chunks when it is too long, each
   * with the base metadata updated by the section's.
   */
  function Pieces(c: Chunker, section: Chunk, base: map<string, Value>): seq<Chunk>
  {
    var meta := base + section.metadata;
    if |section.text| > c.maxChars then Tagged(ParagraphChunks(section.text, c.maxChars, c.overlapChars), meta)
    else [Chunk(section.text, meta)]
  }

  /** Every section's pieces, in order. */
  function Expanded(c: Chunker, sections: seq<Chunk>, base: map<string, Value>): seq<Chunk>
  {
    if sections == [] then []
    else Expanded(c, sections[..|sections| - 1], base) + Pieces(c, sections[|sections| - 1], base)
  }

  /** A chunk's metadata with its position `i` among `n` chunks written in. */
  function Positioned(m: map<string, Value>, i: nat, n: nat): map<string, Value>
  {
    m["chunk_index" := Num(IntToString(i))]["total_chunks" := Num(IntToString(n))]
  }

  /** Position and count, written into each chunk's metadata. */
  function Numbered(cs: seq<Chunk>): (r: seq<Chunk>)
    ensures |r| == |cs|
    ensures forall i :: 0 <= i < |r| ==> r[i].text == cs[i].text
  {
    seq(|cs|, i requires 0 <= i < |cs| => cs[i].(metadata := Positioned(cs[i].metadata, i, |cs|)))
  }

  /** `MarkdownAwareChunker.chunk`. */
  function ChunkSpec(c: Chunker, text: string, base: map<string, Value>): seq<Chunk>
  {
    Numbered(Expanded(c, HeaderChunks(text), base))
  }

  /**
   * Base metadata updated by a section's title and then positioned: index and total as given,
   * a section title, and every other base key kept.
   */
  lemma PositionedKeeps(base: map<string, Value>, title: map<string, Value>, i: nat, n: nat)
    requires title.Keys == {"section_title"}
    ensures var m := Positioned(base + title, i, n);
      && m["chunk_index"] == Num(IntToString(i))
      && m["total_chunks"] == Num(IntToString(n))
      && m["section_title"] == title["section_title"]
      && forall key :: key in base && key !in {"section_title", "chunk_index", "total_chunks"} ==>
           key in m && m[key] == base[key]
  {
  }

  lemma {:induction false} ExpandedMetadata(c: Chunker, sections: seq<Chunk>, base: map<string, Value>, i: nat)
    requires i < |Expanded(c, sections, base)|
    ensures exists k :: 0 <= k < |sections| && Expanded(c, sections, base)[i].metadata == base + sections[k].metadata
    decreases |sections|
  {
    var n := |sections| - 1;
    var front := Expanded(c, sections[..n], base);
    if i < |front| {
      ExpandedMetadata(c, sections[..n], base, i);
      var k :| 0 <= k < n && front[i].metadata == base + sections[..n][k].metadata;
      assert sections[..n][k] == sections[k];
    } else {
      var pieces := Pieces(c, sections[n], base);
      assert Expanded(c, sections, base)[i] == pieces[i - |front|];
    }
  }

  /**
   * Every chunk is numbered 0..n-1 with total n, carries its section's title, and keeps every
   * other key of the base metadata.
   */
  lemma ChunkMetadata(c: Chunker, text: string, base: map<string, Value>, i: nat)
    requires i < |ChunkSpec(c, text, base)|
    ensures var m := ChunkSpec(c, text, base)[i].metadata;
      && m["chunk_index"] == Num(IntToString(i))
      && m["total_chunks"] == Num(IntToString(|ChunkSpec(c, text, base)|))
      && "section_title" in m
      && forall key :: key in base && key !in {"section_title", "chunk_index", "total_chunks"} ==>
           key in m && m[key] == base[key]
  {
    var sections := HeaderChunks(text);
    var expanded := Expanded(c, sections, base);
    ExpandedMetadata(c, sections, base, i);
    var k :| 0 <= k < |sections| && expanded[i].metadata == base + sections[k].metadata;
    assert TitledChunk(sections[k]);
    PositionedKeeps(base, sections[k].metadata, i, |expanded|);
  }

  /** Sections within the limit are kept whole: without a long section the texts are the sections'. */
  lemma {:induction false} ShortSectionsKeptWhole(c: Chunker, sections: seq<Chunk>, base: map<string, Value>)
    requires forall k :: 0 <= k < |sections| ==> |sections[k].text| <= c.maxChars
    ensures |Expanded(c, sections, base)| == |sections|
    ensures forall k :: 0 <= k < |sections| ==> Expanded(c, sections, base)[k] == Chunk(sections[k].text, base + sections[k].metadata)
    decreases |sections|
  {
    if sections != [] {
      ShortSectionsKeptWhole(c, sections[..|sections| - 1], base);
    }
  }

  /** One section of `chunk`: its pieces appended, one sub-text at a time when it is long. */
  method AddSection(c: Chunker, section: Chunk, base: map<string, Value>, final0: seq<Chunk>) returns (final: seq<Chunk>)
    ensures final == final0 + Pieces(c, section, base)
  {
    var meta := base + section.metadata;
    if |section.text| > c.maxChars {
      var subTexts := SplitByParagraphs(section.text, c.maxChars, c.overlapChars);
      final := final0;
      for j := 0 to |subTexts|
        invariant |final| == |final0| + j && final[..|final0|] == final0
        invariant forall k :: 0 <= k < j ==> final[|final0| + k] == Chunk(subTexts[k], meta)
      {
        final := final + [Chunk(subTexts[j], meta)];
      }
      assert final == final0 + Tagged(subTexts, meta);
    } else {
      final := final0 + [Chunk(section.text, meta)];
    }
  }

  /** The section loop of `chunk`: each section's pieces appended in turn. */
  method ExpandSections(c: Chunker, sections: seq<Chunk>, base: map<string, Value>) returns (final: seq<Chunk>)
    ensures final == Expanded(c, sections, base)
  {
    final := [];
    for i := 0 to |sections|
      invariant final == Expanded(c, sections[..i], base)
    {
      assert sections[..i + 1][..i] == sections[..i];
      final := AddSection(c, sections[i], base, final);
    }
    assert sections[..|sections|] == sections;
  }

  /** The numbering loop of `chunk`: each chunk's metadata gets its index and the total, in place. */
  method NumberChunks(cs: seq<Chunk>) returns (final: seq<Chunk>)
    ensures final == Numbered(cs)
  {
    final := cs;
    var total := |final|;
    for i := 0 to total
      invariant |final| == total
      invariant forall k :: 0 <= k < i ==> final[k] == Numbered(cs)[k]
      invariant forall k :: i <= k < total ==> final[k] == cs[k]
    {
      final := final[i := final[i].(metadata := Positioned(final[i].metadata, i, total))];
    }
  }

  /** `MarkdownAwareChunker.chunk`: sections, long ones re-split, then every chunk numbered. */
  method ChunkText(c: Chunker, text: string, base: map<string, Value>) returns (final: seq<Chunk>)
    ensures final == ChunkSpec(c, text, base)
  {
    var initial := SplitByMarkdownHeaders(text);
    var expanded := ExpandSections(c, initial, base);
    final := NumberChunks(expanded);
  }
}
