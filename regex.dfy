/**
 * The scanning discipline Python's `re.sub`, `re.findall` and `re.finditer` share: try the
 * pattern at each index from left to right; after a match resume right after its end, otherwise
 * move one character on. A pattern is a matcher: given the text and a start index it answers
 * where a match starting there ends and what its capture group holds. None of the modelled
 * patterns matches the empty string.
 */
module Regex {
  import opened Wrappers

  /** A match: the index right after it, and the text of the group `findall` reports. */
  datatype Match = Match(end: nat, group: string)

  /** A pattern, as the function answering "does a match start at index i, and how far does it go". */
  type Matcher = (string, nat) -> Option<Match>

  /** A match of `m` starting at `i` that ends inside the text and is not empty. */
  predicate MatchesAt(m: Matcher, s: string, i: nat)
  {
    i < |s| && m(s, i).Some? && i < m(s, i).value.end <= |s|
  }

  /** `pattern.sub(repl, s[i:])`. */
  function SubFrom(m: Matcher, s: string, i: nat, repl: string): string
    requires i <= |s|
    decreases |s| - i
  {
    if i == |s| then ""
    else if MatchesAt(m, s, i) then repl + SubFrom(m, s, m(s, i).value.end, repl)
    else [s[i]] + SubFrom(m, s, i + 1, repl)
  }

  function Sub(m: Matcher, s: string, repl: string): string
  {
    SubFrom(m, s, 0, repl)
  }

  /** `pattern.findall(s[i:])`: the group of every match, scanning left to right. */
  function FindAllFrom(m: Matcher, s: string, i: nat): seq<string>
    requires i <= |s|
    decreases |s| - i
  {
    if i == |s| then []
    else if MatchesAt(m, s, i) then [m(s, i).value.group] + FindAllFrom(m, s, m(s, i).value.end)
    else FindAllFrom(m, s, i + 1)
  }

  function FindAll(m: Matcher, s: string): seq<string>
  {
    FindAllFrom(m, s, 0)
  }

  /** `pattern.search(s)`: the first index where a match starts, or None. */
  function SearchFrom(m: Matcher, s: string, i: nat): (r: Option<nat>)
    requires i <= |s|
    ensures r.Some? ==> i <= r.value && MatchesAt(m, s, r.value)
    ensures forall j :: i <= j && (r.None? || j < r.value) ==> !MatchesAt(m, s, j)
    decreases |s| - i
  {
    if i == |s| then None
    else if MatchesAt(m, s, i) then Some(i)
    else SearchFrom(m, s, i + 1)
  }

  /** No match starts at or after `i`. */
  ghost predicate NoMatchFrom(m: Matcher, s: string, i: nat)
  {
    forall j :: i <= j ==> !MatchesAt(m, s, j)
  }

  /** Without a match, substitution copies the text and `findall` finds nothing. */
  lemma {:induction false} NoMatchKeepsText(m: Matcher, s: string, i: nat, repl: string)
    requires i <= |s| && NoMatchFrom(m, s, i)
    ensures SubFrom(m, s, i, repl) == s[i..]
    ensures FindAllFrom(m, s, i) == []
    decreases |s| - i
  {
    if i < |s| {
      NoMatchKeepsText(m, s, i + 1, repl);
    }
  }

  /** `findall` finds something exactly when a match starts at or after `i`. */
  lemma {:induction false} FindAllNonEmptyIff(m: Matcher, s: string, i: nat)
    requires i <= |s|
    ensures |FindAllFrom(m, s, i)| > 0 <==> !NoMatchFrom(m, s, i)
    decreases |s| - i
  {
    if i < |s| && !MatchesAt(m, s, i) {
      FindAllNonEmptyIff(m, s, i + 1);
      if !NoMatchFrom(m, s, i) {
        var j :| i <= j && MatchesAt(m, s, j);
        assert i + 1 <= j;
      }
    }
  }

  /** Up to the next match, substitution copies the text. */
  lemma {:induction false} SubCopiesUpTo(m: Matcher, s: string, i: nat, k: nat, repl: string)
    requires i <= k <= |s|
    requires forall j :: i <= j < k ==> !MatchesAt(m, s, j)
    ensures SubFrom(m, s, i, repl) == s[i..k] + SubFrom(m, s, k, repl)
    ensures FindAllFrom(m, s, i) == FindAllFrom(m, s, k)
    decreases k - i
  {
    if i < k {
      SubCopiesUpTo(m, s, i + 1, k, repl);
    }
  }

  /** When `s` holds a match, substitution replaces the first one and keeps what precedes it. */
  lemma SubReplacesFirst(m: Matcher, s: string, repl: string)
    requires !NoMatchFrom(m, s, 0)
    ensures var k := SearchFrom(m, s, 0);
      && k.Some?
      && Sub(m, s, repl) == s[..k.value] + repl + SubFrom(m, s, m(s, k.value).value.end, repl)
  {
    var k := SearchFrom(m, s, 0);
    SubCopiesUpTo(m, s, 0, k.value, repl);
  }

  /** At index `k` of `b`, a match of `m` seen through a prefix `a` is the same match, moved by `|a|`. */
  predicate ShiftAt(m: Matcher, a: string, b: string, k: nat)
  {
    (MatchesAt(m, a + b, |a| + k) <==> MatchesAt(m, b, k))
    && (MatchesAt(m, b, k) ==> m(a + b, |a| + k).value == Match(m(b, k).value.end + |a|, m(b, k).value.group))
  }

  /** Matches of `m` in `b` from index `j` on, seen through a prefix `a`, are the same matches. */
  ghost predicate ShiftsFrom(m: Matcher, a: string, b: string, j: nat)
  {
    forall k :: j <= k <= |b| ==> ShiftAt(m, a, b, k)
  }

  /** A prefix whose matches do not reach into `b` can be peeled off. */
  lemma {:induction false} SubShift(m: Matcher, a: string, b: string, j: nat, repl: string)
    requires j <= |b| && ShiftsFrom(m, a, b, j)
    ensures SubFrom(m, a + b, |a| + j, repl) == SubFrom(m, b, j, repl)
    ensures FindAllFrom(m, a + b, |a| + j) == FindAllFrom(m, b, j)
    decreases |b| - j
  {
    if j < |b| {
      var s := a + b;
      assert s[|a| + j] == b[j];
      assert ShiftAt(m, a, b, j);
      if MatchesAt(m, b, j) {
        var e := m(b, j).value.end;
        SubShift(m, a, b, e, repl);
      } else {
        SubShift(m, a, b, j + 1, repl);
      }
    }
  }
}
