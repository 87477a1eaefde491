/**
 * Python string operations used throughout the model, on `seq<char>`.
 * Character classes are the ASCII ones: `\s`, `\w`, `\d`, `str.lower` and `str.isdigit`
 * behave on non-ASCII text differently in Python, which is not modelled.
 */
module Text {
  import opened Wrappers

  /** `c.isspace()` / regex `\s` restricted to ASCII: space, \t \n \v \f \r and \x1c-\x1f. */
  predicate IsSpace(c: char)
  {
    c == ' ' || ('\t' <= c <= '\r') || ('\U{1C}' <= c <= '\U{1F}')
  }

  predicate IsDigit(c: char)
  {
    '0' <= c <= '9'
  }

  predicate IsUpper(c: char)
  {
    'A' <= c <= 'Z'
  }

  predicate IsLetter(c: char)
  {
    IsUpper(c) || ('a' <= c <= 'z')
  }

  /** Regex `\w`: letters, digits and underscore. */
  predicate IsWord(c: char)
  {
    IsLetter(c) || IsDigit(c) || c == '_'
  }

  function LowerChar(c: char): (r: char)
    ensures IsUpper(c) ==> r as int == c as int + 32
    ensures !IsUpper(c) ==> r == c
  {
    if IsUpper(c) then (c as int + 32) as char else c
  }

  /** `s.lower()`. */
  function Lower(s: string): (r: string)
    ensures |r| == |s|
    ensures forall i :: 0 <= i < |s| ==> r[i] == LowerChar(s[i])
  {
    seq(|s|, i requires 0 <= i < |s| => LowerChar(s[i]))
  }

  predicate AllDigits(s: string)
  {
    forall i :: 0 <= i < |s| ==> IsDigit(s[i])
  }

  /** `s.isdigit()`: non-empty and only digits. */
  predicate IsDigitString(s: string)
  {
    |s| > 0 && AllDigits(s)
  }

  predicate StartsWith(s: string, p: string)
  {
    |p| <= |s| && s[..|p|] == p
  }

  predicate EndsWith(s: string, p: string)
  {
    |p| <= |s| && s[|s| - |p|..] == p
  }

  /** A string that disagrees with `p` at some index of `p` does not start with `p`. */
  lemma DiffersAt(s: string, p: string, i: nat)
    requires i < |p| && i < |s| && s[i] != p[i]
    ensures !StartsWith(s, p)
  {
  }

  /** `name.lower().endswith(".md")`: the name of a Markdown file. */
  predicate IsMarkdown(name: string)
  {
    EndsWith(Lower(name), ".md")
  }

  /** `p` occurs in `s` at index `i`. */
  predicate OccursAt(s: string, p: string, i: int)
  {
    0 <= i && i + |p| <= |s| && s[i..i + |p|] == p
  }

  /** `p in s`. */
  predicate Contains(s: string, p: string)
  {
    exists i :: 0 <= i <= |s| - |p| && OccursAt(s, p, i)
  }

  /** The first index at or after `from` where `p` occurs in `s`, or -1 (`s.find(p, from)`). */
  function FindFrom(s: string, p: string, from: nat): (r: int)
    ensures r == -1 || (from <= r && OccursAt(s, p, r))
    ensures forall j :: from <= j && (r == -1 || j < r) ==> !OccursAt(s, p, j)
    decreases |s| - from
  {
    if from + |p| > |s| then -1
    else if s[from..from + |p|] == p then from
    else FindFrom(s, p, from + 1)
  }

  /** `s.find(p)`. */
  function Find(s: string, p: string): (r: int)
    ensures r == -1 <==> !Contains(s, p)
    ensures r != -1 ==> OccursAt(s, p, r) && forall j :: 0 <= j < r ==> !OccursAt(s, p, j)
  {
    FindFrom(s, p, 0)
  }

  /** Searching behind a prefix finds the same occurrences, moved by the prefix's length. */
  lemma {:induction false} FindFromShift(a: string, b: string, p: string, from: nat)
    ensures FindFrom(a + b, p, |a| + from) == if FindFrom(b, p, from) == -1 then -1 else FindFrom(b, p, from) + |a|
    decreases |b| - from
  {
    if from + |p| <= |b| {
      assert (a + b)[|a| + from..|a| + from + |p|] == b[from..from + |p|];
      FindFromShift(a, b, p, from + 1);
    }
  }

  /** Text appended after an occurrence does not change where the first one is. */
  lemma {:induction false} FindFromExtend(u: string, v: string, p: string, from: nat)
    requires FindFrom(u, p, from) != -1
    ensures FindFrom(u + v, p, from) == FindFrom(u, p, from)
    decreases |u| - from
  {
    assert (u + v)[from..from + |p|] == u[from..from + |p|];
    if u[from..from + |p|] != p {
      FindFromExtend(u, v, p, from + 1);
    }
  }

  /** The end of the run of characters satisfying `p` that starts at `i`. */
  function Span(s: string, i: nat, p: char -> bool): (n: nat)
    requires i <= |s|
    ensures i <= n <= |s|
    ensures forall j :: i <= j < n ==> p(s[j])
    ensures n == |s| || !p(s[n])
    decreases |s| - i
  {
    if i == |s| || !p(s[i]) then i else Span(s, i + 1, p)
  }

  /** A run that reaches a character failing `p` stops exactly there. */
  lemma SpanStopsAt(s: string, i: nat, p: char -> bool, k: nat)
    requires i <= k < |s| && !p(s[k])
    requires forall j :: i <= j < k ==> p(s[j])
    ensures Span(s, i, p) == k
  {
  }

  /** Strips the leading characters satisfying `drop`. */
  function LStripBy(s: string, drop: char -> bool): (r: string)
    ensures |r| <= |s|
    ensures forall i :: 0 <= i < |s| - |r| ==> drop(s[i])
    ensures r == [] || !drop(r[0])
  {
    if |s| > 0 && drop(s[0]) then LStripBy(s[1..], drop) else s
  }

  /** Strips the trailing characters satisfying `drop`. */
  function RStripBy(s: string, drop: char -> bool): (r: string)
    ensures |r| <= |s|
    ensures forall i :: |r| <= i < |s| ==> drop(s[i])
    ensures r == [] || !drop(r[|r| - 1])
  {
    if |s| > 0 && drop(s[|s| - 1]) then RStripBy(s[..|s| - 1], drop) else s
  }

  /** What left-stripping keeps is a suffix of the text. */
  lemma {:induction false} LStripByIsSuffix(s: string, drop: char -> bool)
    ensures LStripBy(s, drop) == s[|s| - |LStripBy(s, drop)|..]
    decreases |s|
  {
    if |s| > 0 && drop(s[0]) {
      LStripByIsSuffix(s[1..], drop);
      var r := LStripBy(s, drop);
      assert s[1..][|s| - 1 - |r|..] == s[|s| - |r|..];
    }
  }

  /** What right-stripping keeps is a prefix of the text. */
  lemma {:induction false} RStripByIsPrefix(s: string, drop: char -> bool)
    ensures RStripBy(s, drop) == s[..|RStripBy(s, drop)|]
    decreases |s|
  {
    if |s| > 0 && drop(s[|s| - 1]) {
      RStripByIsPrefix(s[..|s| - 1], drop);
      var r := RStripBy(s, drop);
      assert s[..|s| - 1][..|r|] == s[..|r|];
    }
  }

  function StripBy(s: string, drop: char -> bool): string
  {
    RStripBy(LStripBy(s, drop), drop)
  }

  /** `s.strip()`. */
  function Strip(s: string): (r: string)
    ensures r == [] || (!IsSpace(r[0]) && !IsSpace(r[|r| - 1]))
    ensures |r| <= |s|
  {
    RStripByIsPrefix(LStripBy(s, IsSpace), IsSpace);
    StripBy(s, IsSpace)
  }

  /** A character that is not whitespace survives `strip()`. */
  lemma StripKeepsNonSpace(s: string, i: nat)
    requires i < |s| && !IsSpace(s[i])
    ensures s[i] in Strip(s)
  {
    var l := LStripBy(s, IsSpace);
    LStripByIsSuffix(s, IsSpace);
    var j := i - (|s| - |l|);
    assert l[j] == s[i];
    var r := RStripBy(l, IsSpace);
    RStripByIsPrefix(l, IsSpace);
    assert r[j] == l[j];
  }

  /** Text made only of whitespace strips to nothing. */
  lemma StripOfBlank(s: string)
    requires forall i :: 0 <= i < |s| ==> IsSpace(s[i])
    ensures Strip(s) == []
  {
    LStripByIsSuffix(s, IsSpace);
  }

  /** `s.lstrip()`. */
  function LStrip(s: string): string
  {
    LStripBy(s, IsSpace)
  }

  /** A string with no space at either end is its own strip. */
  lemma StripOfStripped(s: string)
    requires s == [] || (!IsSpace(s[0]) && !IsSpace(s[|s| - 1]))
    ensures Strip(s) == s
  {
  }

  /** `s[:n]`. */
  function Take<T>(s: seq<T>, n: nat): (r: seq<T>)
    ensures |r| == if |s| <= n then |s| else n
    ensures r == s[..|r|]
  {
    if |s| <= n then s else s[..n]
  }

  /** `s[-n:]`. */
  function TakeLast<T>(s: seq<T>, n: nat): (r: seq<T>)
    ensures |r| == if |s| <= n then |s| else n
    ensures r == s[|s| - |r|..]
  {
    if |s| <= n then s else s[|s| - n..]
  }

  /** `sep.join(parts)`. */
  function Join(sep: string, parts: seq<string>): (r: string)
    ensures |parts| == 0 ==> r == ""
    ensures |parts| == 1 ==> r == parts[0]
  {
    if |parts| == 0 then ""
    else if |parts| == 1 then parts[0]
    else parts[0] + sep + Join(sep, parts[1..])
  }

  /** Total length of the parts. */
  function SumLen(parts: seq<string>): nat
  {
    if |parts| == 0 then 0 else SumLen(parts[..|parts| - 1]) + |parts[|parts| - 1]|
  }

  lemma {:induction false} JoinLength(sep: string, parts: seq<string>)
    requires |parts| > 0
    ensures |Join(sep, parts)| == SumLen(parts) + (|parts| - 1) * |sep|
    decreases |parts|
  {
    if |parts| > 1 {
      JoinLength(sep, parts[1..]);
      SumLenFront(parts);
      var n := |parts| - 1;
      assert (n - 1) * |sep| + |sep| == n * |sep| by {
        assert n * |sep| == (n - 1) * |sep| + 1 * |sep|;
      }
    }
  }

  lemma {:induction false} SumLenFront(parts: seq<string>)
    requires |parts| > 0
    ensures SumLen(parts) == |parts[0]| + SumLen(parts[1..])
    decreases |parts|
  {
    if |parts| > 1 {
      var init := parts[..|parts| - 1];
      SumLenFront(init);
      assert init[1..] == parts[1..][..|parts| - 2];
    }
  }

  lemma {:induction false} SumLenAppend(a: seq<string>, b: seq<string>)
    ensures SumLen(a + b) == SumLen(a) + SumLen(b)
    decreases |b|
  {
    if |b| > 0 {
      assert (a + b)[..|a + b| - 1] == a + b[..|b| - 1];
      SumLenAppend(a, b[..|b| - 1]);
    } else {
      assert a + b == a;
    }
  }

  lemma {:induction false} JoinAppend(sep: string, parts: seq<string>, last: string)
    requires |parts| > 0
    ensures Join(sep, parts + [last]) == Join(sep, parts) + sep + last
    decreases |parts|
  {
    if |parts| == 1 {
      assert parts + [last] == [parts[0], last];
    } else {
      assert (parts + [last])[1..] == parts[1..] + [last];
      JoinAppend(sep, parts[1..], last);
    }
  }

  /**
   * `s.split(sep)` for a non-empty separator: the pieces between occurrences of `sep`,
   * scanned left to right. Joining them back with `sep` gives `s`, and no piece holds `sep`.
   */
  function Split(s: string, sep: string): (r: seq<string>)
    requires |sep| > 0
    ensures |r| >= 1
    ensures Join(sep, r) == s
    ensures forall k :: 0 <= k < |r| ==> !Contains(r[k], sep)
    decreases |s|
  {
    var k := Find(s, sep);
    if k == -1 then [s]
    else
      var head := s[..k];
      var rest := Split(s[k + |sep|..], sep);
      assert !Contains(head, sep) by {
        forall j | OccursAt(head, sep, j) ensures false {
          assert OccursAt(s, sep, j);
        }
      }
      assert s == head + sep + s[k + |sep|..];
      [head] + rest
  }

  /** `s.replace(pat, repl)`: every non-overlapping occurrence, left to right. */
  function Replace(s: string, pat: string, repl: string): (r: string)
    requires |pat| > 0
    ensures !Contains(s, pat) ==> r == s
    decreases |s|
  {
    var k := Find(s, pat);
    if k == -1 then s else s[..k] + repl + Replace(s[k + |pat|..], pat, repl)
  }

  /** Replacing one character by another maps the string character by character. */
  lemma {:induction false} ReplaceChar(s: string, c: char, d: char)
    ensures var r := Replace(s, [c], [d]);
      |r| == |s| && forall i :: 0 <= i < |s| ==> r[i] == (if s[i] == c then d else s[i])
    decreases |s|
  {
    var k := Find(s, [c]);
    if k == -1 {
      forall j | 0 <= j < |s| ensures s[j] != c {
        assert !OccursAt(s, [c], j);
        assert s[j..j + 1] == [s[j]];
      }
    } else {
      var rest := s[k + 1..];
      ReplaceChar(rest, c, d);
      var tail := Replace(rest, [c], [d]);
      var r := s[..k] + [d] + tail;
      assert Replace(s, [c], [d]) == r;
      assert s[k..k + 1] == [c];
      forall j | 0 <= j < |s| ensures r[j] == (if s[j] == c then d else s[j]) {
        if j < k {
          assert !OccursAt(s, [c], j);
          assert s[j..j + 1] == [s[j]];
        } else if j > k {
          assert r[j] == tail[j - k - 1] && s[j] == rest[j - k - 1];
        }
      }
    }
  }

  /** A non-empty run of non-space characters. */
  predicate IsToken(w: string)
  {
    |w| > 0 && forall i :: 0 <= i < |w| ==> !IsSpace(w[i])
  }

  /** `s.split()` with no argument: the maximal runs of non-space characters. */
  function Words(s: string): (r: seq<string>)
    ensures forall k :: 0 <= k < |r| ==> IsToken(r[k])
  {
    WordsFrom(s, 0)
  }

  /** The words of `s[i:]`. */
  function WordsFrom(s: string, i: nat): (r: seq<string>)
    requires i <= |s|
    ensures forall k :: 0 <= k < |r| ==> IsToken(r[k])
    decreases |s| - i
  {
    var j := SpaceEnd(s, i);
    if j == |s| then []
    else
      var n := WordEnd(s, j);
      assert IsToken(s[j..n]);
      [s[j..n]] + WordsFrom(s, n)
  }

  /** The end of the run of space characters starting at `i`. */
  function SpaceEnd(s: string, i: nat): (n: nat)
    requires i <= |s|
    ensures i <= n <= |s|
    ensures n == |s| || !IsSpace(s[n])
    decreases |s| - i
  {
    if i == |s| || !IsSpace(s[i]) then i else SpaceEnd(s, i + 1)
  }

  /** The end of the run of non-space characters starting at `i`. */
  function WordEnd(s: string, i: nat): (n: nat)
    requires i <= |s|
    ensures i <= n <= |s|
    ensures forall j :: i <= j < n ==> !IsSpace(s[j])
    ensures n == |s| || IsSpace(s[n])
    decreases |s| - i
  {
    if i == |s| || IsSpace(s[i]) then i else WordEnd(s, i + 1)
  }

  /** The decimal digits of `n`, as `str(n)` prints them. */
  function NatToString(n: nat): (r: string)
    ensures IsDigitString(r)
  {
    if n < 10 then [DigitChar(n)] else NatToString(n / 10) + [DigitChar(n % 10)]
  }

  function DigitChar(d: nat): (c: char)
    requires d < 10
    ensures IsDigit(c)
  {
    ('0' as int + d) as char
  }

  /** `str(i)` for any integer. */
  function IntToString(i: int): string
  {
    if i < 0 then "-" + NatToString(-i) else NatToString(i)
  }

  /** The value of a string of decimal digits, read left to right. */
  function DigitsValue(s: string): nat
    requires AllDigits(s)
  {
    if |s| == 0 then 0 else DigitsValue(s[..|s| - 1]) * 10 + (s[|s| - 1] as int - '0' as int)
  }

  /** `int(r)` for the decimal form `str()` prints for an integer, None for any other text. */
  function ParseInt(r: string): Option<int>
  {
    if IsDigitString(r) then
      var d: int := DigitsValue(r);
      Some(d)
    else if |r| > 1 && r[0] == '-' && IsDigitString(r[1..]) then
      var d: int := DigitsValue(r[1..]);
      Some(-d)
    else None
  }

  /** Reading back what `NatToString` prints gives the number. */
  lemma {:induction false} DigitsOfNat(n: nat)
    ensures DigitsValue(NatToString(n)) == n
    decreases n
  {
    var s := NatToString(n);
    if n >= 10 {
      DigitsOfNat(n / 10);
      assert s[..|s| - 1] == NatToString(n / 10);
    }
  }

  /** `int(str(i)) == i`. */
  lemma ParseIntToString(i: int)
    ensures ParseInt(IntToString(i)) == Some(i)
  {
    if i < 0 {
      DigitsOfNat(-i);
      assert IntToString(i)[1..] == NatToString(-i);
    } else {
      DigitsOfNat(i);
    }
  }

  // ------------------------------------------------------------------ repr

  /** The quote `repr` puts around a string: a double quote when it holds a single quote and no double quote. */
  function ReprQuote(s: string): char
  {
    if '\'' in s && '"' !in s then '"' else '\''
  }

  function HexDigit(n: nat): char
    requires n < 16
  {
    "0123456789abcdef"[n]
  }

  /** An ASCII control character, which `repr` writes as an escape. */
  predicate IsControl(c: char)
  {
    c < ' ' || c == '\U{7F}'
  }

  /**
   * How `repr` writes one character between the quotes `q`: the quote and the backslash get a
   * backslash, tab, line feed and carriage return their short escapes, the other ASCII control
   * characters a `\xhh` escape, and everything else is kept.
   */
  function ReprChar(c: char, q: char): (r: string)
    ensures |r| >= 1
    ensures r[0] == '\\' || r == [c]
  {
    if c == q || c == '\\' then ['\\', c]
    else if c == '\t' then "\\t"
    else if c == '\n' then "\\n"
    else if c == '\r' then "\\r"
    else if IsControl(c) then ['\\', 'x', HexDigit(c as int / 16), HexDigit(c as int % 16)]
    else [c]
  }

  function ReprBody(s: string, q: char): string
  {
    if s == [] then [] else ReprBody(s[..|s| - 1], q) + ReprChar(s[|s| - 1], q)
  }

  /** `repr(s)` of a string whose characters outside ASCII are all printable. */
  function Repr(s: string): (r: string)
    ensures |r| >= 2 && r[0] == ReprQuote(s) && r[|r| - 1] == ReprQuote(s)
  {
    [ReprQuote(s)] + ReprBody(s, ReprQuote(s)) + [ReprQuote(s)]
  }

  /** Text that needs no escape between the quotes `q`. */
  predicate NeedsNoEscape(s: string, q: char)
  {
    forall i :: 0 <= i < |s| ==> s[i] != q && s[i] != '\\' && !IsControl(s[i])
  }

  lemma {:induction false} ReprBodyOfPlain(s: string, q: char)
    requires NeedsNoEscape(s, q)
    ensures ReprBody(s, q) == s
    decreases |s|
  {
    if s != [] {
      ReprBodyOfPlain(s[..|s| - 1], q);
      assert s == s[..|s| - 1] + [s[|s| - 1]];
    }
  }

  /**
   * Text that needs no escape is written as itself between quotes: single quotes, or double
   * quotes when it holds a single quote and no double quote.
   */
  lemma ReprOfPlain(s: string)
    requires NeedsNoEscape(s, '\'') || ('\'' in s && NeedsNoEscape(s, '"'))
    ensures NeedsNoEscape(s, '\'') ==> Repr(s) == "'" + s + "'"
    ensures '\'' in s && NeedsNoEscape(s, '"') ==> Repr(s) == "\"" + s + "\""
  {
    if NeedsNoEscape(s, '\'') {
      assert '\'' !in s by {
        forall i | 0 <= i < |s| ensures s[i] != '\'' { }
      }
      ReprBodyOfPlain(s, '\'');
    } else {
      assert '"' !in s by {
        forall i | 0 <= i < |s| ensures s[i] != '"' { }
      }
      ReprBodyOfPlain(s, '"');
    }
  }

  /**
   * Between its quotes, `repr` never leaves the chosen quote bare: every quote character of
   * the body is written right after a backslash.
   */
  lemma {:induction false} ReprBodyEscapesQuote(s: string, q: char)
    requires q == '\'' || q == '"'
    ensures forall i :: 0 <= i < |ReprBody(s, q)| && ReprBody(s, q)[i] == q ==> i > 0 && ReprBody(s, q)[i - 1] == '\\'
    decreases |s|
  {
    if s != [] {
      var a := ReprBody(s[..|s| - 1], q);
      var c := ReprChar(s[|s| - 1], q);
      ReprBodyEscapesQuote(s[..|s| - 1], q);
      assert ReprBody(s, q) == a + c;
      forall i | 0 <= i < |a + c| && (a + c)[i] == q ensures i > 0 && (a + c)[i - 1] == '\\' {
        if i >= |a| {
          assert c[i - |a|] == q;
        }
      }
    }
  }
}
