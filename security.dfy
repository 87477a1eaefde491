/**
 * Card-number masking: every match of `\b(?:\d{4}[- ]?){3}\d{4}\b` in a text is replaced by
 * a fixed mask, scanning left to right as `re.sub` does.
 */
module Security {
  import opened Wrappers
  import opened Text
  import opened Regex

  const CardMask: string := "XXXX-XXXX-XXXX-XXXX"

  predicate IsSeparator(c: char)
  {
    c == '-' || c == ' '
  }

  predicate FourDigitsAt(t: string, p: nat)
  {
    p + 4 <= |t| && IsDigit(t[p]) && IsDigit(t[p + 1]) && IsDigit(t[p + 2]) && IsDigit(t[p + 3])
  }

  /**
   * Where `\d{4}[- ]?` starting at `p` ends. The optional separator is taken exactly when it
   * is present: leaving it out could only be followed by a digit, which a separator is not, so
   * the regex has a single way to match.
   */
  function GroupEnd(t: string, p: nat): nat
  {
    if p + 4 < |t| && IsSeparator(t[p + 4]) then p + 5 else p + 4
  }

  /** The length of `(?:\d{4}[- ]?){3}\d{4}` at the start of `t`, or 0. */
  function GroupsLen(t: string): (n: nat)
    ensures n == 0 || (16 <= n <= |t| && IsDigit(t[0]))
  {
    if !FourDigitsAt(t, 0) then 0
    else
      var p1 := GroupEnd(t, 0);
      if !FourDigitsAt(t, p1) then 0
      else
        var p2 := GroupEnd(t, p1);
        if !FourDigitsAt(t, p2) then 0
        else
          var p3 := GroupEnd(t, p2);
          if !FourDigitsAt(t, p3) then 0 else p3 + 4
  }

  /**
   * The card-number match at the start of `t` when the character before it is a word character
   * (`prevWord`) or not: `\b` needs a non-word character (or the text's end) on both sides.
   */
  function MatchLenAfter(prevWord: bool, t: string): (n: nat)
    ensures n == 0 || (16 <= n <= |t| && IsDigit(t[0]))
  {
    if prevWord then 0
    else
      var n := GroupsLen(t);
      if n > 0 && (n == |t| || !IsWord(t[n])) then n else 0
  }

  /** The card-number match over `t`, reported as starting at index `i` of the whole text. */
  function MatchFrom(prevWord: bool, t: string, i: nat): (r: Option<Match>)
    ensures r.Some? ==> i < r.value.end <= i + |t| && IsDigit(t[0])
  {
    var n := MatchLenAfter(prevWord, t);
    if n > 0 then Some(Match(i + n, t[..n])) else None
  }

  /** The card-number pattern as a matcher: the match starting at index `i`, if any. */
  function CardMatcher(s: string, i: nat): (r: Option<Match>)
    ensures r.Some? ==> i < r.value.end <= |s| && IsDigit(s[i])
  {
    if i < |s| then MatchFrom(i > 0 && IsWord(s[i - 1]), s[i..], i) else None
  }

  /** `Security.mask_sensitive_data`: an empty text gives "", otherwise every card is masked. */
  function MaskSensitiveData(text: string): string
  {
    if text == "" then "" else Sub(CardMatcher, text, CardMask)
  }

  /** The text holds a card number. */
  ghost predicate HasCard(s: string)
  {
    !NoMatchFrom(CardMatcher, s, 0)
  }

  /** Masking changes a text exactly when it holds a card number. */
  lemma MaskUnchangedIffNoCard(s: string)
    ensures MaskSensitiveData(s) == s <==> !HasCard(s)
  {
    if HasCard(s) {
      SubReplacesFirst(CardMatcher, s, CardMask);
      var k := SearchFrom(CardMatcher, s, 0).value;
      assert MaskSensitiveData(s)[k] == CardMask[0];
      assert IsDigit(s[k]);
    } else {
      NoMatchKeepsText(CardMatcher, s, 0, CardMask);
    }
  }

  /** Text without any digit is returned unchanged. */
  lemma MaskKeepsDigitFreeText(s: string)
    requires forall i :: 0 <= i < |s| ==> !IsDigit(s[i])
    ensures MaskSensitiveData(s) == s
  {
    MaskUnchangedIffNoCard(s);
  }

  /** Text after a complete card number does not change its length. */
  lemma GroupsLenExtend(t: string, u: string)
    requires GroupsLen(t) == |t| > 0
    ensures GroupsLen(t + u) == |t|
  {
    var tu := t + u;
    assert forall i :: 0 <= i < |t| ==> tu[i] == t[i];
  }

  /** At one index of `b`, the card match seen through a prefix `a` is the same match, moved. */
  lemma CardMatcherShiftsAt(a: string, b: string, k: nat)
    requires k <= |b|
    requires k > 0 || |a| == 0 || !IsWord(a[|a| - 1]) || |b| == 0 || !IsDigit(b[0])
    ensures MatchesAt(CardMatcher, a + b, |a| + k) <==> MatchesAt(CardMatcher, b, k)
    ensures MatchesAt(CardMatcher, b, k) ==>
      CardMatcher(a + b, |a| + k).value == Match(CardMatcher(b, k).value.end + |a|, CardMatcher(b, k).value.group)
  {
    var s := a + b;
    if k < |b| {
      var t := b[k..];
      assert s[|a| + k..] == t;
      var pw := k > 0 && IsWord(b[k - 1]);
      if k > 0 {
        assert s[|a| + k - 1] == b[k - 1];
        assert CardMatcher(s, |a| + k) == MatchFrom(pw, t, |a| + k);
      } else if |a| > 0 && IsWord(a[|a| - 1]) {
        assert s[|a| - 1] == a[|a| - 1];
        assert MatchFrom(false, t, 0).None?;
        assert CardMatcher(s, |a| + k).None?;
      } else {
        assert CardMatcher(s, |a| + k) == MatchFrom(pw, t, |a| + k);
      }
    }
  }

  /** A card match only looks at the character before it and the text from its start on. */
  lemma CardMatcherShifts(a: string, b: string)
    requires |a| == 0 || !IsWord(a[|a| - 1]) || |b| == 0 || !IsDigit(b[0])
    ensures ShiftsFrom(CardMatcher, a, b, 0)
  {
    forall k | 0 <= k <= |b| ensures ShiftAt(CardMatcher, a, b, k) {
      CardMatcherShiftsAt(a, b, k);
    }
  }

  /** A digit-free prefix that ends in a non-word character is copied unchanged. */
  lemma MaskAfterPrefix(pre: string, rest: string)
    requires forall i :: 0 <= i < |pre| ==> !IsDigit(pre[i])
    requires |pre| == 0 || !IsWord(pre[|pre| - 1])
    ensures Sub(CardMatcher, pre + rest, CardMask) == pre + Sub(CardMatcher, rest, CardMask)
  {
    var s := pre + rest;
    forall j | 0 <= j < |pre| ensures !MatchesAt(CardMatcher, s, j) {
      assert s[j] == pre[j];
    }
    SubCopiesUpTo(CardMatcher, s, 0, |pre|, CardMask);
    CardMatcherShifts(pre, rest);
    SubShift(CardMatcher, pre, rest, 0, CardMask);
    assert s[..|pre|] == pre;
  }

  /** A card number followed by a non-word character (or nothing) becomes the mask. */
  lemma MaskCardThen(card: string, post: string)
    requires |card| > 0 && MatchLenAfter(false, card) == |card|
    requires |post| == 0 || !IsWord(post[0])
    ensures Sub(CardMatcher, card + post, CardMask) == CardMask + Sub(CardMatcher, post, CardMask)
  {
    var s := card + post;
    assert s[0..] == s;
    GroupsLenExtend(card, post);
    if |post| > 0 {
      assert s[|card|] == post[0];
    }
    assert CardMatcher(s, 0).value.end == |card|;
    CardMatcherShifts(card, post);
    SubShift(CardMatcher, card, post, 0, CardMask);
  }

  /**
   * The text around a card number is kept: when the card stands alone between a digit-free
   * prefix ending in a non-word character and a suffix starting with one, only the card changes.
   */
  lemma MaskKeepsSurroundingText(pre: string, card: string, post: string)
    requires forall i :: 0 <= i < |pre| ==> !IsDigit(pre[i])
    requires |pre| == 0 || !IsWord(pre[|pre| - 1])
    requires |card| > 0 && MatchLenAfter(false, card) == |card|
    requires |post| == 0 || !IsWord(post[0])
    ensures MaskSensitiveData(pre + card + post) == pre + CardMask + MaskSensitiveData(post)
  {
    assert pre + card + post == pre + (card + post);
    MaskAfterPrefix(pre, card + post);
    MaskCardThen(card, post);
  }

  /** `tests/test_security.py`: the three spellings of a card number are masked whole. */
  lemma MaskDashedCard()
    ensures MaskSensitiveData("1234-5678-9012-3456") == CardMask
  {
    var t := "1234-5678-9012-3456";
    assert FourDigitsAt(t, 0) && t[4] == '-' && FourDigitsAt(t, 5) && t[9] == '-';
    assert FourDigitsAt(t, 10) && t[14] == '-' && FourDigitsAt(t, 15);
    CardExample(t);
  }

  lemma MaskSpacedCard()
    ensures MaskSensitiveData("1234 5678 9012 3456") == CardMask
  {
    var t := "1234 5678 9012 3456";
    assert FourDigitsAt(t, 0) && t[4] == ' ' && FourDigitsAt(t, 5) && t[9] == ' ';
    assert FourDigitsAt(t, 10) && t[14] == ' ' && FourDigitsAt(t, 15);
    CardExample(t);
  }

  lemma MaskPlainCard()
    ensures MaskSensitiveData("1234567890123456") == CardMask
  {
    var t := "1234567890123456";
    assert FourDigitsAt(t, 0) && FourDigitsAt(t, 4) && FourDigitsAt(t, 8) && FourDigitsAt(t, 12);
    CardExample(t);
  }

  /** `tests/test_security.py`: a card inside a sentence is masked and the words around it kept. */
  lemma MaskCardInSentence()
    ensures MaskSensitiveData("Text " + "1234-5678-9012-3456" + " end") == "Text " + CardMask + " end"
  {
    var t := "1234-5678-9012-3456";
    assert FourDigitsAt(t, 0) && t[4] == '-' && FourDigitsAt(t, 5) && t[9] == '-';
    assert FourDigitsAt(t, 10) && t[14] == '-' && FourDigitsAt(t, 15);
    MaskEndWord();
    MaskKeepsSurroundingText("Text ", t, " end");
  }

  lemma MaskEndWord()
    ensures MaskSensitiveData(" end") == " end"
  {
    MaskKeepsDigitFreeText(" end");
  }

  /** `tests/test_security.py`: text without a card number comes back unchanged. */
  lemma MaskTextWithoutCard()
    ensures MaskSensitiveData("No sensitive data") == "No sensitive data"
  {
    MaskKeepsDigitFreeText("No sensitive data");
  }

  lemma CardExample(card: string)
    requires |card| > 0 && MatchLenAfter(false, card) == |card|
    ensures MaskSensitiveData(card) == CardMask
  {
    MaskKeepsSurroundingText("", card, "");
    assert "" + card + "" == card;
  }
}
