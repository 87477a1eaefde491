/**
 * Two list shapes the modelled code builds with loops: keeping the first element per key
 * (the `seen` set idiom), and cutting a list into maximal runs of neighbouring elements
 * (the passage merging of the grep tool).
 */
module Collections {

  /** Element `i` of `xs` is the first one carrying its key. */
  predicate FirstOfKey<T, K(==)>(xs: seq<T>, key: T -> K, i: nat)
    requires i < |xs|
  {
    forall j :: 0 <= j < i ==> key(xs[j]) != key(xs[i])
  }

  /** The elements of `xs` that are the first with their key, in their original order. */
  function DedupBy<T, K(==)>(xs: seq<T>, key: T -> K): (r: seq<T>)
    ensures |r| <= |xs|
  {
    if |xs| == 0 then []
    else
      DedupBy(xs[..|xs| - 1], key)
        + (if FirstOfKey(xs, key, |xs| - 1) then [xs[|xs| - 1]] else [])
  }

  ghost function KeysOf<T, K>(xs: seq<T>, key: T -> K): set<K>
  {
    set i | 0 <= i < |xs| :: key(xs[i])
  }

  predicate DistinctKeys<T, K(==)>(xs: seq<T>, key: T -> K)
  {
    forall i, j :: 0 <= i < j < |xs| ==> key(xs[i]) != key(xs[j])
  }

  /** `x` is a new key for the prefix `xs` exactly when no element of `xs` carries it. */
  lemma FirstOfKeyIsNew<T, K>(xs: seq<T>, key: T -> K)
    requires |xs| > 0
    ensures FirstOfKey(xs, key, |xs| - 1) <==> key(xs[|xs| - 1]) !in KeysOf(xs[..|xs| - 1], key)
  {
    var init := xs[..|xs| - 1];
    if key(xs[|xs| - 1]) in KeysOf(init, key) {
      var j :| 0 <= j < |init| && key(init[j]) == key(xs[|xs| - 1]);
      assert key(xs[j]) == key(xs[|xs| - 1]);
    }
  }

  /** Appending one element adds its key to the key set. */
  lemma KeysOfSnoc<T, K>(xs: seq<T>, x: T, key: T -> K)
    ensures KeysOf(xs + [x], key) == KeysOf(xs, key) + {key(x)}
  {
    var ys := xs + [x];
    forall k | k in KeysOf(ys, key) ensures k in KeysOf(xs, key) + {key(x)} {
      var i :| 0 <= i < |ys| && key(ys[i]) == k;
      if i < |xs| { assert ys[i] == xs[i]; }
    }
    forall k | k in KeysOf(xs, key) ensures k in KeysOf(ys, key) {
      var i :| 0 <= i < |xs| && key(xs[i]) == k;
      assert ys[i] == xs[i];
    }
    assert ys[|xs|] == x;
  }

  /** Deduplication keeps every key exactly once: no key repeats, and none is lost. */
  lemma {:induction false} DedupByKeys<T, K>(xs: seq<T>, key: T -> K)
    ensures DistinctKeys(DedupBy(xs, key), key)
    ensures KeysOf(DedupBy(xs, key), key) == KeysOf(xs, key)
    decreases |xs|
  {
    if |xs| > 0 {
      var init := xs[..|xs| - 1];
      var x := xs[|xs| - 1];
      DedupByKeys(init, key);
      FirstOfKeyIsNew(xs, key);
      var d := DedupBy(init, key);
      assert xs == init + [x];
      KeysOfSnoc(init, x, key);
      if FirstOfKey(xs, key, |xs| - 1) {
        KeysOfSnoc(d, x, key);
        forall i | 0 <= i < |d| ensures key(d[i]) != key(x) {
          assert key(d[i]) in KeysOf(d, key);
        }
      } else {
        assert key(x) in KeysOf(init, key);
        assert DedupBy(xs, key) == d;
      }
    }
  }

  /** Every kept element is an element of the input, and the result keeps the input's order. */
  lemma {:induction false} DedupBySubsequence<T, K>(xs: seq<T>, key: T -> K, i: nat, j: nat)
    requires i < j < |DedupBy(xs, key)|
    ensures exists a, b :: 0 <= a < b < |xs| && DedupBy(xs, key)[i] == xs[a] && DedupBy(xs, key)[j] == xs[b]
    decreases |xs|
  {
    var init := xs[..|xs| - 1];
    var d := DedupBy(init, key);
    if j < |d| {
      DedupBySubsequence(init, key, i, j);
      var a, b :| 0 <= a < b < |init| && d[i] == init[a] && d[j] == init[b];
      assert DedupBy(xs, key)[i] == xs[a] && DedupBy(xs, key)[j] == xs[b];
    } else {
      DedupByMembers(init, key, i);
      var a :| 0 <= a < |init| && d[i] == init[a];
      assert DedupBy(xs, key)[i] == xs[a];
      assert DedupBy(xs, key)[j] == xs[|xs| - 1];
    }
  }

  lemma {:induction false} DedupByMembers<T, K>(xs: seq<T>, key: T -> K, i: nat)
    requires i < |DedupBy(xs, key)|
    ensures exists a :: 0 <= a < |xs| && DedupBy(xs, key)[i] == xs[a]
    decreases |xs|
  {
    var init := xs[..|xs| - 1];
    var d := DedupBy(init, key);
    if i < |d| {
      DedupByMembers(init, key, i);
      var a :| 0 <= a < |init| && d[i] == init[a];
      assert DedupBy(xs, key)[i] == xs[a];
    } else {
      assert DedupBy(xs, key)[i] == xs[|xs| - 1];
    }
  }

  /** One more element: it is kept exactly when its key has not been seen. */
  lemma DedupBySnoc<T, K>(xs: seq<T>, x: T, key: T -> K)
    ensures DedupBy(xs + [x], key) == DedupBy(xs, key) + (if key(x) in KeysOf(xs, key) then [] else [x])
  {
    var ys := xs + [x];
    assert ys[..|ys| - 1] == xs;
    FirstOfKeyIsNew(ys, key);
  }

  function Id<T>(x: T): T
  {
    x
  }

  /** `[f(x) for x in xs]`. */
  function MapSeq<A, B>(f: A -> B, xs: seq<A>): (r: seq<B>)
    ensures |r| == |xs|
    ensures forall i :: 0 <= i < |xs| ==> r[i] == f(xs[i])
  {
    if xs == [] then [] else MapSeq(f, xs[..|xs| - 1]) + [f(xs[|xs| - 1])]
  }

  /** Plain first-occurrence deduplication (`if x not in seen`). */
  function Dedup<T(==)>(xs: seq<T>): seq<T>
  {
    DedupBy(xs, Id)
  }

  /** One more element is kept exactly when it has not occurred before. */
  lemma DedupSnoc<T>(xs: seq<T>, x: T)
    ensures Dedup(xs + [x]) == Dedup(xs) + (if x in xs then [] else [x])
  {
    DedupBySnoc(xs, x, Id);
    if x in xs {
      var i :| 0 <= i < |xs| && xs[i] == x;
      assert Id(xs[i]) in KeysOf(xs, Id);
    }
  }

  /** Deduplication keeps every element once: no repeats, and the same elements as the input. */
  lemma DedupKeepsEachOnce<T>(xs: seq<T>)
    ensures forall i, j :: 0 <= i < j < |Dedup(xs)| ==> Dedup(xs)[i] != Dedup(xs)[j]
    ensures forall x :: x in Dedup(xs) <==> x in xs
  {
    var d := Dedup(xs);
    DedupByKeys(xs, Id);
    assert DistinctKeys(d, Id);
    forall x ensures x in d <==> x in xs {
      if x in d {
        var i :| 0 <= i < |d| && d[i] == x;
        assert Id(d[i]) in KeysOf(d, Id);
        var a :| 0 <= a < |xs| && Id(xs[a]) == x;
      }
      if x in xs {
        var a :| 0 <= a < |xs| && xs[a] == x;
        assert Id(xs[a]) in KeysOf(xs, Id);
        var i :| 0 <= i < |d| && Id(d[i]) == x;
      }
    }
  }

  // ---------------------------------------------------------------- runs

  function Flatten<T>(groups: seq<seq<T>>): seq<T>
  {
    if |groups| == 0 then [] else Flatten(groups[..|groups| - 1]) + groups[|groups| - 1]
  }

  /**
   * `groups` cuts `xs` into maximal runs: read in order they spell `xs`, none is empty,
   * neighbours inside a run are `near`, and the last of a run is not `near` the first of the next.
   */
  ghost predicate IsRunSplit<T>(xs: seq<T>, groups: seq<seq<T>>, near: (T, T) -> bool)
  {
    && Flatten(groups) == xs
    && (forall g :: 0 <= g < |groups| ==> |groups[g]| > 0)
    && (forall g, i :: 0 <= g < |groups| && 0 < i < |groups[g]| ==> near(groups[g][i - 1], groups[g][i]))
    && (forall g :: 0 < g < |groups| && |groups[g - 1]| > 0 && |groups[g]| > 0 ==>
          !near(groups[g - 1][|groups[g - 1]| - 1], groups[g][0]))
  }

  lemma FlattenSnoc<T>(groups: seq<seq<T>>, g: seq<T>)
    ensures Flatten(groups + [g]) == Flatten(groups) + g
  {
    assert (groups + [g])[..|groups|] == groups;
  }

  /** A slice of the second part of `a + b`, taken through the whole. */
  lemma SliceOfAppend<T>(a: seq<T>, b: seq<T>, lo: nat, hi: nat)
    requires lo <= hi <= |b|
    ensures (a + b)[|a| + lo..|a| + hi] == b[lo..hi]
  {
  }

  /** A slice inside a prefix is the same slice of the whole. */
  lemma SliceOfPrefix<T>(s: seq<T>, n: nat, lo: nat, hi: nat)
    requires lo <= hi <= n <= |s|
    ensures s[..n][lo..hi] == s[lo..hi]
  {
  }

  lemma AppendAssoc<T>(a: seq<T>, b: seq<T>, c: seq<T>)
    ensures a + (b + c) == (a + b) + c
  {
  }

  lemma FlattenExtendLast<T>(groups: seq<seq<T>>, x: T)
    requires |groups| > 0
    ensures Flatten(groups[..|groups| - 1] + [groups[|groups| - 1] + [x]]) == Flatten(groups) + [x]
  {
    var init := groups[..|groups| - 1];
    var last := groups[|groups| - 1];
    assert groups == init + [last];
    calc {
      Flatten(init + [last + [x]]);
      { FlattenSnoc(init, last + [x]); }
      Flatten(init) + (last + [x]);
      { AppendAssoc(Flatten(init), last, [x]); }
      (Flatten(init) + last) + [x];
      { FlattenSnoc(init, last); }
      Flatten(groups) + [x];
    }
  }

  /** Adding one element to a run split: it joins the last run when `near` its predecessor. */
  function RunsSnoc<T>(groups: seq<seq<T>>, x: T, near: (T, T) -> bool): seq<seq<T>>
  {
    if |groups| > 0 && |groups[|groups| - 1]| > 0
       && near(groups[|groups| - 1][|groups[|groups| - 1]| - 1], x)
    then groups[..|groups| - 1] + [groups[|groups| - 1] + [x]]
    else groups + [[x]]
  }

  /** Extending a run split of `xs` with `RunsSnoc` gives a run split of `xs + [x]`. */
  lemma RunsSnocSplits<T>(xs: seq<T>, groups: seq<seq<T>>, x: T, near: (T, T) -> bool)
    requires IsRunSplit(xs, groups, near)
    ensures IsRunSplit(xs + [x], RunsSnoc(groups, x, near), near)
  {
    var r := RunsSnoc(groups, x, near);
    if |groups| > 0 && |groups[|groups| - 1]| > 0
       && near(groups[|groups| - 1][|groups[|groups| - 1]| - 1], x) {
      FlattenExtendLast(groups, x);
      var n := |groups| - 1;
      forall g, i | 0 <= g < |r| && 0 < i < |r[g]| ensures near(r[g][i - 1], r[g][i]) {
        if g < n { assert r[g] == groups[g]; }
        else if i < |groups[n]| { assert r[g][i - 1] == groups[n][i - 1] && r[g][i] == groups[n][i]; }
      }
      forall g | 0 < g < |r| && |r[g - 1]| > 0 && |r[g]| > 0
        ensures !near(r[g - 1][|r[g - 1]| - 1], r[g][0])
      {
        assert r[g - 1] == groups[g - 1];
        assert r[g][0] == groups[g][0];
      }
    } else {
      FlattenSnoc(groups, [x]);
      forall g, i | 0 <= g < |r| && 0 < i < |r[g]| ensures near(r[g][i - 1], r[g][i]) {
        assert g < |groups|;
        assert r[g] == groups[g];
      }
    }
  }

  /** The maximal runs of `xs`, built by appending one element at a time. */
  function Runs<T>(xs: seq<T>, near: (T, T) -> bool): (groups: seq<seq<T>>)
    ensures IsRunSplit(xs, groups, near)
  {
    if |xs| == 0 then []
    else
      var init := xs[..|xs| - 1];
      RunsSnocSplits(init, Runs(init, near), xs[|xs| - 1], near);
      assert init + [xs[|xs| - 1]] == xs;
      RunsSnoc(Runs(init, near), xs[|xs| - 1], near)
  }

  /** The runs of one more element are the runs so far, extended by it. */
  lemma RunsPrefixStep<T>(xs: seq<T>, i: nat, near: (T, T) -> bool)
    requires i < |xs|
    ensures Runs(xs[..i + 1], near) == RunsSnoc(Runs(xs[..i], near), xs[i], near)
  {
    assert xs[..i + 1][..i] == xs[..i];
  }

  /** The first `n` runs of a run split form a run split of what they spell. */
  lemma RunSplitPrefix<T>(xs: seq<T>, groups: seq<seq<T>>, near: (T, T) -> bool, n: nat)
    requires IsRunSplit(xs, groups, near) && n <= |groups|
    ensures IsRunSplit(Flatten(groups[..n]), groups[..n], near)
  {
    var g0 := groups[..n];
    forall g, i | 0 <= g < |g0| && 0 < i < |g0[g]| ensures near(g0[g][i - 1], g0[g][i]) {
      assert g0[g] == groups[g];
    }
    forall g | 0 < g < |g0| && |g0[g - 1]| > 0 && |g0[g]| > 0
      ensures !near(g0[g - 1][|g0[g - 1]| - 1], g0[g][0])
    {
      assert g0[g - 1] == groups[g - 1] && g0[g] == groups[g];
    }
  }

  /** Removing the last element of a run split leaves a run split that `RunsSnoc` rebuilds. */
  lemma RunSplitDropLast<T>(xs: seq<T>, groups: seq<seq<T>>, near: (T, T) -> bool)
    returns (g0: seq<seq<T>>)
    requires IsRunSplit(xs, groups, near) && |xs| > 0
    ensures IsRunSplit(xs[..|xs| - 1], g0, near)
    ensures groups == RunsSnoc(g0, xs[|xs| - 1], near)
  {
    var n := |groups| - 1;
    var last := groups[n];
    var prefix := groups[..n];
    assert groups == prefix + [last];
    FlattenSnoc(prefix, last);
    RunSplitPrefix(xs, groups, near, n);
    if |last| == 1 {
      g0 := prefix;
      assert last == [xs[|xs| - 1]];
      assert Flatten(g0) == xs[..|xs| - 1];
      if n > 0 {
        assert groups[n - 1] == prefix[n - 1];
        assert !near(groups[n - 1][|groups[n - 1]| - 1], last[0]);
      }
    } else {
      g0 := DropLastOfLastRun(xs, groups, near);
    }
  }

  lemma DropLastOfLastRun<T>(xs: seq<T>, groups: seq<seq<T>>, near: (T, T) -> bool)
    returns (g0: seq<seq<T>>)
    requires IsRunSplit(xs, groups, near) && |groups| > 0 && |groups[|groups| - 1]| > 1
    ensures |xs| > 0 && IsRunSplit(xs[..|xs| - 1], g0, near)
    ensures groups == RunsSnoc(g0, xs[|xs| - 1], near)
  {
    var n := |groups| - 1;
    var last := groups[n];
    var prefix := groups[..n];
    var shorter := last[..|last| - 1];
    var x := last[|last| - 1];
    assert groups == prefix + [last];
    FlattenSnoc(prefix, last);
    RunSplitPrefix(xs, groups, near, n);
    g0 := prefix + [shorter];
    assert last == shorter + [x];
    FlattenSnoc(prefix, shorter);
    assert Flatten(g0) == xs[..|xs| - 1];
    forall g, i | 0 <= g < |g0| && 0 < i < |g0[g]| ensures near(g0[g][i - 1], g0[g][i]) {
      if g < n { assert g0[g] == groups[g]; }
      else { assert g0[g][i - 1] == last[i - 1] && g0[g][i] == last[i]; }
    }
    forall g | 0 < g < |g0| && |g0[g - 1]| > 0 && |g0[g]| > 0
      ensures !near(g0[g - 1][|g0[g - 1]| - 1], g0[g][0])
    {
      assert g0[g - 1] == groups[g - 1];
      assert g0[g][0] == groups[g][0];
    }
    assert near(last[|last| - 2], last[|last| - 1]);
    assert g0[..n] == prefix;
  }

  /** The run split of a list is unique: any split with the run properties is `Runs`. */
  lemma {:induction false} RunSplitUnique<T>(xs: seq<T>, groups: seq<seq<T>>, near: (T, T) -> bool)
    requires IsRunSplit(xs, groups, near)
    ensures groups == Runs(xs, near)
    decreases |xs|
  {
    if |xs| > 0 {
      var g0 := RunSplitDropLast(xs, groups, near);
      RunSplitUnique(xs[..|xs| - 1], g0, near);
    }
  }

  /** Elements each near the one before form a single run. */
  lemma SingleRun<T>(xs: seq<T>, near: (T, T) -> bool)
    requires |xs| > 0
    requires forall i :: 0 < i < |xs| ==> near(xs[i - 1], xs[i])
    ensures Runs(xs, near) == [xs]
  {
    assert Flatten([xs]) == xs by {
      assert [xs][..0] == [];
    }
    assert IsRunSplit(xs, [xs], near);
    RunSplitUnique(xs, [xs], near);
  }
}
