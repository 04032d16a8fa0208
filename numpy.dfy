/** The numpy operations the simulator's bookkeeping relies on, over exact reals:
    `np.sum`, `np.interp`, `np.diff`, `max`/`min` reductions, `np.sort` and
    `np.searchsorted(side='left')`. */
module Numpy {
  import opened Wrappers

  /** Strictly increasing, the shape of a wavelength grid. */
  predicate Increasing(s: seq<real>) {
    forall i, j :: 0 <= i < j < |s| ==> s[i] < s[j]
  }

  /** Sorted in ascending order (ties allowed), what `np.sort` produces. */
  predicate NonDecreasing(s: seq<real>) {
    forall i, j :: 0 <= i <= j < |s| ==> s[i] <= s[j]
  }

  /** `np.sum`: the sum of the elements; an empty sequence sums to 0. */
  function Sum(s: seq<real>): real {
    if |s| == 0 then 0.0 else Sum(s[..|s| - 1]) + s[|s| - 1]
  }

  lemma {:induction false} SumConcat(a: seq<real>, b: seq<real>)
    ensures Sum(a + b) == Sum(a) + Sum(b)
  {
    if |b| == 0 {
      assert a + b == a;
    } else {
      var b' := b[..|b| - 1];
      assert (a + b)[..|a + b| - 1] == a + b';
      assert (a + b)[|a + b| - 1] == b[|b| - 1];
      SumConcat(a, b');
    }
  }

  /** Summing a slice in two adjacent pieces. */
  lemma SumSplit(s: seq<real>, i: nat, j: nat, k: nat)
    requires i <= j <= k <= |s|
    ensures Sum(s[i..k]) == Sum(s[i..j]) + Sum(s[j..k])
  {
    assert s[i..k] == s[i..j] + s[j..k];
    SumConcat(s[i..j], s[j..k]);
  }

  /** `np.repeat(v, n)` of a scalar: `n` copies of `v`. */
  function Repeat(v: real, n: nat): (r: seq<real>)
    ensures |r| == n
    ensures forall i :: 0 <= i < n ==> r[i] == v
  {
    seq(n, _ => v)
  }

  /** Elementwise product of two arrays of one length (`a * b`). */
  function Times(a: seq<real>, b: seq<real>): (r: seq<real>)
    requires |a| == |b|
    ensures |r| == |a|
    ensures forall i :: 0 <= i < |a| ==> r[i] == a[i] * b[i]
  {
    seq(|a|, i requires 0 <= i < |a| => a[i] * b[i])
  }

  /** Every element times one scalar (`a * k`). */
  function Scale(a: seq<real>, k: real): (r: seq<real>)
    ensures |r| == |a|
    ensures forall i :: 0 <= i < |a| ==> r[i] == a[i] * k
  {
    seq(|a|, i requires 0 <= i < |a| => a[i] * k)
  }

  /** Multiplying by ones changes nothing. */
  lemma TimesOnes(a: seq<real>)
    ensures Times(a, Repeat(1.0, |a|)) == a
  {
  }

  /** `a *= b` on a one-dimensional array. */
  method TimesInPlace(a: array<real>, b: seq<real>)
    requires |b| == a.Length
    modifies a
    ensures a[..] == Times(old(a[..]), b)
  {
    ghost var before := a[..];
    forall i | 0 <= i < a.Length {
      a[i] := a[i] * b[i];
    }
    ghost var expected := Times(before, b);
    forall i | 0 <= i < a.Length ensures a[..][i] == expected[i] {
      assert a[i] == before[i] * b[i];
    }
    assert a[..] == expected;
  }

  /** `a *= k` for a scalar `k`. */
  method ScaleInPlace(a: array<real>, k: real)
    modifies a
    ensures a[..] == Scale(old(a[..]), k)
  {
    ghost var before := a[..];
    forall i | 0 <= i < a.Length {
      a[i] := a[i] * k;
    }
    ghost var expected := Scale(before, k);
    forall i | 0 <= i < a.Length ensures a[..][i] == expected[i] {
      assert a[i] == before[i] * k;
    }
    assert a[..] == expected;
  }

  /** Python's `s[i]`: a negative index counts from the end. */
  function PyIndex(i: int, n: nat): (k: Option<nat>)
    ensures k.Some? ==> k.value < n && (k.value == i || k.value == n + i)
    ensures k.None? <==> i >= n || i < -(n as int)
  {
    if 0 <= i < n then Some(i) else if -(n as int) <= i < 0 then Some(n as int + i) else None
  }

  function Min(a: nat, b: nat): nat {
    if a <= b then a else b
  }

  /** A Python slice `s[lo:hi]` with in-range bounds: empty when `lo >= hi`. */
  function PySlice(s: seq<real>, lo: nat, hi: nat): (r: seq<real>)
    requires lo <= |s| && hi <= |s|
    ensures lo <= hi ==> r == s[lo..hi]
    ensures hi < lo ==> r == []
  {
    if lo <= hi then s[lo..hi] else []
  }

  /** `np.diff`: the differences of consecutive elements. */
  function Diff(s: seq<real>): (d: seq<real>)
    ensures |d| == if |s| == 0 then 0 else |s| - 1
    ensures forall i :: 0 <= i < |d| ==> d[i] == s[i + 1] - s[i]
  {
    if |s| == 0 then [] else seq(|s| - 1, i requires 0 <= i < |s| - 1 => s[i + 1] - s[i])
  }

  /** The `max()` reduction of a non-empty sequence. */
  function MaxOf(s: seq<real>): (m: real)
    requires |s| > 0
    ensures forall i :: 0 <= i < |s| ==> s[i] <= m
    ensures exists i :: 0 <= i < |s| && s[i] == m
  {
    if |s| == 1 then s[0]
    else
      var rest := MaxOf(s[1..]);
      assert forall i :: 1 <= i < |s| ==> s[i] == s[1..][i - 1];
      if s[0] >= rest then s[0] else rest
  }

  /** `np.nanmin` of a non-empty sequence (there are no NaNs among reals). */
  function MinOf(s: seq<real>): (m: real)
    requires |s| > 0
    ensures forall i :: 0 <= i < |s| ==> m <= s[i]
    ensures exists i :: 0 <= i < |s| && s[i] == m
  {
    if |s| == 1 then s[0]
    else
      var rest := MinOf(s[1..]);
      assert forall i :: 1 <= i < |s| ==> s[i] == s[1..][i - 1];
      if s[0] <= rest then s[0] else rest
  }

  /** One point of `np.interp(x, xp, fp, left, right)`. numpy tests the right
      end first, then the left end, and otherwise interpolates linearly on the
      segment of `xp` holding `x`; exactly at a sample point it returns that
      sample's value. */
  function Interp(x: real, xp: seq<real>, fp: seq<real>, left: real, right: real): (y: real)
    requires 0 < |xp| == |fp|
    ensures x > xp[|xp| - 1] ==> y == right
    ensures x < xp[0] && x <= xp[|xp| - 1] ==> y == left
  {
    if x > xp[|xp| - 1] then right
    else if x < xp[0] then left
    else InterpFrom(x, xp, fp, 0)
  }

  /** `np.interp` with its default ends: the first and the last sample value. */
  function InterpDefault(x: real, xp: seq<real>, fp: seq<real>): real
    requires 0 < |xp| == |fp|
  {
    Interp(x, xp, fp, fp[0], fp[|fp| - 1])
  }

  /** Linear interpolation on the first segment `[xp[j], xp[j+1])` at or after `j`
      that holds `x`. */
  function InterpFrom(x: real, xp: seq<real>, fp: seq<real>, j: nat): real
    requires |xp| == |fp| && j < |xp|
    decreases |xp| - j
  {
    if j == |xp| - 1 then fp[j]
    else if x < xp[j + 1] then
      if x == xp[j] || xp[j + 1] == xp[j] then fp[j]
      else fp[j] + (fp[j + 1] - fp[j]) / (xp[j + 1] - xp[j]) * (x - xp[j])
    else InterpFrom(x, xp, fp, j + 1)
  }

  lemma {:induction false} InterpFromKnot(xp: seq<real>, fp: seq<real>, j: nat, k: nat)
    requires |xp| == |fp| && j <= k < |xp| && Increasing(xp)
    ensures InterpFrom(xp[k], xp, fp, j) == fp[k]
    decreases k - j
  {
    if j < k {
      InterpFromKnot(xp, fp, j + 1, k);
    }
  }

  /** On an increasing grid, interpolating at a sample point gives back that
      sample's value, whatever `left` and `right` are. */
  lemma InterpAtKnot(xp: seq<real>, fp: seq<real>, k: nat, left: real, right: real)
    requires 0 < |xp| == |fp| && k < |xp| && Increasing(xp)
    ensures Interp(xp[k], xp, fp, left, right) == fp[k]
  {
    InterpFromKnot(xp, fp, 0, k);
  }

  /** Inserting into a sorted sequence; the head is the smaller of `x` and the old head. */
  function Insert(x: real, s: seq<real>): (r: seq<real>)
    requires NonDecreasing(s)
    ensures |r| == |s| + 1
    ensures r[0] == if s == [] || x <= s[0] then x else s[0]
    ensures NonDecreasing(r)
    ensures multiset(r) == multiset(s) + multiset{x}
  {
    if s == [] || x <= s[0] then [x] + s
    else
      assert s == [s[0]] + s[1..];
      var rest := Insert(x, s[1..]);
      assert s[0] <= rest[0];
      [s[0]] + rest
  }

  /** `np.sort`: an ascending permutation of the input (insertion sort). */
  function Sort(s: seq<real>): (r: seq<real>)
    ensures NonDecreasing(r)
    ensures multiset(r) == multiset(s)
    ensures |r| == |s|
  {
    if s == [] then []
    else
      assert s == [s[0]] + s[1..];
      Insert(s[0], Sort(s[1..]))
  }

  /** Sorting what is already sorted changes nothing. */
  lemma {:induction false} SortSorted(s: seq<real>)
    requires NonDecreasing(s)
    ensures Sort(s) == s
  {
    if s != [] {
      SortSorted(s[1..]);
      assert s == [s[0]] + s[1..];
    }
  }

  /** `np.searchsorted(a, v, side='left')`: the index of the first element of
      `a` that is not below `v` (the length of the leading run below `v`). On a
      sorted `a` this is numpy's documented result `a[i-1] < v <= a[i]`. */
  function SearchLeft(a: seq<real>, v: real): (i: nat)
    ensures i <= |a|
  {
    if |a| == 0 || v <= a[0] then 0 else 1 + SearchLeft(a[1..], v)
  }

  /** Everything before the search index is below `v`, and the element at the
      index, when there is one, is not. */
  lemma {:induction false} SearchLeftSplits(a: seq<real>, v: real)
    ensures forall j :: 0 <= j < SearchLeft(a, v) ==> a[j] < v
    ensures SearchLeft(a, v) < |a| ==> v <= a[SearchLeft(a, v)]
  {
    if |a| > 0 && a[0] < v {
      SearchLeftSplits(a[1..], v);
      assert forall j :: 1 <= j < |a| ==> a[j] == a[1..][j - 1];
    }
  }

  /** On a sorted sequence every element from the search index on is at least `v`. */
  lemma SearchLeftSorted(a: seq<real>, v: real)
    requires NonDecreasing(a)
    ensures forall j :: SearchLeft(a, v) <= j < |a| ==> v <= a[j]
  {
    SearchLeftSplits(a, v);
    var i := SearchLeft(a, v);
    forall j | i <= j < |a| ensures v <= a[j] {
      assert v <= a[i] && a[i] <= a[j];
    }
  }

  /** The search index never decreases as the key grows, for any sequence. */
  lemma SearchLeftMonotone(a: seq<real>, v1: real, v2: real)
    requires v1 <= v2
    ensures SearchLeft(a, v1) <= SearchLeft(a, v2)
  {
  }
}
