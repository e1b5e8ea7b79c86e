/**
  The centred moving average of `_simulate_smoothed_data`: for each index the
  mean of the window `[max(0, i - 1), min(n, i + 2))`, so three neighbours
  inside the series and two at either end, never wrapping or padding.
 */
module Smoothing {

  /** The window size of the source, in years. */
  const WindowSize: nat := 3

  function Sum(s: seq<real>): real
  {
    if |s| == 0 then 0.0 else s[0] + Sum(s[1..])
  }

  /** `np.mean` of a non-empty sequence. */
  function Mean(s: seq<real>): real
    requires |s| > 0
  {
    Sum(s) / |s| as real
  }

  /** The least element of a non-empty sequence. */
  function Min(s: seq<real>): (m: real)
    requires |s| > 0
    ensures m in s
    ensures forall k :: 0 <= k < |s| ==> m <= s[k]
  {
    if |s| == 1 then s[0]
    else
      var rest := Min(s[1..]);
      assert forall k :: 1 <= k < |s| ==> s[k] == s[1..][k - 1];
      if s[0] <= rest then s[0] else rest
  }

  /** The greatest element of a non-empty sequence. */
  function Max(s: seq<real>): (m: real)
    requires |s| > 0
    ensures m in s
    ensures forall k :: 0 <= k < |s| ==> s[k] <= m
  {
    if |s| == 1 then s[0]
    else
      var rest := Max(s[1..]);
      assert forall k :: 1 <= k < |s| ==> s[k] == s[1..][k - 1];
      if s[0] >= rest then s[0] else rest
  }

  /** The slice bounds `[start, end)` of the window around index `i` of a
      series of length `n`. Every window holds its own index; a series of two
      or more values gets windows of two at the ends and of three inside. */
  function Window(n: nat, i: nat): (w: (nat, nat))
    requires i < n
    ensures w.0 <= i < w.1 <= n
    ensures w.1 - w.0 <= WindowSize
    ensures n >= 2 ==> w.1 - w.0 == if i == 0 || i == n - 1 then 2 else 3
    ensures n == 1 ==> w == (0, 1)
  {
    var half := WindowSize / 2;
    (if i < half then 0 else i - half, if i + half + 1 < n then i + half + 1 else n)
  }

  /** The values under the window around index `i`. */
  function WindowOf(xs: seq<real>, i: nat): seq<real>
    requires i < |xs|
  {
    xs[Window(|xs|, i).0 .. Window(|xs|, i).1]
  }

  lemma SumOfShort(s: seq<real>)
    requires 1 <= |s| <= 3
    ensures |s| == 1 ==> Sum(s) == s[0]
    ensures |s| == 2 ==> Sum(s) == s[0] + s[1]
    ensures |s| == 3 ==> Sum(s) == s[0] + s[1] + s[2]
  {
    if |s| >= 2 {
      assert s[1..][1..] == s[2..];
      if |s| == 3 {
        assert s[2..][1..] == [];
      } else {
        assert s[1..][1..] == [];
      }
    } else {
      assert s[1..] == [];
    }
  }

  /** The mean of one, two or three values, written out. */
  lemma MeanOfShort(s: seq<real>)
    requires 1 <= |s| <= 3
    ensures |s| == 1 ==> Mean(s) == s[0]
    ensures |s| == 2 ==> Mean(s) == (s[0] + s[1]) / 2.0
    ensures |s| == 3 ==> Mean(s) == (s[0] + s[1] + s[2]) / 3.0
  {
    SumOfShort(s);
  }

  /** A window's mean lies between the window's least and greatest value. */
  lemma {:induction false} WindowMeanBetween(s: seq<real>)
    requires 1 <= |s| <= 3
    ensures Min(s) <= Mean(s) <= Max(s)
  {
    MeanOfShort(s);
    var lo, hi := Min(s), Max(s);
    assert forall k :: 0 <= k < |s| ==> lo <= s[k] <= hi;
  }

  /** The window around `i`, element by element. */
  lemma WindowContents(xs: seq<real>, i: nat)
    requires i < |xs|
    ensures 0 < i < |xs| - 1 ==> WindowOf(xs, i) == [xs[i - 1], xs[i], xs[i + 1]]
    ensures |xs| >= 2 && i == 0 ==> WindowOf(xs, i) == [xs[0], xs[1]]
    ensures |xs| >= 2 && i == |xs| - 1 ==> WindowOf(xs, i) == [xs[i - 1], xs[i]]
    ensures |xs| == 1 ==> WindowOf(xs, i) == [xs[0]]
  {
  }

  /** The smoothed value at index `i`: the mean of its window, written out
      for inner indices, the two ends and a single-value series. */
  function SmoothedAt(xs: seq<real>, i: nat): (v: real)
    requires i < |xs|
    ensures 0 < i < |xs| - 1 ==> v == (xs[i - 1] + xs[i] + xs[i + 1]) / 3.0
    ensures |xs| >= 2 && i == 0 ==> v == (xs[0] + xs[1]) / 2.0
    ensures |xs| >= 2 && i == |xs| - 1 ==> v == (xs[i - 1] + xs[i]) / 2.0
    ensures |xs| == 1 ==> v == xs[0]
  {
    var w := WindowOf(xs, i);
    MeanOfShort(w);
    WindowContents(xs, i);
    Mean(w)
  }

  /** Each smoothed value lies between the least and the greatest value of
      its window. */
  lemma {:induction false} SmoothedWithinWindow(xs: seq<real>, i: nat)
    requires i < |xs|
    ensures Min(WindowOf(xs, i)) <= SmoothedAt(xs, i) <= Max(WindowOf(xs, i))
  {
    WindowMeanBetween(WindowOf(xs, i));
  }

  /** The differences of two series whose moving averages agree follow the
      pattern `d, -d, 0` from the first element on. */
  lemma {:induction false} AgreeingDifferences(d: seq<real>, k: nat)
    requires 2 <= |d| && k < |d|
    requires d[0] + d[1] == 0.0
    requires forall i :: 0 < i < |d| - 1 ==> d[i - 1] + d[i] + d[i + 1] == 0.0
    ensures d[k] == if k % 3 == 0 then d[0] else if k % 3 == 1 then -d[0] else 0.0
    decreases k
  {
    if k >= 2 {
      AgreeingDifferences(d, k - 1);
      AgreeingDifferences(d, k - 2);
      assert d[k - 2] + d[k - 1] + d[k] == 0.0;
    }
  }

  /** Unless the length leaves a remainder of two when divided by three, the
      moving average loses nothing: two series of that length with the same
      smoothed values are equal. */
  lemma {:induction false} SmoothingDeterminesSeries(xs: seq<real>, ys: seq<real>)
    requires |xs| == |ys| && |xs| % 3 != 2
    ensures (forall i :: 0 <= i < |xs| ==> SmoothedAt(xs, i) == SmoothedAt(ys, i)) <==> xs == ys
  {
    var n := |xs|;
    if forall i :: 0 <= i < n ==> SmoothedAt(xs, i) == SmoothedAt(ys, i) {
      if n == 1 {
        assert SmoothedAt(xs, 0) == xs[0] && SmoothedAt(ys, 0) == ys[0];
      } else if n >= 2 {
        var d := seq(n, i requires 0 <= i < n => xs[i] - ys[i]);
        assert SmoothedAt(xs, 0) == SmoothedAt(ys, 0);
        assert d[0] + d[1] == 0.0;
        forall i | 0 < i < n - 1
          ensures d[i - 1] + d[i] + d[i + 1] == 0.0
        {
          assert SmoothedAt(xs, i) == SmoothedAt(ys, i);
        }
        assert SmoothedAt(xs, n - 1) == SmoothedAt(ys, n - 1);
        assert d[n - 2] + d[n - 1] == 0.0;
        AgreeingDifferences(d, n - 2);
        AgreeingDifferences(d, n - 1);
        assert d[0] == 0.0;
        forall k | 0 <= k < n
          ensures xs[k] == ys[k]
        {
          AgreeingDifferences(d, k);
        }
      }
    }
  }

  /** With a length of two the moving average forgets the difference of the
      two values: both ends are the mean of the whole series. */
  lemma SmoothingForgetsPairs()
    ensures SmoothedAt([1.0, -1.0], 0) == SmoothedAt([0.0, 0.0], 0)
    ensures SmoothedAt([1.0, -1.0], 1) == SmoothedAt([0.0, 0.0], 1)
  {
  }

  /** `_simulate_smoothed_data` on a given series: one value per input value,
      each the mean of its centred window. */
  function Smooth(xs: seq<real>): (ys: seq<real>)
    ensures |ys| == |xs|
    ensures forall i :: 0 <= i < |xs| ==> ys[i] == SmoothedAt(xs, i)
  {
    seq(|xs|, i requires 0 <= i < |xs| => SmoothedAt(xs, i))
  }

  /** Smoothing leaves a constant series unchanged. */
  lemma {:induction false} SmoothConstant(xs: seq<real>, c: real)
    requires forall k :: 0 <= k < |xs| ==> xs[k] == c
    ensures Smooth(xs) == xs
  {
    var ys := Smooth(xs);
    forall i | 0 <= i < |xs|
      ensures ys[i] == c
    {
      var w := WindowOf(xs, i);
      SmoothedWithinWindow(xs, i);
      assert Min(w) in w && Max(w) in w;
      assert forall x :: x in w ==> x == c;
    }
  }

  /** The loop of `_simulate_smoothed_data`, appending one window mean per
      index. */
  method SmoothSeries(xs: seq<real>) returns (ys: seq<real>)
    ensures ys == Smooth(xs)
  {
    ys := [];
    var i := 0;
    while i < |xs|
      invariant 0 <= i <= |xs|
      invariant ys == Smooth(xs)[..i]
    {
      var w := Window(|xs|, i);
      ys := ys + [Mean(xs[w.0 .. w.1])];
      i := i + 1;
    }
  }
}
