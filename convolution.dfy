/** numpy's discrete convolution in 'full' and 'same' mode, and the
    width-w box filter np.convolve(a, np.ones(w), 'same') / w that
    smooths a spike channel into a rate. */
module Convolution {
  import opened Numerics

  /** The first n terms of the full convolution sum at output index m:
      a[i] * v[m - i] for every i < n at which m - i indexes v. */
  function ConvPrefix(a: seq<real>, v: seq<real>, m: int, n: nat): real
    requires n <= |a|
  {
    if n == 0 then 0.0
    else ConvPrefix(a, v, m, n - 1) + (if 0 <= m - (n - 1) < |v| then a[n - 1] * v[m - (n - 1)] else 0.0)
  }

  /** np.convolve(a, v, 'full'): |a| + |v| - 1 outputs. */
  function FullConvolve(a: seq<real>, v: seq<real>): (r: seq<real>)
    requires |a| >= 1 && |v| >= 1
    ensures |r| == |a| + |v| - 1
  {
    seq(|a| + |v| - 1, m => ConvPrefix(a, v, m, |a|))
  }

  /** At output 0 only a[0] * v[0] overlaps. */
  lemma {:induction false} ConvPrefixFirst(a: seq<real>, v: seq<real>, n: nat)
    requires 1 <= n <= |a| && |v| >= 1
    ensures ConvPrefix(a, v, 0, n) == a[0] * v[0]
  {
    if n > 1 {
      ConvPrefixFirst(a, v, n - 1);
    }
  }

  /** At the last output no term before a[|a| - 1] overlaps v. */
  lemma {:induction false} ConvPrefixLast(a: seq<real>, v: seq<real>, n: nat)
    requires n < |a| && |v| >= 1
    ensures ConvPrefix(a, v, |a| + |v| - 2, n) == 0.0
  {
    if n > 0 {
      ConvPrefixLast(a, v, n - 1);
    }
  }

  /** The full convolution starts with a[0] * v[0] and ends with the
      product of the two last elements, where the operands just touch.
      Only 'same' mode is called on spike channels; its first output is
      that first full output when the shorter operand has at most two
      entries (a filter of width 1 or 2), since no entry is skipped. */
  lemma FullConvolveEnds(a: seq<real>, v: seq<real>)
    requires |a| >= 1 && |v| >= 1
    ensures FullConvolve(a, v)[0] == a[0] * v[0]
    ensures FullConvolve(a, v)[|a| + |v| - 2] == a[|a| - 1] * v[|v| - 1]
    ensures Min(|a|, |v|) <= 2 ==> SameConvolve(a, v)[0] == a[0] * v[0]
  {
    ConvPrefixFirst(a, v, |a|);
    ConvPrefixLast(a, v, |a| - 1);
  }

  /** Where 'same' mode starts inside the full convolution: numpy
      centres on the shorter operand, skipping (min(|a|, |v|) - 1) / 2. */
  function SameOffset(n: nat, w: nat): nat
    requires n >= 1 && w >= 1
  {
    (Min(n, w) - 1) / 2
  }

  /** np.convolve(a, v, 'same'): the max(|a|, |v|) middle entries of the
      full convolution. */
  function SameConvolve(a: seq<real>, v: seq<real>): (r: seq<real>)
    requires |a| >= 1 && |v| >= 1
    ensures |r| == Max(|a|, |v|)
  {
    var off := SameOffset(|a|, |v|);
    FullConvolve(a, v)[off .. off + Max(|a|, |v|)]
  }

  /** np.ones(w) */
  function Ones(w: nat): seq<real>
  {
    seq(w, _ => 1.0)
  }

  /** np.convolve(a, np.ones(w), 'same') / w */
  function MovingAverage(a: seq<real>, w: nat): (r: seq<real>)
    requires |a| >= 1 && w >= 1
    ensures |r| == Max(|a|, w)
  {
    var s := SameConvolve(a, Ones(w));
    seq(|s|, k requires 0 <= k < |s| => s[k] / w as real)
  }

  /** x clipped to [0, n]. */
  function Clip(x: int, n: nat): nat
  {
    if x < 0 then 0 else if x > n then n else x
  }

  /** The sum of a[lo..hi) with both bounds clipped to the series. */
  function WindowSum(a: seq<real>, lo: int, hi: int): real
    requires lo <= hi
  {
    Sum(a[Clip(lo, |a|)..Clip(hi, |a|)])
  }

  /** First index of the w-wide window behind output k of MovingAverage. */
  function WindowStart(n: nat, w: nat, k: int): int
    requires n >= 1 && w >= 1
  {
    k + SameOffset(n, w) - w + 1
  }

  /** Convolving with ones sums the samples in the window (m - w, m],
      clipped to the samples seen so far. */
  lemma {:induction false} ConvOnesPrefix(a: seq<real>, w: nat, m: int, n: nat)
    requires n <= |a|
    ensures Clip(m - w + 1, n) <= Clip(m + 1, n)
    ensures ConvPrefix(a, Ones(w), m, n) == Sum(a[Clip(m - w + 1, n)..Clip(m + 1, n)])
  {
    if n > 0 {
      ConvOnesPrefix(a, w, m, n - 1);
      var j := n - 1;
      if m - w + 1 <= j <= m {
        var lo := Clip(m - w + 1, n);
        assert lo == Clip(m - w + 1, n - 1);
        SumSliceLast(a, lo, n);
        assert Ones(w)[m - j] == 1.0;
      }
    }
  }

  /** Each output of the box filter is the sum of the w-wide window
      starting at WindowStart, clipped to the series, divided by w. */
  lemma MovingAverageAt(a: seq<real>, w: nat, k: nat)
    requires |a| >= 1 && w >= 1 && k < Max(|a|, w)
    ensures MovingAverage(a, w)[k] == WindowSum(a, WindowStart(|a|, w, k), WindowStart(|a|, w, k) + w) / w as real
  {
    var off := SameOffset(|a|, w);
    assert SameConvolve(a, Ones(w))[k] == FullConvolve(a, Ones(w))[off + k];
    ConvOnesPrefix(a, w, off + k, |a|);
  }

  /** A clipped w-wide window holds at most w samples. */
  lemma WindowWidth(n: nat, lo: int, w: nat)
    requires w >= 1
    ensures Clip(lo, n) <= Clip(lo + w, n)
    ensures Clip(lo + w, n) - Clip(lo, n) <= w
    ensures Clip(lo + w, n) - Clip(lo, n) == w <==> 0 <= lo && lo + w <= n
  {
  }

  /** A sum of at most w terms in [0, mx], divided by w, lies in [0, mx]. */
  lemma ScaledBound(x: real, len: nat, w: nat, mx: real)
    requires 1 <= w && len <= w && 0.0 <= mx
    requires 0.0 <= x <= len as real * mx
    ensures 0.0 <= x / w as real <= mx
  {
    var wr := w as real;
    MulLe(len as real, wr, mx);
    DivNonNeg(x, wr);
    DivAtMost(x, wr, mx);
  }

  /** A slice of samples in [0, mx] sums to between 0 and its length times mx. */
  lemma SliceSumBounded(a: seq<real>, lo: nat, hi: nat, mx: real)
    requires lo <= hi <= |a|
    requires forall i :: 0 <= i < |a| ==> 0.0 <= a[i] <= mx
    ensures 0.0 <= Sum(a[lo..hi]) <= (hi - lo) as real * mx
  {
    var s := a[lo..hi];
    forall i | 0 <= i < |s|
      ensures 0.0 <= s[i] <= mx
    {
      assert s[i] == a[lo + i];
    }
    SumBounds(s, 0.0, mx);
  }

  /** A slice of at most w samples in [0, mx], summed and divided by w,
      lies in [0, mx]. */
  lemma SliceAverageBounded(a: seq<real>, lo: nat, hi: nat, w: nat, mx: real)
    requires lo <= hi <= |a| && 1 <= |a| && hi - lo <= w && 1 <= w
    requires forall i :: 0 <= i < |a| ==> 0.0 <= a[i] <= mx
    ensures 0.0 <= Sum(a[lo..hi]) / w as real <= mx
  {
    SliceSumBounded(a, lo, hi, mx);
    assert 0.0 <= mx by {
      assert 0.0 <= a[0] <= mx;
    }
    ScaledBound(Sum(a[lo..hi]), hi - lo, w, mx);
  }

  /** A clipped w-wide window of samples in [0, mx], divided by w, lies in [0, mx]. */
  lemma WindowAverageBounded(a: seq<real>, lo: int, w: nat, mx: real)
    requires |a| >= 1 && w >= 1
    requires forall i :: 0 <= i < |a| ==> 0.0 <= a[i] <= mx
    ensures 0.0 <= WindowSum(a, lo, lo + w) / w as real <= mx
  {
    WindowWidth(|a|, lo, w);
    SliceAverageBounded(a, Clip(lo, |a|), Clip(lo + w, |a|), w, mx);
  }

  /** Samples in [0, mx] give rates in [0, mx]. */
  lemma {:induction false} MovingAverageBounded(a: seq<real>, w: nat, mx: real)
    requires |a| >= 1 && w >= 1
    requires forall i :: 0 <= i < |a| ==> 0.0 <= a[i] <= mx
    ensures forall k :: 0 <= k < Max(|a|, w) ==> 0.0 <= MovingAverage(a, w)[k] <= mx
  {
    forall k | 0 <= k < Max(|a|, w)
      ensures 0.0 <= MovingAverage(a, w)[k] <= mx
    {
      MovingAverageAt(a, w, k);
      WindowAverageBounded(a, WindowStart(|a|, w, k), w, mx);
    }
  }

  /** len / w for a count len <= w is 1 exactly when len == w. */
  lemma CountRatio(len: nat, w: nat)
    requires 1 <= w && len <= w
    ensures 0.0 <= len as real / w as real <= 1.0
    ensures len as real / w as real == 1.0 <==> len == w
  {
    var q := len as real / w as real;
    assert q * (w as real) == len as real;
    if len < w {
      assert q < 1.0;
    }
  }

  /** Over an all-ones series, a clipped w-wide window divided by w is 1
      exactly when the window lies inside, and in [0, 1] always. */
  lemma WindowAverageOfOnes(a: seq<real>, lo: int, w: nat)
    requires w >= 1
    requires forall i :: 0 <= i < |a| ==> a[i] == 1.0
    ensures WindowSum(a, lo, lo + w) / w as real == 1.0 <==> 0 <= lo && lo + w <= |a|
    ensures 0.0 <= WindowSum(a, lo, lo + w) / w as real <= 1.0
  {
    WindowWidth(|a|, lo, w);
    var s := a[Clip(lo, |a|)..Clip(lo + w, |a|)];
    SumConstant(s, 1.0);
    CountRatio(|s|, w);
  }

  /** On an all-ones channel an output is exactly 1 when its whole window
      lies inside the series and strictly below 1 when the window is
      clipped, because the clipped sum is still divided by w. With w >= 2
      the first output is such a boundary output. */
  lemma {:induction false} MovingAverageOfOnes(a: seq<real>, w: nat, k: nat)
    requires |a| >= 1 && w >= 1 && k < Max(|a|, w)
    requires forall i :: 0 <= i < |a| ==> a[i] == 1.0
    ensures var lo := WindowStart(|a|, w, k);
      MovingAverage(a, w)[k] == 1.0 <==> 0 <= lo && lo + w <= |a|
    ensures 0.0 <= MovingAverage(a, w)[k] <= 1.0
    ensures w >= 2 && k == 0 ==> MovingAverage(a, w)[k] < 1.0
  {
    MovingAverageAt(a, w, k);
    WindowAverageOfOnes(a, WindowStart(|a|, w, k), w);
  }
}
