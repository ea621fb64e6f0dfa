/** The population statistics of python/plot_data.py: the per-timestep
    population vector and the windowed mean pairwise correlation. The
    plotting functions around them are not part of this model. */
module PlotData {
  import opened Numerics
  import opened Convolution
  import opened SpikeData

  /** The exceptions the two statistics can raise. */
  datatype StatsError =
    | AxisError         // np.mean(spike_rates, axis=1) on the 1-D empty rates of a table without channels
    | BroadcastError    // max(T, w) rates assigned into a column of T rows, when T < w
    | ScalarIndexError  // triangle indices into the scalar np.corrcoef returns for one channel

  /** Mean activity of every timestep (np.mean(spike_times, axis=1)). */
  function RowMeans(m: seq<seq<real>>, n: nat): (r: seq<real>)
    requires IsMatrix(m, n) && n > 0
    ensures |r| == |m|
  {
    seq(|m|, t requires 0 <= t < |m| => Mean(m[t]))
  }

  /** Each per-row mean times the channel count is that row's total, and
      the means together sum to the table's total over n. */
  lemma RowMeansTotal(m: seq<seq<real>>, n: nat)
    requires IsMatrix(m, n) && n > 0
    ensures forall t :: 0 <= t < |m| ==> RowMeans(m, n)[t] * n as real == Sum(m[t])
    ensures Sum(RowMeans(m, n)) == Sum(seq(|m|, i requires 0 <= i < |m| => Sum(m[i]))) / n as real
  {
    var means := RowMeans(m, n);
    forall t | 0 <= t < |m|
      ensures means[t] * n as real == Sum(m[t])
    {
      DivMul(Sum(m[t]), n as real);
    }
    var rows := seq(|m|, i requires 0 <= i < |m| => Sum(m[i]));
    SumDiv(rows, means, n as real);
  }

  /** get_population_vector: a T x 2 matrix whose row t holds the mean
      over channels of spike_times[t] and of spike_rates[t]. */
  function PopulationVector(d: SpikeDataset): (r: Result<seq<seq<real>>, StatsError>)
    requires d.Valid()
    reads d, d.spikeRates
    ensures r.Err? <==> d.channels == 0 || d.spikeRates.Length0 != |d.spikeTimes|
    ensures r.Err? ==> r.error == if d.channels == 0 then AxisError else BroadcastError
    ensures r.Ok? ==> |r.value| == |d.spikeTimes| && IsMatrix(r.value, 2)
    ensures r.Ok? ==> forall t :: 0 <= t < |r.value| ==>
      r.value[t][0] == Mean(d.spikeTimes[t]) && r.value[t][1] == Mean(d.RatesMatrix()[t])
  {
    if d.channels == 0 then
      Err(AxisError)
    else if d.spikeRates.Length0 != |d.spikeTimes| then
      Err(BroadcastError)
    else
      var activity := RowMeans(d.spikeTimes, d.channels);
      var rate := RowMeans(d.RatesMatrix(), d.channels);
      Ok(seq(|d.spikeTimes|, t requires 0 <= t < |d.spikeTimes| => [activity[t], rate[t]]))
  }

  /** The rows of spikes inside the (clipped) w-wide window behind rate t. */
  function SmoothingRows(spikes: seq<seq<real>>, w: nat, t: nat): seq<seq<real>>
    requires |spikes| >= 1 && w >= 1
  {
    var lo := WindowStart(|spikes|, w, t);
    WindowWidth(|spikes|, lo, w);
    spikes[Clip(lo, |spikes|)..Clip(lo + w, |spikes|)]
  }

  /** The box-filter sum behind rate t of channel c is the total of
      column c over the window's rows. */
  lemma ColumnWindowSums(spikes: seq<seq<real>>, n: nat, w: nat, t: nat)
    requires IsMatrix(spikes, n) && n > 0 && |spikes| >= w >= 1 && t < |spikes|
    ensures var m := SmoothingRows(spikes, w, t);
      var lo := WindowStart(|spikes|, w, t);
      forall c :: 0 <= c < n ==> WindowSum(Column(spikes, c), lo, lo + w) == Sum(Column(m, c))
  {
    var T := |spikes|;
    var lo := WindowStart(T, w, t);
    WindowWidth(T, lo, w);
    var m := SmoothingRows(spikes, w, t);
    forall c | 0 <= c < n
      ensures Column(spikes, c)[Clip(lo, T)..Clip(lo + w, T)] == Column(m, c)
    {
    }
  }

  /** The mean rate at t is the window's total divided by w and by n. */
  lemma {:induction false} MeanRateAt(spikes: seq<seq<real>>, n: nat, w: nat, t: nat)
    requires IsMatrix(spikes, n) && n > 0 && |spikes| >= w >= 1 && t < |spikes|
    ensures var m := SmoothingRows(spikes, w, t);
      Mean(Rates(spikes, n, w)[t])
        == (Sum(seq(n, c requires 0 <= c < n => Sum(Column(m, c)))) / w as real) / n as real
  {
    var m := SmoothingRows(spikes, w, t);
    var colSums := seq(n, c requires 0 <= c < n => Sum(Column(m, c)));
    var row := Rates(spikes, n, w)[t];
    ColumnWindowSums(spikes, n, w, t);
    forall c | 0 <= c < n
      ensures row[c] == colSums[c] / w as real
    {
      RatesAt(spikes, n, w, t, c);
    }
    SumDiv(colSums, row, w as real);
  }

  /** A stretch of per-row means of the rows m sums to m's total over n. */
  lemma WindowOfMeans(means: seq<real>, m: seq<seq<real>>, n: nat, L: nat)
    requires n > 0 && L + |m| <= |means|
    requires forall i :: 0 <= i < |m| ==> means[L + i] == Sum(m[i]) / n as real
    ensures Sum(means[L..L + |m|]) == Sum(seq(|m|, i requires 0 <= i < |m| => Sum(m[i]))) / n as real
  {
    var rowSums := seq(|m|, i requires 0 <= i < |m| => Sum(m[i]));
    var window := means[L..L + |m|];
    forall i | 0 <= i < |m|
      ensures window[i] == rowSums[i] / n as real
    {
      assert window[i] == means[L + i];
    }
    SumDiv(rowSums, window, n as real);
  }

  /** The per-row means over rows lo..hi are those rows' totals over n. */
  lemma SliceMeans(spikes: seq<seq<real>>, n: nat, lo: nat, hi: nat)
    requires IsMatrix(spikes, n) && n > 0 && lo <= hi <= |spikes|
    ensures forall i :: 0 <= i < hi - lo ==>
      RowMeans(spikes, n)[lo + i] == Sum(spikes[lo..hi][i]) / n as real
  {
    forall i | 0 <= i < hi - lo
      ensures RowMeans(spikes, n)[lo + i] == Sum(spikes[lo..hi][i]) / n as real
    {
      assert spikes[lo..hi][i] == spikes[lo + i];
    }
  }

  /** The box-filter sum behind rate t, taken over the per-row means, is
      the window's total divided by n. */
  lemma WindowSumOfMeans(spikes: seq<seq<real>>, n: nat, w: nat, t: nat)
    requires IsMatrix(spikes, n) && n > 0 && |spikes| >= w >= 1 && t < |spikes|
    ensures var m := SmoothingRows(spikes, w, t);
      var lo := WindowStart(|spikes|, w, t);
      WindowSum(RowMeans(spikes, n), lo, lo + w)
        == Sum(seq(|m|, i requires 0 <= i < |m| => Sum(m[i]))) / n as real
  {
    var T := |spikes|;
    var lo := WindowStart(T, w, t);
    WindowWidth(T, lo, w);
    var L, H := Clip(lo, T), Clip(lo + w, T);
    var m := SmoothingRows(spikes, w, t);
    assert m == spikes[L..H];
    SliceMeans(spikes, n, L, H);
    WindowOfMeans(RowMeans(spikes, n), m, n, L);
  }

  /** The smoothed mean activity at t is the window's total divided by n and by w. */
  lemma {:induction false} SmoothedActivityAt(spikes: seq<seq<real>>, n: nat, w: nat, t: nat)
    requires IsMatrix(spikes, n) && n > 0 && |spikes| >= w >= 1 && t < |spikes|
    ensures var m := SmoothingRows(spikes, w, t);
      MovingAverage(RowMeans(spikes, n), w)[t]
        == (Sum(seq(|m|, i requires 0 <= i < |m| => Sum(m[i]))) / n as real) / w as real
  {
    WindowSumOfMeans(spikes, n, w, t);
    MovingAverageAt(RowMeans(spikes, n), w, t);
  }

  /** Smoothing commutes with averaging over channels: the mean rate at t
      is the box filter, over the same window, of the mean activity. */
  lemma MeanRateIsSmoothedActivity(spikes: seq<seq<real>>, n: nat, w: nat, t: nat)
    requires IsMatrix(spikes, n) && n > 0 && |spikes| >= w >= 1 && t < |spikes|
    ensures |Rates(spikes, n, w)| == |spikes|
    ensures Mean(Rates(spikes, n, w)[t]) == MovingAverage(RowMeans(spikes, n), w)[t]
  {
    var m := SmoothingRows(spikes, w, t);
    assert IsMatrix(m, n);
    MeanRateAt(spikes, n, w, t);
    SmoothedActivityAt(spikes, n, w, t);
    SumRowsColumns(m, n);
    DivSwap(Sum(seq(n, c requires 0 <= c < n => Sum(Column(m, c)))), w as real, n as real);
  }

  lemma DivSwap(x: real, a: real, b: real)
    requires a != 0.0 && b != 0.0
    ensures (x / a) / b == (x / b) / a
  {
  }

  /** With the constructor's rates and a table at least w long, column 1
      of the population vector is column 0 box-filtered with width w. */
  lemma PopulationRateSmoothsActivity(d: SpikeDataset, w: nat)
    requires d.Valid() && d.channels > 0 && |d.spikeTimes| >= w >= 1
    requires d.RatesMatrix() == Rates(d.spikeTimes, d.channels, w)
    ensures PopulationVector(d).Ok?
    ensures var pv := PopulationVector(d).value;
      forall t :: 0 <= t < |pv| ==>
        pv[t][1] == MovingAverage(seq(|pv|, s requires 0 <= s < |pv| => pv[s][0]), w)[t]
  {
    RatesShape(d.spikeTimes, d.channels, w);
    var pv := PopulationVector(d).value;
    assert seq(|pv|, s requires 0 <= s < |pv| => pv[s][0]) == RowMeans(d.spikeTimes, d.channels);
    forall t | 0 <= t < |pv|
      ensures pv[t][1] == MovingAverage(RowMeans(d.spikeTimes, d.channels), w)[t]
    {
      MeanRateIsSmoothedActivity(d.spikeTimes, d.channels, w, t);
    }
  }

  /** Spike values in [0, mx] keep both columns of the population vector
      in [0, mx] (for 0/1 spikes, in [0, 1]). */
  lemma PopulationVectorBounded(d: SpikeDataset, w: nat, mx: real)
    requires d.Valid() && d.channels > 0 && w >= 1
    requires d.RatesMatrix() == Rates(d.spikeTimes, d.channels, w)
    requires forall i, c :: 0 <= i < |d.spikeTimes| && 0 <= c < d.channels ==> 0.0 <= d.spikeTimes[i][c] <= mx
    ensures PopulationVector(d).Ok? ==> var pv := PopulationVector(d).value;
      forall t :: 0 <= t < |pv| ==> 0.0 <= pv[t][0] <= mx && 0.0 <= pv[t][1] <= mx
  {
    if PopulationVector(d).Ok? {
      var pv := PopulationVector(d).value;
      var rates := d.RatesMatrix();
      RatesBounded(d.spikeTimes, d.channels, w, mx);
      forall t | 0 <= t < |pv|
        ensures 0.0 <= pv[t][0] <= mx && 0.0 <= pv[t][1] <= mx
      {
        MeanBounded(d.spikeTimes[t], mx);
        MeanBounded(rates[t], mx);
      }
    }
  }

  /** The mean of values in [0, mx] lies in [0, mx]. */
  lemma MeanBounded(s: seq<real>, mx: real)
    requires |s| > 0 && forall i :: 0 <= i < |s| ==> 0.0 <= s[i] <= mx
    ensures 0.0 <= Mean(s) <= mx
  {
    SumBounds(s, 0.0, mx);
    var len := |s| as real;
    assert len * 0.0 == 0.0;
    assert Sum(s) / len <= (len * mx) / len;
  }

  /** get_correlation's window_size. */
  const CorrelationWindow: nat := 100

  /** Pearson's coefficient of two series as np.corrcoef computes it (NaN
      for a zero-variance series). The model does not define it: it is a
      parameter of the correlation. */
  type Pearson = (seq<real>, seq<real>) -> Num

  /** The timesteps get_correlation marks with NaN: the first and the last
      window_size // 2. */
  predicate InSentinel(T: nat, t: nat)
  {
    t < CorrelationWindow / 2 || t >= T - CorrelationWindow / 2
  }

  /** Rows [t - 50, t + 50) of the spikes; outside the sentinel region they
      are exactly 100 rows, all inside the table. */
  function WindowRows(spikes: seq<seq<real>>, t: nat): (r: seq<seq<real>>)
    requires !InSentinel(|spikes|, t)
    ensures 0 <= t - CorrelationWindow / 2 && t + CorrelationWindow / 2 <= |spikes|
    ensures |r| == CorrelationWindow
    ensures forall i :: 0 <= i < |r| ==> r[i] == spikes[t - CorrelationWindow / 2 + i]
  {
    spikes[t - CorrelationWindow / 2 .. t + CorrelationWindow / 2]
  }

  /** The pairs (i, j) with lo <= i < j < n, row after row
      (np.triu_indices(n, k=1) for lo == 0). */
  function UpperPairsFrom(lo: nat, n: nat): seq<(nat, nat)>
    decreases n - lo
  {
    if lo >= n then []
    else seq(n - 1 - lo, k requires 0 <= k < n - 1 - lo => (lo, lo + 1 + k)) + UpperPairsFrom(lo + 1, n)
  }

  function UpperPairs(n: nat): seq<(nat, nat)>
  {
    UpperPairsFrom(0, n)
  }

  predicate PairBefore(p: (nat, nat), q: (nat, nat))
  {
    p.0 < q.0 || (p.0 == q.0 && p.1 < q.1)
  }

  /** Row lo of the upper triangle: (lo, lo + 1) .. (lo, n - 1). */
  lemma UpperPairsFromUnfold(lo: nat, n: nat)
    requires lo < n
    ensures UpperPairsFrom(lo, n)
         == seq(n - 1 - lo, k requires 0 <= k < n - 1 - lo => (lo, lo + 1 + k)) + UpperPairsFrom(lo + 1, n)
  {
  }

  /** From row lo on there are (n - lo)(n - lo - 1)/2 pairs. */
  lemma {:induction false} UpperPairsFromCount(lo: nat, n: nat)
    requires lo <= n
    ensures 2 * |UpperPairsFrom(lo, n)| == (n - lo) * (n - lo - 1)
    decreases n - lo
  {
    if lo < n {
      UpperPairsFromCount(lo + 1, n);
      UpperPairsFromUnfold(lo, n);
      var m := n - lo;
      assert m * (m - 1) == 2 * (m - 1) + (m - 1) * (m - 2);
    }
  }

  /** From row lo on the pairs are exactly those with lo <= i < j < n. */
  lemma {:induction false} UpperPairsFromMembers(lo: nat, n: nat)
    ensures forall p :: p in UpperPairsFrom(lo, n) <==> lo <= p.0 < p.1 < n
    decreases n - lo
  {
    if lo < n {
      UpperPairsFromMembers(lo + 1, n);
      UpperPairsFromUnfold(lo, n);
      var row := seq(n - 1 - lo, k requires 0 <= k < n - 1 - lo => (lo, lo + 1 + k));
      forall p: (nat, nat) | lo <= p.0 < p.1 < n
        ensures p in row + UpperPairsFrom(lo + 1, n)
      {
        if p.0 == lo {
          assert row[p.1 - lo - 1] == p;
        }
      }
    }
  }

  /** From row lo on the pairs come in strictly increasing row-major order. */
  lemma {:induction false} UpperPairsFromOrdered(lo: nat, n: nat)
    ensures var ps := UpperPairsFrom(lo, n);
      forall a, b :: 0 <= a < b < |ps| ==> PairBefore(ps[a], ps[b])
    decreases n - lo
  {
    if lo < n {
      UpperPairsFromOrdered(lo + 1, n);
      UpperPairsFromMembers(lo + 1, n);
      UpperPairsFromUnfold(lo, n);
      var row := seq(n - 1 - lo, k requires 0 <= k < n - 1 - lo => (lo, lo + 1 + k));
      var rest := UpperPairsFrom(lo + 1, n);
      var ps := row + rest;
      forall a, b | 0 <= a < b < |ps|
        ensures PairBefore(ps[a], ps[b])
      {
        if b < |row| {
        } else if a < |row| {
          assert ps[b] in rest;
        } else {
          assert ps[a] == rest[a - |row|] && ps[b] == rest[b - |row|];
        }
      }
    }
  }

  /** np.triu_indices(n, k=1) holds n(n-1)/2 pairs, exactly the (i, j)
      with i < j < n, each once, in row-major order. */
  lemma UpperPairsSpec(n: nat)
    ensures |UpperPairs(n)| == n * (n - 1) / 2
    ensures forall p :: p in UpperPairs(n) <==> p.0 < p.1 < n
    ensures forall a, b :: 0 <= a < b < |UpperPairs(n)| ==> PairBefore(UpperPairs(n)[a], UpperPairs(n)[b])
  {
    UpperPairsFromCount(0, n);
    UpperPairsFromMembers(0, n);
    UpperPairsFromOrdered(0, n);
  }

  /** The strictly-upper-triangular entries of the n x n correlation matrix
      of a window, row by row. */
  function PairCorrelations(window: seq<seq<real>>, n: nat, pearson: Pearson): (r: seq<Num>)
    requires IsMatrix(window, n)
    ensures |r| == |UpperPairs(n)|
  {
    UpperPairsSpec(n);
    var ps := UpperPairs(n);
    seq(|ps|, k requires 0 <= k < |ps| =>
      assert ps[k] in ps;
      pearson(Column(window, ps[k].0), Column(window, ps[k].1)))
  }

  /** Entry t of get_correlation: NaN in the sentinel region, otherwise the
      mean of the window's upper-triangle correlations (np.mean, so NaN
      when any of them is NaN or there are none). */
  function CorrelationAt(spikes: seq<seq<real>>, n: nat, t: nat, pearson: Pearson): (r: Num)
    requires IsMatrix(spikes, n)
    ensures InSentinel(|spikes|, t) ==> r == NaN
    ensures n <= 1 ==> r == NaN
  {
    UpperPairsSpec(n);
    if InSentinel(|spikes|, t) then NaN
    else MeanNum(PairCorrelations(WindowRows(spikes, t), n, pearson))
  }

  /** get_correlation: one entry per timestep, built by appending. With a
      single channel np.corrcoef yields a scalar and indexing its upper
      triangle raises, at the first timestep outside the sentinel region,
      which exists exactly when T > 100. */
  method GetCorrelation(d: SpikeDataset, pearson: Pearson) returns (r: Result<seq<Num>, StatsError>)
    requires d.Valid()
    ensures r.Err? <==> d.channels == 1 && |d.spikeTimes| > CorrelationWindow
    ensures r.Err? ==> r.error == ScalarIndexError
    ensures r.Ok? ==> |r.value| == |d.spikeTimes|
    ensures r.Ok? ==> forall t :: 0 <= t < |r.value| ==> r.value[t] == CorrelationAt(d.spikeTimes, d.channels, t, pearson)
  {
    var T := |d.spikeTimes|;
    var n := d.channels;
    var half := CorrelationWindow / 2;
    var meanCorrs: seq<Num> := [];
    for t := 0 to T
      invariant |meanCorrs| == t
      invariant forall s :: 0 <= s < t ==> meanCorrs[s] == CorrelationAt(d.spikeTimes, n, s, pearson)
      invariant n == 1 && T > CorrelationWindow ==> t <= half
    {
      if t < half || t >= T - half {
        meanCorrs := meanCorrs + [NaN];
      } else {
        if n == 1 {
          return Err(ScalarIndexError);
        }
        var window := d.spikeTimes[t - half .. t + half];
        var meanCorr := MeanNum(PairCorrelations(window, n, pearson));
        meanCorrs := meanCorrs + [meanCorr];
      }
    }
    return Ok(meanCorrs);
  }

  /** The sentinel region is NaN, and a table of at most 100 rows is NaN
      throughout. */
  lemma CorrelationSentinel(spikes: seq<seq<real>>, n: nat, t: nat, pearson: Pearson)
    requires IsMatrix(spikes, n)
    requires t < 50 || t >= |spikes| - 50 || |spikes| <= CorrelationWindow
    ensures CorrelationAt(spikes, n, t, pearson) == NaN
  {
  }

  /** Outside the sentinel region, with at least two channels, an entry is
      NaN exactly when one of the n(n-1)/2 pair coefficients of its window
      is NaN; otherwise it is their mean. */
  lemma CorrelationValue(spikes: seq<seq<real>>, n: nat, t: nat, pearson: Pearson)
    requires IsMatrix(spikes, n) && n >= 2 && !InSentinel(|spikes|, t)
    ensures var cs := PairCorrelations(WindowRows(spikes, t), n, pearson);
      |cs| == n * (n - 1) / 2 && |cs| > 0 &&
      (CorrelationAt(spikes, n, t, pearson).NaN? <==> exists k :: 0 <= k < |cs| && cs[k].NaN?) &&
      (!HasNaN(cs) ==> CorrelationAt(spikes, n, t, pearson) == Fin(Sum(Values(cs)) / |cs| as real))
  {
    UpperPairsSpec(n);
    assert (0, 1) in UpperPairs(n);
  }
}
