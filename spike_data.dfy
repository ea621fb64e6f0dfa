/** The spike dataset of python/spike_data.py: a numeric table split into
    time (column 0), input signal (column 1) and spike channels (columns
    2..), plus each channel box-filtered into a spike rate. The table is
    a parameter; reading it from a file is not part of this model. */
module SpikeData {
  import opened Numerics
  import opened Convolution

  /** The numeric table the loader hands over: `width` values per row. */
  datatype Table = Table(width: nat, rows: seq<seq<real>>)

  predicate Rectangular(t: Table)
  {
    IsMatrix(t.rows, t.width)
  }

  /** The exceptions building a dataset can raise. */
  datatype DataError =
    | MissingColumn     // data_array[:, 0] or [:, 1] on fewer than two columns: IndexError
    | NegativeWindow    // np.ones(w) with w < 0: ValueError
    | EmptyConvolution  // np.convolve of an empty channel or with np.ones(0): ValueError

  /** The width compute_spike_rates uses, whatever the constructor used. */
  const RecomputeWidth: nat := 10

  /** Columns 2.. of every row (data_array[:, 2:]). */
  function SpikeColumns(m: seq<seq<real>>): seq<seq<real>>
    requires forall i :: 0 <= i < |m| ==> |m[i]| >= 2
  {
    seq(|m|, i requires 0 <= i < |m| => m[i][2..])
  }

  /** spike_rates as the constructor builds it: every channel box-filtered
      over w samples, the results stacked as columns. np.convolve in 'same'
      mode yields max(T, w) values, so a table shorter than the window
      gives w rows; with no channel the stack is empty. */
  function Rates(spikes: seq<seq<real>>, n: nat, w: int): (r: seq<seq<real>>)
    requires IsMatrix(spikes, n)
    requires n > 0 ==> |spikes| >= 1 && w >= 1
    ensures IsMatrix(r, n)
  {
    if n == 0 then
      []
    else
      seq(Max(|spikes|, w), k requires 0 <= k < Max(|spikes|, w) =>
        seq(n, c requires 0 <= c < n => MovingAverage(Column(spikes, c), w as nat)[k]))
  }

  /** With at least one channel, the rates have T rows exactly when the
      window fits in the table; a shorter table gets w rows. */
  lemma RatesShape(spikes: seq<seq<real>>, n: nat, w: int)
    requires IsMatrix(spikes, n) && n > 0 && |spikes| >= 1 && w >= 1
    ensures IsMatrix(Rates(spikes, n, w), n)
    ensures |Rates(spikes, n, w)| == |spikes| <==> |spikes| >= w
    ensures |Rates(spikes, n, w)| >= |spikes|
  {
  }

  /** Rate k of channel c is the sum of the channel over the w-wide window
      starting at WindowStart, clipped to [0, T), divided by w. */
  lemma RatesAt(spikes: seq<seq<real>>, n: nat, w: int, k: nat, c: nat)
    requires IsMatrix(spikes, n) && n > 0 && |spikes| >= 1 && w >= 1
    requires k < Max(|spikes|, w) && c < n
    ensures var start := WindowStart(|spikes|, w, k);
      Rates(spikes, n, w)[k][c] == WindowSum(Column(spikes, c), start, start + w) / w as real
  {
    MovingAverageAt(Column(spikes, c), w, k);
  }

  /** Column c of the rates depends on column c of the spikes alone. */
  lemma ChannelsIndependent(s1: seq<seq<real>>, s2: seq<seq<real>>, n: nat, w: int, c: nat)
    requires IsMatrix(s1, n) && IsMatrix(s2, n) && n > 0 && |s1| >= 1 && w >= 1
    requires |s1| == |s2| && c < n
    requires forall i :: 0 <= i < |s1| ==> s1[i][c] == s2[i][c]
    ensures |Rates(s1, n, w)| == |Rates(s2, n, w)|
    ensures forall k :: 0 <= k < |Rates(s1, n, w)| ==> Rates(s1, n, w)[k][c] == Rates(s2, n, w)[k][c]
  {
    assert Column(s1, c) == Column(s2, c);
  }

  /** Spike values in [0, mx] give rates in [0, mx]; for 0/1 spikes the
      rates lie in [0, 1]. */
  lemma RatesBounded(spikes: seq<seq<real>>, n: nat, w: int, mx: real)
    requires IsMatrix(spikes, n) && n > 0 && |spikes| >= 1 && w >= 1
    requires forall i, c :: 0 <= i < |spikes| && 0 <= c < n ==> 0.0 <= spikes[i][c] <= mx
    ensures forall k, c :: 0 <= k < |Rates(spikes, n, w)| && 0 <= c < n ==>
      0.0 <= Rates(spikes, n, w)[k][c] <= mx
  {
    forall c | 0 <= c < n
      ensures forall k :: 0 <= k < Max(|spikes|, w) ==> 0.0 <= MovingAverage(Column(spikes, c), w)[k] <= mx
    {
      MovingAverageBounded(Column(spikes, c), w, mx);
    }
  }

  /** On an all-ones channel a rate is exactly 1 when its whole window lies
      inside the table and strictly below 1 at the clipped boundary; with
      w >= 2 the first rate is below 1. */
  lemma OnesChannelRates(spikes: seq<seq<real>>, n: nat, w: int, k: nat, c: nat)
    requires IsMatrix(spikes, n) && n > 0 && |spikes| >= 1 && w >= 1
    requires k < Max(|spikes|, w) && c < n
    requires forall i :: 0 <= i < |spikes| ==> spikes[i][c] == 1.0
    ensures var start := WindowStart(|spikes|, w, k);
      Rates(spikes, n, w)[k][c] == 1.0 <==> 0 <= start && start + w <= |spikes|
    ensures var start := WindowStart(|spikes|, w, k);
      !(0 <= start && start + w <= |spikes|) ==> Rates(spikes, n, w)[k][c] < 1.0
    ensures w >= 2 && k == 0 ==> Rates(spikes, n, w)[k][c] < 1.0
  {
    MovingAverageOfOnes(Column(spikes, c), w, k);
  }

  /** A dataset: the table's columns as read-only series and the rates
      as a T x N float array that compute_spike_rates rewrites in place. */
  class SpikeDataset {
    const time: seq<real>
    const inputSignal: seq<real>
    const spikeTimes: seq<seq<real>>
    const channels: nat
    const spikeRates: array2<real>

    ghost predicate Valid()
      reads this
    {
      |time| == |spikeTimes| && |inputSignal| == |spikeTimes| &&
      IsMatrix(spikeTimes, channels) &&
      spikeRates.Length1 == channels &&
      (channels == 0 ==> spikeRates.Length0 == 0) &&
      (channels > 0 ==> 1 <= |spikeTimes| <= spikeRates.Length0)
    }

    /** The current contents of spike_rates. */
    function RatesMatrix(): seq<seq<real>>
      reads this, spikeRates
    {
      ToMatrix(spikeRates)
    }

    /** spikeData.__init__ on an already loaded table. */
    constructor (t: Table, w: int)
      requires Rectangular(t) && t.width >= 2
      requires t.width > 2 ==> |t.rows| >= 1 && w >= 1
      ensures Valid()
      ensures time == Column(t.rows, 0) && inputSignal == Column(t.rows, 1)
      ensures spikeTimes == SpikeColumns(t.rows) && channels == t.width - 2
      ensures |spikeTimes| == |t.rows| && forall i :: 0 <= i < |t.rows| ==> spikeTimes[i] == t.rows[i][2..]
      ensures fresh(spikeRates) && RatesMatrix() == Rates(spikeTimes, channels, w)
    {
      var n := t.width - 2;
      var spikes := SpikeColumns(t.rows);
      var rates := Rates(spikes, n, w);
      time := Column(t.rows, 0);
      inputSignal := Column(t.rows, 1);
      spikeTimes := spikes;
      channels := n;
      spikeRates := new real[|rates|, n]((k, c) requires 0 <= k < |rates| && 0 <= c < n => rates[k][c]);
      new;
      ToMatrixEquals(spikeRates, rates);
    }

    /** compute_spike_rates: every channel is box-filtered again with
        width 10 and written over its column of spike_rates. When the
        array's row count differs from max(T, 10) the first column
        assignment raises (numpy cannot broadcast), before anything is
        written; that is reported as `ok == false`. */
    method ComputeSpikeRates() returns (ok: bool)
      requires Valid()
      modifies spikeRates
      ensures Valid()
      ensures ok <==> channels == 0 || spikeRates.Length0 == Max(|spikeTimes|, RecomputeWidth)
      ensures ok ==> RatesMatrix() == Rates(spikeTimes, channels, RecomputeWidth)
      ensures !ok ==> RatesMatrix() == old(RatesMatrix())
    {
      ghost var before := ToMatrix(spikeRates);
      for i := 0 to channels
        invariant i > 0 ==> spikeRates.Length0 == Max(|spikeTimes|, RecomputeWidth)
        invariant forall k, c :: 0 <= k < spikeRates.Length0 && 0 <= c < channels ==>
          spikeRates[k, c] == if c < i then MovingAverage(Column(spikeTimes, c), RecomputeWidth)[k] else old(spikeRates[k, c])
      {
        var rate := MovingAverage(Column(spikeTimes, i), RecomputeWidth);
        if |rate| != spikeRates.Length0 {
          ToMatrixEquals(spikeRates, before);
          return false;
        }
        for k := 0 to spikeRates.Length0
          invariant forall k', c :: 0 <= k' < spikeRates.Length0 && 0 <= c < channels ==>
            spikeRates[k', c] == if c < i || (c == i && k' < k) then MovingAverage(Column(spikeTimes, c), RecomputeWidth)[k'] else old(spikeRates[k', c])
        {
          spikeRates[k, i] := rate[k];
        }
      }
      ok := true;
      ToMatrixEquals(spikeRates, Rates(spikeTimes, channels, RecomputeWidth));
    }
  }

  /** Loads a dataset from a table, raising what spikeData.__init__ raises. */
  method FromTable(t: Table, w: int) returns (r: Result<SpikeDataset, DataError>)
    requires Rectangular(t)
    ensures r.Err? <==> t.width < 2 || (t.width > 2 && (|t.rows| == 0 || w < 1))
    ensures r.Err? ==> r.error == (if t.width < 2 then MissingColumn else if w < 0 then NegativeWindow else EmptyConvolution)
    ensures r.Ok? ==> fresh(r.value) && fresh(r.value.spikeRates) && r.value.Valid()
    ensures r.Ok? ==> r.value.time == Column(t.rows, 0) && r.value.inputSignal == Column(t.rows, 1)
    ensures r.Ok? ==> r.value.spikeTimes == SpikeColumns(t.rows) && r.value.channels == t.width - 2
    ensures r.Ok? ==> r.value.RatesMatrix() == Rates(r.value.spikeTimes, r.value.channels, w)
  {
    if t.width < 2 {
      return Err(MissingColumn);
    }
    if t.width > 2 {
      if w < 0 {
        return Err(NegativeWindow);
      }
      if |t.rows| == 0 || w == 0 {
        return Err(EmptyConvolution);
      }
    }
    var d := new SpikeDataset(t, w);
    return Ok(d);
  }

  /** Recomputing the rates of a dataset built with width 10 reproduces
      the constructor's rates, and recomputing again changes nothing. */
  method RecomputeTwice(t: Table) returns (built: seq<seq<real>>, once: seq<seq<real>>, twice: seq<seq<real>>)
    requires Rectangular(t) && t.width >= 2
    requires t.width > 2 ==> |t.rows| >= 1
    ensures built == once == twice
    ensures built == Rates(SpikeColumns(t.rows), t.width - 2, RecomputeWidth)
  {
    var d := new SpikeDataset(t, RecomputeWidth);
    built := d.RatesMatrix();
    var ok := d.ComputeSpikeRates();
    once := d.RatesMatrix();
    ok := d.ComputeSpikeRates();
    twice := d.RatesMatrix();
  }
}
