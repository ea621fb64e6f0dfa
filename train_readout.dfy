/** The readout network of python/train_readout.py: the leading-fraction
    train/test split, the target encoding, the prediction, and the
    batching and in-place update skeleton of training. The random initial
    weights, the sigmoid and the square root are parameters. */
module TrainReadout {
  import opened Numerics
  import opened SpikeData

  // ---------------------------------------------------------------------
  // Python and numpy primitives

  /** math.ceil on a float. */
  function Ceil(x: real): int
  {
    -((-x).Floor)
  }

  /** int() on a float: truncation toward zero. */
  function Trunc(x: real): int
  {
    if x >= 0.0 then x.Floor else -((-x).Floor)
  }

  /** int() of a value in [0, n] lies in [0, n], and is n at n. */
  lemma TruncBetween(v: real, n: int)
    requires 0.0 <= v <= n as real
    ensures 0 <= Trunc(v) <= n
    ensures v == n as real ==> Trunc(v) == n
  {
  }

  /** int() never decreases on non-negative values. */
  lemma TruncMonotone(a: real, b: real)
    requires 0.0 <= a <= b
    ensures Trunc(a) <= Trunc(b)
  {
  }

  /** np.min of a non-empty series. */
  function MinOf(s: seq<real>): real
    requires |s| > 0
  {
    if |s| == 1 then s[0]
    else
      var m := MinOf(s[..|s| - 1]);
      if s[|s| - 1] < m then s[|s| - 1] else m
  }

  /** np.max of a non-empty series. */
  function MaxOf(s: seq<real>): real
    requires |s| > 0
  {
    if |s| == 1 then s[0]
    else
      var m := MaxOf(s[..|s| - 1]);
      if s[|s| - 1] > m then s[|s| - 1] else m
  }

  /** The minimum is below every sample and is one of them. */
  lemma {:induction false} MinOfSpec(s: seq<real>)
    requires |s| > 0
    ensures forall i :: 0 <= i < |s| ==> MinOf(s) <= s[i]
    ensures exists i :: 0 <= i < |s| && s[i] == MinOf(s)
  {
    if |s| > 1 {
      MinOfSpec(s[..|s| - 1]);
      var j :| 0 <= j < |s| - 1 && s[..|s| - 1][j] == MinOf(s[..|s| - 1]);
      assert s[j] == MinOf(s[..|s| - 1]);
    } else {
      assert s[0] == MinOf(s);
    }
  }

  /** The maximum is above every sample and is one of them. */
  lemma {:induction false} MaxOfSpec(s: seq<real>)
    requires |s| > 0
    ensures forall i :: 0 <= i < |s| ==> s[i] <= MaxOf(s)
    ensures exists i :: 0 <= i < |s| && s[i] == MaxOf(s)
  {
    if |s| > 1 {
      MaxOfSpec(s[..|s| - 1]);
      var j :| 0 <= j < |s| - 1 && s[..|s| - 1][j] == MaxOf(s[..|s| - 1]);
      assert s[j] == MaxOf(s[..|s| - 1]);
    } else {
      assert s[0] == MaxOf(s);
    }
  }

  /** np.argmax of a non-empty row: the first position of its maximum. */
  function ArgMax(s: seq<real>): (k: nat)
    requires |s| > 0
    ensures k < |s|
    ensures forall i :: 0 <= i < |s| ==> s[i] <= s[k]
    ensures forall i :: 0 <= i < k ==> s[i] < s[k]
  {
    if |s| == 1 then 0
    else
      var k := ArgMax(s[..|s| - 1]);
      if s[|s| - 1] > s[k] then |s| - 1 else k
  }

  /** The position Python slicing uses for a bound s on a length-n
      sequence: a negative bound counts from the end; both are clamped. */
  function SliceIndex(s: int, n: nat): nat
  {
    if s < 0 then (if n + s < 0 then 0 else n + s)
    else if s > n then n
    else s
  }

  /** Products and quotients of floats that may be NaN. */
  function MulNum(x: Num, y: real): Num
  {
    match x
    case NaN => NaN
    case Fin(a) => Fin(a * y)
  }

  function DivNum(x: Num, y: real): Num
    requires y != 0.0
  {
    match x
    case NaN => NaN
    case Fin(a) => Fin(a / y)
  }

  function SubNum(x: Num, y: Num): Num
  {
    if x.NaN? || y.NaN? then NaN else Fin(x.v - y.v)
  }

  // ---------------------------------------------------------------------
  // The train/test split

  /** A fraction in [0, 1] of a non-negative amount lies between 0 and
      the amount. */
  lemma FractionBetween(f: real, t: real)
    requires 0.0 <= f <= 1.0 && 0.0 <= t
    ensures 0.0 <= f * t <= t
  {
    MulLe(0.0, f, t);
    MulLe(f, 1.0, t);
  }

  /** A fraction of 1 or more of a non-negative amount is at least the amount. */
  lemma FractionAbove(f: real, t: real)
    requires 1.0 <= f && 0.0 <= t
    ensures t <= f * t
  {
    MulLe(1.0, f, t);
  }

  /** int() of a fraction in [0, 1] of n is its floor and lies in [0, n]. */
  lemma TruncFractionBetween(f: real, n: nat)
    requires 0.0 <= f <= 1.0
    ensures Trunc(f * n as real) == (f * n as real).Floor && 0 <= Trunc(f * n as real) <= n
  {
    FractionBetween(f, n as real);
  }

  /** int() of a fraction of 1 or more of n is at least n. */
  lemma TruncFractionAbove(f: real, n: nat)
    requires 1.0 <= f
    ensures n <= Trunc(f * n as real)
  {
    FractionAbove(f, n as real);
  }

  /** int() of a fraction in [0, 1] of T is the floor and lies in [0, T];
      of a fraction of 1 or more, it is at least T. */
  lemma TruncFraction(f: real, T: nat)
    ensures 0.0 <= f <= 1.0 ==>
      Trunc(f * T as real) == (f * T as real).Floor && 0 <= Trunc(f * T as real) <= T
    ensures 1.0 <= f ==> T <= Trunc(f * T as real)
  {
    if 0.0 <= f <= 1.0 {
      TruncFractionBetween(f, T);
    }
    if 1.0 <= f {
      TruncFractionAbove(f, T);
    }
  }

  /** int(train_size * T), used as the slice bound of both partitions:
      floor(fraction * T) for a fraction in [0, 1], all of the table for a
      fraction of 1 or more. */
  function SplitIndex(trainSize: real, T: nat): (s: nat)
    ensures s <= T
    ensures 0.0 <= trainSize <= 1.0 ==> s == (trainSize * T as real).Floor
    ensures 1.0 <= trainSize ==> s == T
  {
    TruncFraction(trainSize, T);
    SliceIndex(Trunc(trainSize * T as real), T)
  }

  /** The two partitions put back together give the whole table, in order;
      for a fraction in [0, 1] the split row is floor(fraction * T). */
  lemma SplitPartitions<X>(rows: seq<X>, trainSize: real)
    ensures SplitIndex(trainSize, |rows|) <= |rows|
    ensures rows[..SplitIndex(trainSize, |rows|)] + rows[SplitIndex(trainSize, |rows|)..] == rows
    ensures 0.0 <= trainSize <= 1.0 ==>
      SplitIndex(trainSize, |rows|) == (trainSize * |rows| as real).Floor
  {
  }

  // ---------------------------------------------------------------------
  // Target encoding (generate_target)

  /** The exceptions generate_target can raise. */
  datatype TargetError =
    | NegativeDimension  // np.zeros((rows, output_size)) with output_size < 0: ValueError
    | EmptySignal        // np.min of an empty partition: ValueError
    | NaNToInteger       // int(nan): a constant integer signal divides 0 by 0 (ValueError)
    | IndexOutOfRange    // target[i, 0 or -1] when output_size == 0: IndexError

  /** Encoded targets: one output gives the rescaled signal as a vector
      (NaN where it divides 0 by 0); more give a one-hot matrix. */
  datatype Target = Scalar(values: seq<Num>) | OneHot(rows: seq<seq<real>>)

  /** floor(min(signal)) and ceil(max(signal)). */
  function TargetLow(signal: seq<real>): int
    requires |signal| > 0
  {
    MinOf(signal).Floor
  }

  function TargetHigh(signal: seq<real>): int
    requires |signal| > 0
  {
    Ceil(MaxOf(signal))
  }

  /** (x - target_min) / (target_max - target_min) */
  function Rescaled(x: real, lo: int, hi: int): real
    requires lo != hi
  {
    (x - lo as real) / (hi - lo) as real
  }

  /** int(scaled_signal[i]): the position of the 1 in x's target row. */
  function ClassIndex(x: real, lo: int, hi: int, outputs: int): int
    requires lo != hi
  {
    Trunc(Rescaled(x, lo, hi) * (outputs - 1) as real)
  }

  function OneHotRow(idx: int, outputs: nat): seq<real>
  {
    seq(outputs, j => if j == idx then 1.0 else 0.0)
  }

  /** What generate_target returns or raises for a partition of the
      signal. A successful encoding has one entry (one output) or one
      one-hot row (more outputs) per sample, and one output never raises
      on a non-empty signal. */
  function EncodeTarget(signal: seq<real>, outputSize: int): (r: Result<Target, TargetError>)
    ensures r.Ok? ==> outputSize >= 1 && |signal| >= 1 && TargetFits(r.value, |signal|, outputSize)
    ensures outputSize == 1 ==> (r.Ok? <==> |signal| >= 1)
  {
    if outputSize < 0 then Err(NegativeDimension)
    else if |signal| == 0 then Err(EmptySignal)
    else
      var lo, hi := TargetLow(signal), TargetHigh(signal);
      if outputSize == 1 then
        Ok(Scalar(seq(|signal|, i requires 0 <= i < |signal| =>
          if lo == hi then NaN else Fin(Rescaled(signal[i], lo, hi)))))
      else if lo == hi then Err(NaNToInteger)
      else if outputSize == 0 then Err(IndexOutOfRange)
      else
        Ok(OneHot(seq(|signal|, i requires 0 <= i < |signal| =>
          OneHotRow(ClassIndex(signal[i], lo, hi, outputSize), outputSize))))
  }

  /** The integer range brackets the signal, and it collapses to a point
      exactly when the signal is one integer value throughout. */
  lemma TargetRangeBrackets(signal: seq<real>)
    requires |signal| > 0
    ensures TargetLow(signal) <= TargetHigh(signal)
    ensures forall i :: 0 <= i < |signal| ==>
      TargetLow(signal) as real <= signal[i] <= TargetHigh(signal) as real
    ensures TargetLow(signal) == TargetHigh(signal) <==>
      forall i :: 0 <= i < |signal| ==> signal[i] == TargetLow(signal) as real
  {
    MinOfSpec(signal);
    MaxOfSpec(signal);
    var lo, hi := TargetLow(signal), TargetHigh(signal);
    if forall i :: 0 <= i < |signal| ==> signal[i] == lo as real {
      var j :| 0 <= j < |signal| && signal[j] == MaxOf(signal);
      assert MaxOf(signal) == lo as real;
    }
  }

  /** A value between 0 and d > 0, divided by d, lies in [0, 1]. */
  lemma UnitRatio(a: real, d: real)
    requires 0.0 <= a <= d && 0.0 < d
    ensures 0.0 <= a / d <= 1.0
  {
    DivNonNeg(a, d);
    DivAtMost(a, d, 1.0);
  }

  /** For one output the targets are (x - floor(min)) / (ceil(max) - floor(min)),
      in [0, 1]; a constant integer signal gives NaN throughout. */
  lemma ScalarTargets(signal: seq<real>)
    requires |signal| > 0
    ensures EncodeTarget(signal, 1).Ok? && EncodeTarget(signal, 1).value.Scalar?
    ensures var vs := EncodeTarget(signal, 1).value.values;
      var lo, hi := TargetLow(signal), TargetHigh(signal);
      |vs| == |signal| &&
      (lo == hi ==> forall i :: 0 <= i < |vs| ==> vs[i] == NaN) &&
      (lo != hi ==> forall i :: 0 <= i < |vs| ==>
        vs[i] == Fin((signal[i] - lo as real) / (hi - lo) as real) && 0.0 <= vs[i].v <= 1.0)
  {
    TargetRangeBrackets(signal);
    var lo, hi := TargetLow(signal), TargetHigh(signal);
    if lo != hi {
      forall i | 0 <= i < |signal|
        ensures 0.0 <= Rescaled(signal[i], lo, hi) <= 1.0
      {
        UnitRatio(signal[i] - lo as real, (hi - lo) as real);
      }
    }
  }

  /** For a sample inside the range, the one-hot position lies in
      [0, outputs - 1]; the maximum of an integer-topped signal takes the
      last position. */
  lemma ClassIndexInRange(x: real, lo: int, hi: int, outputs: int)
    requires lo < hi && lo as real <= x <= hi as real && outputs >= 1
    ensures 0 <= ClassIndex(x, lo, hi, outputs) <= outputs - 1
    ensures x == hi as real ==> ClassIndex(x, lo, hi, outputs) == outputs - 1
  {
    var r := Rescaled(x, lo, hi);
    var d := (hi - lo) as real;
    UnitRatio(x - lo as real, d);
    var k := (outputs - 1) as real;
    FractionBetween(r, k);
    TruncBetween(r * k, outputs - 1);
    if x == hi as real {
      DivSelf(d);
      assert r == 1.0;
      FractionAbove(r, k);
    }
  }

  /** A larger sample never gets a smaller one-hot position. */
  lemma ClassIndexMonotone(x: real, y: real, lo: int, hi: int, outputs: int)
    requires lo < hi && lo as real <= x <= y && outputs >= 1
    ensures ClassIndex(x, lo, hi, outputs) <= ClassIndex(y, lo, hi, outputs)
  {
    var d := (hi - lo) as real;
    var k := (outputs - 1) as real;
    var rx, ry := Rescaled(x, lo, hi), Rescaled(y, lo, hi);
    DivLe(x - lo as real, y - lo as real, d);
    DivNonNeg(x - lo as real, d);
    MulLe(0.0, rx, k);
    MulLe(rx, ry, k);
    TruncMonotone(rx * k, ry * k);
  }

  /** For two or more outputs every target row has exactly one 1, at
      int(scaled) in [0, outputs - 1], and 0 everywhere else. */
  lemma OneHotTargets(signal: seq<real>, outputs: int)
    requires |signal| > 0 && outputs >= 2
    requires TargetLow(signal) != TargetHigh(signal)
    ensures EncodeTarget(signal, outputs).Ok? && EncodeTarget(signal, outputs).value.OneHot?
    ensures var rows := EncodeTarget(signal, outputs).value.rows;
      var lo, hi := TargetLow(signal), TargetHigh(signal);
      |rows| == |signal| && IsMatrix(rows, outputs) &&
      forall i :: 0 <= i < |rows| ==>
        0 <= ClassIndex(signal[i], lo, hi, outputs) < outputs &&
        forall j :: 0 <= j < outputs ==>
          (rows[i][j] == 1.0 <==> j == ClassIndex(signal[i], lo, hi, outputs)) &&
          (rows[i][j] != 1.0 ==> rows[i][j] == 0.0)
  {
    TargetRangeBrackets(signal);
    var lo, hi := TargetLow(signal), TargetHigh(signal);
    forall i | 0 <= i < |signal|
      ensures 0 <= ClassIndex(signal[i], lo, hi, outputs) < outputs
    {
      ClassIndexInRange(signal[i], lo, hi, outputs);
    }
  }

  /** With two or more outputs, encoding fails on int(nan) exactly when the
      signal is one integer value throughout. */
  lemma DegenerateTargets(signal: seq<real>, outputs: int)
    requires |signal| > 0 && outputs >= 2
    ensures EncodeTarget(signal, outputs) == Err(NaNToInteger) <==>
      (forall i :: 0 <= i < |signal| ==> signal[i] == signal[0]) && signal[0] == (signal[0].Floor) as real
  {
    TargetRangeBrackets(signal);
    MinOfSpec(signal);
    var lo := TargetLow(signal);
    if (forall i :: 0 <= i < |signal| ==> signal[i] == signal[0]) && signal[0] == (signal[0].Floor) as real {
      var j :| 0 <= j < |signal| && signal[j] == MinOf(signal);
      assert MinOf(signal) == signal[0];
      assert forall i :: 0 <= i < |signal| ==> signal[i] == lo as real;
    }
  }

  /** generate_target: fills a zero matrix row by row, one 1 per row. */
  method GenerateTarget(signal: seq<real>, outputSize: int) returns (r: Result<Target, TargetError>)
    ensures r == EncodeTarget(signal, outputSize)
  {
    if outputSize < 0 {
      return Err(NegativeDimension);
    }
    var target := new real[|signal|, outputSize]((i, j) => 0.0);
    if |signal| == 0 {
      return Err(EmptySignal);
    }
    var lo := MinOf(signal).Floor;
    var hi := Ceil(MaxOf(signal));
    if outputSize == 1 {
      return Ok(Scalar(seq(|signal|, i requires 0 <= i < |signal| =>
        if lo == hi then NaN else Fin(Rescaled(signal[i], lo, hi)))));
    }
    if lo == hi {
      return Err(NaNToInteger);
    }
    TargetRangeBrackets(signal);
    for i := 0 to |signal|
      invariant outputSize == 0 ==> i == 0
      invariant forall r, c :: 0 <= r < |signal| && 0 <= c < outputSize ==>
        target[r, c] == if r < i && c == ClassIndex(signal[r], lo, hi, outputSize) then 1.0 else 0.0
    {
      var idx := ClassIndex(signal[i], lo, hi, outputSize);
      if outputSize > 0 {
        ClassIndexInRange(signal[i], lo, hi, outputSize);
      }
      if idx < 0 || idx >= outputSize {
        // only when output_size == 0: no column exists, whatever the sign of idx
        return Err(IndexOutOfRange);
      }
      target[i, idx] := 1.0;
    }
    var rows := seq(|signal|, i requires 0 <= i < |signal| =>
      OneHotRow(ClassIndex(signal[i], lo, hi, outputSize), outputSize));
    ToMatrixEquals(target, rows);
    return Ok(OneHot(ToMatrix(target)));
  }

  /** The targets have one entry (or row of `outputs` entries) per sample. */
  predicate TargetFits(t: Target, rows: nat, outputs: nat)
  {
    match t
    case Scalar(vs) => |vs| == rows && outputs == 1
    case OneHot(m) => |m| == rows && IsMatrix(m, outputs) && outputs >= 2
  }

  /** How many samples the targets encode. */
  function TargetRows(t: Target): nat
  {
    match t
    case Scalar(vs) => |vs|
    case OneHot(m) => |m|
  }

  /** No NaN among the targets. */
  predicate TargetFinite(t: Target)
  {
    t.OneHot? || !HasNaN(t.values)
  }

  /** The targets as a matrix; a scalar target behaves as one column. */
  function TargetMatrix(t: Target, outputs: nat): (m: seq<seq<real>>)
    requires TargetFinite(t) && TargetFits(t, TargetRows(t), outputs)
    ensures |m| == TargetRows(t) && IsMatrix(m, outputs)
  {
    match t
    case Scalar(vs) => seq(|vs|, i requires 0 <= i < |vs| => [vs[i].v])
    case OneHot(rows) => rows
  }

  // ---------------------------------------------------------------------
  // The affine map and one training batch

  function Dot(u: seq<real>, v: seq<real>): real
    requires |u| == |v|
  {
    Sum(seq(|u|, i requires 0 <= i < |u| => u[i] * v[i]))
  }

  /** np.dot(x, w) + b for every row x. */
  function Affine(x: seq<seq<real>>, w: seq<seq<real>>, b: seq<real>): (z: seq<seq<real>>)
    requires IsMatrix(x, |w|) && IsMatrix(w, |b|)
    ensures |z| == |x| && IsMatrix(z, |b|)
  {
    seq(|x|, r requires 0 <= r < |x| =>
      seq(|b|, k requires 0 <= k < |b| => Dot(x[r], Column(w, k)) + b[k]))
  }

  /** np.max over every entry of a matrix with non-empty rows. */
  function MaxEntry(m: seq<seq<real>>): real
    requires |m| > 0 && forall i :: 0 <= i < |m| ==> |m[i]| > 0
  {
    if |m| == 1 then MaxOf(m[0])
    else
      var rest := MaxEntry(m[..|m| - 1]);
      var last := MaxOf(m[|m| - 1]);
      if last > rest then last else rest
  }

  /** np.mean over every entry of an r x k matrix. */
  function MeanEntries(m: seq<seq<real>>, k: nat): real
    requires |m| > 0 && k > 0 && IsMatrix(m, k)
  {
    Sum(seq(|m|, i requires 0 <= i < |m| => Sum(m[i]))) / (|m| * k) as real
  }

  /** Weights (input_size x output_size) and bias (output_size). */
  datatype Params = Params(w: seq<seq<real>>, b: seq<real>)

  predicate Shaped(p: Params, inputs: nat, outputs: nat)
  {
    |p.w| == inputs && IsMatrix(p.w, outputs) && |p.b| == outputs
  }

  /** dW, db and the batch's mean squared error. */
  datatype Gradient = Gradient(dW: seq<seq<real>>, db: seq<real>, err: real)

  /** y = np.max(sigmoid(np.dot(x, W) + b)): a single scalar for the whole
      batch, because np.max reduces over every entry. */
  function PeakActivation(p: Params, x: seq<seq<real>>, sigmoid: real -> real): real
    requires |x| >= 1 && |p.b| >= 1 && Shaped(p, |p.w|, |p.b|) && IsMatrix(x, |p.w|)
  {
    var z := Affine(x, p.w, p.b);
    MaxEntry(seq(|z|, r requires 0 <= r < |z| =>
      seq(|p.b|, j requires 0 <= j < |p.b| => sigmoid(z[r][j]))))
  }

  /** The largest entry of a matrix bounds every entry and is one of them. */
  lemma {:induction false} MaxEntrySpec(m: seq<seq<real>>)
    requires |m| > 0 && forall i :: 0 <= i < |m| ==> |m[i]| > 0
    ensures forall i, j :: 0 <= i < |m| && 0 <= j < |m[i]| ==> m[i][j] <= MaxEntry(m)
    ensures exists i, j :: 0 <= i < |m| && 0 <= j < |m[i]| && m[i][j] == MaxEntry(m)
  {
    var last := m[|m| - 1];
    MaxOfSpec(last);
    var jl :| 0 <= jl < |last| && last[jl] == MaxOf(last);
    if |m| > 1 {
      var init := m[..|m| - 1];
      MaxEntrySpec(init);
      var i0, j0 :| 0 <= i0 < |init| && 0 <= j0 < |init[i0]| && init[i0][j0] == MaxEntry(init);
      if MaxOf(last) > MaxEntry(init) {
        assert m[|m| - 1][jl] == MaxEntry(m);
      } else {
        assert m[i0][j0] == MaxEntry(m);
      }
      forall i, j | 0 <= i < |m| && 0 <= j < |m[i]|
        ensures m[i][j] <= MaxEntry(m)
      {
        if i < |m| - 1 {
          assert m[i] == init[i];
        }
      }
    } else {
      assert m[0][jl] == MaxEntry(m);
    }
  }

  /** y is the largest sigmoid activation over the whole batch, and one of
      them: a single scalar, not one per row or per output. */
  lemma PeakActivationSpec(p: Params, x: seq<seq<real>>, sigmoid: real -> real)
    requires |x| >= 1 && |p.b| >= 1 && Shaped(p, |p.w|, |p.b|) && IsMatrix(x, |p.w|)
    ensures forall r, j :: 0 <= r < |x| && 0 <= j < |p.b| ==>
      sigmoid(Affine(x, p.w, p.b)[r][j]) <= PeakActivation(p, x, sigmoid)
    ensures exists r, j :: (0 <= r < |x| && 0 <= j < |p.b| &&
      sigmoid(Affine(x, p.w, p.b)[r][j]) == PeakActivation(p, x, sigmoid))
  {
    var z := Affine(x, p.w, p.b);
    var act := seq(|z|, r requires 0 <= r < |z| =>
      seq(|p.b|, j requires 0 <= j < |p.b| => sigmoid(z[r][j])));
    var y := PeakActivation(p, x, sigmoid);
    assert y == MaxEntry(act);
    MaxEntrySpec(act);
    forall r, j | 0 <= r < |x| && 0 <= j < |p.b|
      ensures sigmoid(z[r][j]) <= y
    {
      assert act[r][j] == sigmoid(z[r][j]);
    }
    var r0, j0 :| 0 <= r0 < |act| && 0 <= j0 < |act[r0]| && act[r0][j0] == y;
    assert sigmoid(z[r0][j0]) == y;
  }

  /** delta = (target - y) * y * (1 - y) */
  function Delta(t: seq<seq<real>>, y: real, k: nat): (d: seq<seq<real>>)
    requires IsMatrix(t, k)
    ensures |d| == |t| && IsMatrix(d, k)
  {
    seq(|t|, r requires 0 <= r < |t| =>
      seq(k, j requires 0 <= j < k => (t[r][j] - y) * y * (1.0 - y)))
  }

  /** dW = np.dot(x.T, delta) / batch_size: divided by the nominal batch
      size even when the last batch is shorter. */
  function WeightGradient(x: seq<seq<real>>, delta: seq<seq<real>>, cols: nat, k: nat, batchSize: nat)
    : (dW: seq<seq<real>>)
    requires |x| == |delta| && IsMatrix(x, cols) && IsMatrix(delta, k) && batchSize >= 1
    ensures |dW| == cols && IsMatrix(dW, k)
  {
    seq(cols, c requires 0 <= c < cols =>
      seq(k, j requires 0 <= j < k => Dot(Column(x, c), Column(delta, j)) / batchSize as real))
  }

  /** db = np.mean(delta, axis=0): divided by the rows actually present. */
  function BiasGradient(delta: seq<seq<real>>, k: nat): (db: seq<real>)
    requires |delta| >= 1 && IsMatrix(delta, k)
    ensures |db| == k
  {
    seq(k, j requires 0 <= j < k => Mean(Column(delta, j)))
  }

  /** np.mean((target - y) ** 2) */
  function SquaredError(t: seq<seq<real>>, y: real, k: nat): real
    requires |t| >= 1 && k >= 1 && IsMatrix(t, k)
  {
    MeanEntries(seq(|t|, r requires 0 <= r < |t| =>
      seq(k, j requires 0 <= j < k => Sq(t[r][j] - y))), k)
  }

  /** The squared deviations of one target row from y sum to a
      non-negative total, zero when every entry equals y. */
  lemma RowSquares(row: seq<real>, y: real, k: nat)
    requires |row| == k
    ensures var sq := seq(k, j requires 0 <= j < k => Sq(row[j] - y));
      0.0 <= Sum(sq) && ((forall j :: 0 <= j < k ==> row[j] == y) ==> Sum(sq) == 0.0)
  {
    var sq := seq(k, j requires 0 <= j < k => Sq(row[j] - y));
    forall j | 0 <= j < k
      ensures 0.0 <= sq[j]
      ensures row[j] == y ==> sq[j] == 0.0
    {
      SqNonNegative(row[j] - y);
    }
    SumNonNegative(sq);
  }

  /** The batch error is never negative, and zero when every target
      entry equals the batch's y. */
  lemma SquaredErrorSpec(t: seq<seq<real>>, y: real, k: nat)
    requires |t| >= 1 && k >= 1 && IsMatrix(t, k)
    ensures 0.0 <= SquaredError(t, y, k)
    ensures (forall r, j :: 0 <= r < |t| && 0 <= j < k ==> t[r][j] == y) ==> SquaredError(t, y, k) == 0.0
  {
    var sq := seq(|t|, r requires 0 <= r < |t| =>
      seq(k, j requires 0 <= j < k => Sq(t[r][j] - y)));
    var rowSums := seq(|t|, i requires 0 <= i < |t| => Sum(sq[i]));
    forall i | 0 <= i < |t|
      ensures 0.0 <= rowSums[i]
      ensures (forall j :: 0 <= j < k ==> t[i][j] == y) ==> rowSums[i] == 0.0
    {
      RowSquares(t[i], y, k);
    }
    SumNonNegative(rowSums);
    var d := (|t| * k) as real;
    assert 0.0 < d;
    assert SquaredError(t, y, k) == Sum(rowSums) / d;
    DivNonNeg(Sum(rowSums), d);
  }

  /** One batch of train(): the forward pass, the scalar y, the gradient of
      the weights and the bias, and the batch's mean squared error. */
  function BatchGradient(p: Params, x: seq<seq<real>>, t: seq<seq<real>>, batchSize: nat,
                         sigmoid: real -> real): (g: Gradient)
    requires |x| >= 1 && |x| == |t| && batchSize >= 1 && |p.b| >= 1
    requires Shaped(p, |p.w|, |p.b|) && IsMatrix(x, |p.w|) && IsMatrix(t, |p.b|)
    ensures |g.dW| == |p.w| && IsMatrix(g.dW, |p.b|) && |g.db| == |p.b|
  {
    var y := PeakActivation(p, x, sigmoid);
    var delta := Delta(t, y, |p.b|);
    Gradient(WeightGradient(x, delta, |p.w|, |p.b|, batchSize), BiasGradient(delta, |p.b|),
             SquaredError(t, y, |p.b|))
  }

  /** w + lr * d, entry by entry. */
  function AddScaledRows(w: seq<seq<real>>, lr: real, d: seq<seq<real>>): (r: seq<seq<real>>)
    requires |d| == |w| && forall i :: 0 <= i < |w| ==> |d[i]| == |w[i]|
    ensures |r| == |w| && forall i :: 0 <= i < |w| ==> |r[i]| == |w[i]|
  {
    seq(|w|, i requires 0 <= i < |w| =>
      seq(|w[i]|, j requires 0 <= j < |w[i]| => w[i][j] + lr * d[i][j]))
  }

  function AddScaled(b: seq<real>, lr: real, d: seq<real>): (r: seq<real>)
    requires |d| == |b|
    ensures |r| == |b|
  {
    seq(|b|, j requires 0 <= j < |b| => b[j] + lr * d[j])
  }

  /** W += lr * dW and b += lr * db, on values. */
  function Update(p: Params, lr: real, g: Gradient): (q: Params)
    requires Shaped(p, |p.w|, |p.b|) && |g.dW| == |p.w| && IsMatrix(g.dW, |p.b|) && |g.db| == |p.b|
    ensures Shaped(q, |p.w|, |p.b|)
  {
    Params(AddScaledRows(p.w, lr, g.dW), AddScaled(p.b, lr, g.db))
  }

  // ---------------------------------------------------------------------
  // Batches and epochs

  /** How many batches range(0, n, batch_size) yields (none for a negative step). */
  function NumBatches(n: nat, batchSize: int): nat
  {
    if batchSize <= 0 then 0 else (n + batchSize - 1) / batchSize
  }

  /** Rows [i, i + batch_size) of a sequence, cut at its end. */
  function BatchOf<X>(s: seq<X>, i: nat, batchSize: nat): seq<X>
  {
    s[Min(i, |s|)..Min(i + batchSize, |s|)]
  }

  lemma MulMono(a: nat, b: nat, c: nat)
    requires a <= b
    ensures a * c <= b * c
  {
  }

  /** Batch j starts inside the data exactly when j < NumBatches. */
  lemma BatchIndex(n: nat, batchSize: nat, j: nat)
    requires batchSize >= 1
    ensures j * batchSize < n <==> j < NumBatches(n, batchSize)
  {
    var q := NumBatches(n, batchSize);
    assert q * batchSize <= n + batchSize - 1 < (q + 1) * batchSize;
    if j < q {
      MulMono(j + 1, q, batchSize);
    } else {
      MulMono(q + 1, j + 1, batchSize);
    }
  }

  /** The first k batches, back to back. */
  function Batches<X>(s: seq<X>, batchSize: nat, k: nat): seq<X>
  {
    if k == 0 then [] else Batches(s, batchSize, k - 1) + BatchOf(s, (k - 1) * batchSize, batchSize)
  }

  /** The batches start at 0, b, 2b, ... and lie back to back: the first
      k of them are the first min(k * b, n) rows. */
  lemma {:induction false} BatchesPrefix<X>(s: seq<X>, batchSize: nat, k: nat)
    requires batchSize >= 1
    ensures Batches(s, batchSize, k) == s[..Min(k * batchSize, |s|)]
  {
    if k > 0 {
      BatchesPrefix(s, batchSize, k - 1);
      assert (k - 1) * batchSize + batchSize == k * batchSize;
      var lo, hi := Min((k - 1) * batchSize, |s|), Min(k * batchSize, |s|);
      assert BatchOf(s, (k - 1) * batchSize, batchSize) == s[lo..hi];
      assert s[..lo] + s[lo..hi] == s[..hi];
    }
  }

  /** All the batches of an epoch together are exactly the rows, in order. */
  lemma BatchesCover<X>(s: seq<X>, batchSize: nat)
    requires batchSize >= 1
    ensures Batches(s, batchSize, NumBatches(|s|, batchSize)) == s
  {
    var k := NumBatches(|s|, batchSize);
    BatchesPrefix(s, batchSize, k);
    BatchIndex(|s|, batchSize, k);
    assert s[..|s|] == s;
  }

  /** Every batch is batch_size rows long except the last, which holds
      between 1 and batch_size rows. */
  lemma BatchSizes<X>(s: seq<X>, batchSize: nat, j: nat)
    requires batchSize >= 1 && j < NumBatches(|s|, batchSize)
    ensures j + 1 < NumBatches(|s|, batchSize) ==> |BatchOf(s, j * batchSize, batchSize)| == batchSize
    ensures j + 1 == NumBatches(|s|, batchSize) ==> 1 <= |BatchOf(s, j * batchSize, batchSize)| <= batchSize
  {
    BatchIndex(|s|, batchSize, j);
    BatchIndex(|s|, batchSize, j + 1);
    assert j * batchSize + batchSize == (j + 1) * batchSize;
  }

  /** Batch j < NumBatches of a data matrix and its targets: the same
      non-empty number of rows, each of the matrices' widths. */
  lemma BatchShape(x: seq<seq<real>>, t: seq<seq<real>>, cols: nat, outputs: nat, batchSize: int, j: nat)
    requires |x| == |t| && IsMatrix(x, cols) && IsMatrix(t, outputs)
    requires j < NumBatches(|x|, batchSize)
    ensures batchSize >= 1
    ensures var xb, tb := BatchOf(x, j * batchSize, batchSize), BatchOf(t, j * batchSize, batchSize);
      |xb| == |tb| && |xb| >= 1 && IsMatrix(xb, cols) && IsMatrix(tb, outputs)
  {
    BatchIndex(|x|, batchSize, j);
  }

  /** Batch j of an epoch: the gradient on rows [j * b, (j + 1) * b) at
      parameters q, applied with learning rate lr, and its error. */
  function BatchStep(q: Params, x: seq<seq<real>>, t: seq<seq<real>>, batchSize: int, lr: real,
                     sigmoid: real -> real, j: nat): (r: (Params, real))
    requires |x| == |t| && |q.b| >= 1 && Shaped(q, |q.w|, |q.b|)
    requires IsMatrix(x, |q.w|) && IsMatrix(t, |q.b|)
    requires j < NumBatches(|x|, batchSize)
    ensures Shaped(r.0, |q.w|, |q.b|)
  {
    BatchShape(x, t, |q.w|, |q.b|, batchSize, j);
    var g := BatchGradient(q, BatchOf(x, j * batchSize, batchSize), BatchOf(t, j * batchSize, batchSize),
                           batchSize, sigmoid);
    (Update(q, lr, g), g.err)
  }

  /** The parameters and the summed batch errors after the first k batches
      of an epoch. */
  function EpochPrefix(p: Params, x: seq<seq<real>>, t: seq<seq<real>>, batchSize: int, lr: real,
                       sigmoid: real -> real, k: nat): (r: (Params, real))
    requires |x| == |t| && |p.b| >= 1 && Shaped(p, |p.w|, |p.b|)
    requires IsMatrix(x, |p.w|) && IsMatrix(t, |p.b|)
    requires k <= NumBatches(|x|, batchSize)
    ensures Shaped(r.0, |p.w|, |p.b|)
  {
    if k == 0 then (p, 0.0)
    else
      var prev := EpochPrefix(p, x, t, batchSize, lr, sigmoid, k - 1);
      var step := BatchStep(prev.0, x, t, batchSize, lr, sigmoid, k - 1);
      (step.0, prev.1 + step.1)
  }

  /** The parameters after e epochs and the error recorded for each:
      sqrt(epoch_error / (n / batch_size)). */
  function TrainEpochs(p: Params, x: seq<seq<real>>, t: seq<seq<real>>, batchSize: int, lr: real,
                       sigmoid: real -> real, sqrt: real -> real, e: nat): (r: (Params, seq<real>))
    requires |x| == |t| && |x| >= 1 && (e == 0 || batchSize != 0) && |p.b| >= 1 && Shaped(p, |p.w|, |p.b|)
    requires IsMatrix(x, |p.w|) && IsMatrix(t, |p.b|)
    ensures Shaped(r.0, |p.w|, |p.b|) && |r.1| == e
  {
    if e == 0 then (p, [])
    else
      var prev := TrainEpochs(p, x, t, batchSize, lr, sigmoid, sqrt, e - 1);
      var epoch := EpochPrefix(prev.0, x, t, batchSize, lr, sigmoid, NumBatches(|x|, batchSize));
      (epoch.0, prev.1 + [sqrt(epoch.1 / (|x| as real / batchSize as real))])
  }

  /** Epoch e's error entry depends on the first e + 1 epochs only: later
      epochs append entries and never rewrite earlier ones. */
  lemma {:induction false} ErrorsExtend(p: Params, x: seq<seq<real>>, t: seq<seq<real>>, batchSize: int, lr: real,
                                        sigmoid: real -> real, sqrt: real -> real, e: nat, f: nat)
    requires |x| == |t| && |x| >= 1 && (f == 0 || batchSize != 0) && |p.b| >= 1 && Shaped(p, |p.w|, |p.b|)
    requires IsMatrix(x, |p.w|) && IsMatrix(t, |p.b|)
    requires e <= f
    ensures TrainEpochs(p, x, t, batchSize, lr, sigmoid, sqrt, f).1[..e]
         == TrainEpochs(p, x, t, batchSize, lr, sigmoid, sqrt, e).1
    decreases f
  {
    if e < f {
      ErrorsExtend(p, x, t, batchSize, lr, sigmoid, sqrt, e, f - 1);
      var prev := TrainEpochs(p, x, t, batchSize, lr, sigmoid, sqrt, f - 1).1;
      assert TrainEpochs(p, x, t, batchSize, lr, sigmoid, sqrt, f).1[..e] == prev[..e];
    } else {
      assert TrainEpochs(p, x, t, batchSize, lr, sigmoid, sqrt, f).1[..e]
          == TrainEpochs(p, x, t, batchSize, lr, sigmoid, sqrt, f).1;
    }
  }

  // ---------------------------------------------------------------------
  // Prediction

  /** What predict() returns: for one output a (rows x 1) matrix, for more
      one value per row. */
  datatype Prediction = PerUnit(m: seq<seq<Num>>) | PerRow(v: seq<Num>)

  /** np.max(target_test). */
  function TargetMax(t: Target, outputs: nat): Num
    requires TargetFits(t, TargetRows(t), outputs) && TargetRows(t) > 0
  {
    match t
    case Scalar(vs) => if HasNaN(vs) then NaN else Fin(MaxOf(Values(vs)))
    case OneHot(m) => Fin(MaxEntry(m))
  }

  /** np.max(target_test) - np.max(target_test): the source subtracts the
      maximum from itself. */
  function TargetRange(t: Target, outputs: nat): (r: Num)
    requires TargetFits(t, TargetRows(t), outputs) && TargetRows(t) > 0
    ensures r == if TargetFinite(t) then Fin(0.0) else NaN
  {
    SubNum(TargetMax(t, outputs), TargetMax(t, outputs))
  }

  /** The write-back of one in-place update, used by Train: W += lr * dW. */
  method AddScaledInPlace(a: array2<real>, lr: real, d: seq<seq<real>>)
    requires |d| == a.Length0 && IsMatrix(d, a.Length1)
    modifies a
    ensures ToMatrix(a) == AddScaledRows(old(ToMatrix(a)), lr, d)
  {
    ghost var before := ToMatrix(a);
    for i := 0 to a.Length0
      invariant forall r, c :: 0 <= r < a.Length0 && 0 <= c < a.Length1 ==>
        a[r, c] == if r < i then before[r][c] + lr * d[r][c] else before[r][c]
    {
      for j := 0 to a.Length1
        invariant forall r, c :: 0 <= r < a.Length0 && 0 <= c < a.Length1 ==>
          a[r, c] == if r < i || (r == i && c < j) then before[r][c] + lr * d[r][c] else before[r][c]
      {
        a[i, j] := a[i, j] + lr * d[i][j];
      }
    }
    ToMatrixEquals(a, AddScaledRows(before, lr, d));
  }

  /** b += lr * db, in place. */
  method AddScaledVectorInPlace(a: array<real>, lr: real, d: seq<real>)
    requires |d| == a.Length
    modifies a
    ensures a[..] == AddScaled(old(a[..]), lr, d)
  {
    ghost var before := a[..];
    for j := 0 to a.Length
      invariant forall c :: 0 <= c < a.Length ==> a[c] == if c < j then before[c] + lr * d[c] else before[c]
    {
      a[j] := a[j] + lr * d[j];
    }
    assert forall c :: 0 <= c < a.Length ==> a[..][c] == AddScaled(before, lr, d)[c];
  }

  /** One batch: the gradient at the current W and b, then W += lr * dW
      and b += lr * db in place. */
  method ApplyBatch(W: array2<real>, b: array<real>, x: seq<seq<real>>, t: seq<seq<real>>,
                    batchSize: nat, lr: real, sigmoid: real -> real, j: nat)
    returns (err: real)
    requires W.Length1 == b.Length >= 1 && |x| == |t| && IsMatrix(x, W.Length0) && IsMatrix(t, b.Length)
    requires j < NumBatches(|x|, batchSize)
    modifies W, b
    ensures (Params(ToMatrix(W), b[..]), err)
         == BatchStep(old(Params(ToMatrix(W), b[..])), x, t, batchSize, lr, sigmoid, j)
  {
    BatchShape(x, t, W.Length0, b.Length, batchSize, j);
    var g := BatchGradient(Params(ToMatrix(W), b[..]), BatchOf(x, j * batchSize, batchSize),
                           BatchOf(t, j * batchSize, batchSize), batchSize, sigmoid);
    AddScaledInPlace(W, lr, g.dW);
    AddScaledVectorInPlace(b, lr, g.db);
    err := g.err;
  }

  /** One epoch of train(): the batches in order, each followed by the
      in-place update of W and b; returns the summed batch errors. */
  method RunEpoch(W: array2<real>, b: array<real>, x: seq<seq<real>>, t: seq<seq<real>>,
                  batchSize: nat, lr: real, sigmoid: real -> real)
    returns (epochError: real)
    requires W.Length1 == b.Length >= 1 && |x| == |t| && IsMatrix(x, W.Length0) && IsMatrix(t, b.Length)
    requires batchSize >= 1
    modifies W, b
    ensures (Params(ToMatrix(W), b[..]), epochError)
         == EpochPrefix(old(Params(ToMatrix(W), b[..])), x, t, batchSize, lr, sigmoid, NumBatches(|x|, batchSize))
  {
    ghost var pe := Params(ToMatrix(W), b[..]);
    epochError := 0.0;
    // batch k starts at row k * batch_size: range(0, n, batch_size)
    for k := 0 to NumBatches(|x|, batchSize)
      invariant (Params(ToMatrix(W), b[..]), epochError) == EpochPrefix(pe, x, t, batchSize, lr, sigmoid, k)
    {
      var err := ApplyBatch(W, b, x, t, batchSize, lr, sigmoid, k);
      epochError := epochError + err;
    }
  }

  /** The epoch loop of train(): each epoch runs its batches and then
      records sqrt(epoch_error / (n / batch_size)) in error[epoch]. */
  method RunEpochs(W: array2<real>, b: array<real>, error: array<real>, x: seq<seq<real>>, t: seq<seq<real>>,
                   batchSize: int, lr: real, sigmoid: real -> real, sqrt: real -> real)
    requires W.Length1 == b.Length >= 1 && |x| == |t| && |x| >= 1
    requires IsMatrix(x, W.Length0) && IsMatrix(t, b.Length)
    requires error.Length == 0 || batchSize != 0
    requires error != b
    modifies W, b, error
    ensures (Params(ToMatrix(W), b[..]), error[..])
         == TrainEpochs(old(Params(ToMatrix(W), b[..])), x, t, batchSize, lr, sigmoid, sqrt, error.Length)
  {
    ghost var p0 := Params(ToMatrix(W), b[..]);
    for epoch := 0 to error.Length
      invariant (Params(ToMatrix(W), b[..]), error[..epoch])
             == TrainEpochs(p0, x, t, batchSize, lr, sigmoid, sqrt, epoch)
    {
      ghost var recorded := error[..epoch];
      var epochError := 0.0;
      if batchSize > 0 {
        epochError := RunEpoch(W, b, x, t, batchSize, lr, sigmoid);
      }
      error[epoch] := sqrt(epochError / (|x| as real / batchSize as real));
      assert error[..epoch + 1] == recorded + [error[epoch]];
    }
    assert error[..error.Length] == error[..];
  }

  /** The exceptions train() can raise. */
  datatype TrainError =
    | NegativeEpochs   // np.zeros(epochs) with epochs < 0: ValueError
    | ZeroStep         // range(0, n, 0): ValueError
    | BroadcastError   // one output, input_size != 1: W (N x 1) += an N-vector cannot broadcast

  /** The readout network: partitions and targets fixed at construction;
      W aliases W_init and b aliases b_init, so training updates both. */
  class ReadoutNet {
    const trainData: seq<seq<real>>
    const testData: seq<seq<real>>
    const inputSize: nat
    const outputSize: nat
    const targetTrain: Target
    const targetTest: Target
    const lr: real
    const WInit: array2<real>
    const bInit: array<real>
    var W: array2<real>
    var b: array<real>
    var error: array<real>

    ghost predicate Valid()
      reads this
    {
      IsMatrix(trainData, inputSize) && IsMatrix(testData, inputSize) &&
      |trainData| >= 1 && |testData| >= 1 && outputSize >= 1 &&
      TargetFits(targetTrain, |trainData|, outputSize) &&
      TargetFits(targetTest, |testData|, outputSize) &&
      W.Length0 == inputSize && W.Length1 == outputSize && b.Length == outputSize &&
      W == WInit && b == bInit
    }

    /** The current weights and bias as values. */
    function Current(): (p: Params)
      reads this, W, b
    {
      Params(ToMatrix(W), b[..])
    }

    /** readoutNet.__init__ once the partitions and targets are known: W and
        b are fresh arrays that W_init and b_init also hold. The source sets
        no error attribute here (it first appears in train, and reading it
        before raises AttributeError); the model starts error as an empty
        array, which train replaces. */
    constructor (trainData: seq<seq<real>>, testData: seq<seq<real>>, inputSize: nat, outputSize: nat,
                 targetTrain: Target, targetTest: Target, lr: real,
                 initW: (nat, nat) -> real, initB: nat -> real)
      requires IsMatrix(trainData, inputSize) && IsMatrix(testData, inputSize)
      requires |trainData| >= 1 && |testData| >= 1 && outputSize >= 1
      requires TargetFits(targetTrain, |trainData|, outputSize) && TargetFits(targetTest, |testData|, outputSize)
      ensures Valid() && fresh(W) && fresh(b) && fresh(error) && error.Length == 0
      ensures this.trainData == trainData && this.testData == testData
      ensures this.inputSize == inputSize && this.outputSize == outputSize
      ensures this.targetTrain == targetTrain && this.targetTest == targetTest && this.lr == lr
      ensures forall i, j :: 0 <= i < inputSize && 0 <= j < outputSize ==> W[i, j] == initW(i, j)
      ensures forall j :: 0 <= j < outputSize ==> b[j] == initB(j)
    {
      this.trainData := trainData;
      this.testData := testData;
      this.inputSize := inputSize;
      this.outputSize := outputSize;
      this.targetTrain := targetTrain;
      this.targetTest := targetTest;
      this.lr := lr;
      var w0 := new real[inputSize, outputSize]((i: int, j: int) requires 0 <= i && 0 <= j => initW(i, j));
      var b0 := new real[outputSize]((j: int) requires 0 <= j => initB(j));
      WInit := w0;
      bInit := b0;
      W := w0;
      b := b0;
      error := new real[0];
    }

    /** np.dot(test_data, W) + b */
    function NetOut(): (z: seq<seq<real>>)
      requires Valid()
      reads this, W, b
      ensures |z| == |testData| && IsMatrix(z, outputSize)
    {
      Affine(testData, ToMatrix(W), b[..])
    }

    /** predict(): the one-output branch scales net_out; the other takes
        one argmax per test row and maps it back through the range. */
    function Predict(): (r: Prediction)
      requires Valid()
      reads this, W, b
      ensures r.PerUnit? <==> outputSize == 1
      ensures r.PerUnit? ==> |r.m| == |testData| && forall i :: 0 <= i < |r.m| ==> |r.m[i]| == 1
      ensures r.PerRow? ==> |r.v| == |testData|
    {
      var range := TargetRange(targetTest, outputSize);
      var net := NetOut();
      if outputSize == 1 then
        PerUnit(seq(|net|, i requires 0 <= i < |net| =>
          seq(|net[i]|, j requires 0 <= j < |net[i]| => MulNum(range, net[i][j]))))
      else
        PerRow(seq(|net|, i requires 0 <= i < |net| =>
          DivNum(MulNum(range, ArgMax(net[i]) as real), (outputSize - 1) as real)))
    }

    /** Whether the first update would fail to broadcast: a one-output
        network whose weight column is not a single row. */
    predicate Unbroadcastable()
      reads this
    {
      targetTrain.Scalar? && inputSize != 1
    }

    /** train(): error gets one entry per epoch; each epoch walks the
        training rows in contiguous batches and updates W and b in place,
        which are the very arrays W_init and b_init hold. A zero step and
        an update that cannot broadcast both raise in the first epoch,
        before anything but error has changed, so they are reported up
        front. */
    method Train(epochs: int, batchSize: int, sigmoid: real -> real, sqrt: real -> real)
      returns (r: Result<(array2<real>, array<real>), TrainError>)
      requires Valid() && TargetFinite(targetTrain)
      modifies this, W, b
      ensures Valid() && W == old(W) && b == old(b)
      ensures W == WInit && b == bInit
      ensures r.Err? <==> epochs < 0 || (epochs > 0 && (batchSize == 0 || (batchSize > 0 && Unbroadcastable())))
      ensures epochs < 0 ==> r == Err(NegativeEpochs) && error == old(error) && Current() == old(Current())
      ensures epochs >= 0 ==> fresh(error) && error.Length == epochs
      ensures r.Err? && epochs >= 0 ==>
        (r.error == (if batchSize == 0 then ZeroStep else BroadcastError) &&
         Current() == old(Current()) && forall e :: 0 <= e < epochs ==> error[e] == 0.0)
      ensures r.Ok? ==>
        (r.value == (W, b) &&
         Current() == TrainEpochs(old(Current()), trainData, TargetMatrix(targetTrain, outputSize),
                                  batchSize, lr, sigmoid, sqrt, epochs).0 &&
         error[..] == TrainEpochs(old(Current()), trainData, TargetMatrix(targetTrain, outputSize),
                                  batchSize, lr, sigmoid, sqrt, epochs).1)
    {
      if epochs < 0 {
        return Err(NegativeEpochs);
      }
      error := new real[epochs](_ => 0.0);
      if epochs > 0 && batchSize == 0 {
        return Err(ZeroStep);
      }
      if epochs > 0 && batchSize > 0 && Unbroadcastable() {
        return Err(BroadcastError);
      }
      RunEpochs(W, b, error, trainData, TargetMatrix(targetTrain, outputSize), batchSize, lr, sigmoid, sqrt);
      return Ok((W, b));
    }
  }

  /** The scale factor predict() uses is max - max, so every prediction is
      0, or NaN when the test targets hold NaN, whatever the weights. */
  lemma PredictIgnoresNetwork(net: ReadoutNet)
    requires net.Valid()
    ensures var r := net.Predict();
      var expected := if TargetFinite(net.targetTest) then Fin(0.0) else NaN;
      (r.PerUnit? ==> forall i :: 0 <= i < |r.m| ==> r.m[i][0] == expected) &&
      (r.PerRow? ==> forall i :: 0 <= i < |r.v| ==> r.v[i] == expected)
  {
    var expected := if TargetFinite(net.targetTest) then Fin(0.0) else NaN;
    assert TargetRange(net.targetTest, net.outputSize) == expected;
    forall x: real
      ensures MulNum(expected, x) == expected
    {
      if expected.Fin? {
        assert 0.0 * x == 0.0;
      }
    }
  }

  /** readoutNet.__init__: split spike_times and input_signal at
      int(train_size * T), encode the targets of each partition from its
      own range (train first), and take W_init, b_init from initW and
      initB in place of np.random.randn. */
  method NewReadout(data: SpikeDataset, outputSize: int, lr: real, trainSize: real,
                    initW: (nat, nat) -> real, initB: nat -> real)
    returns (r: Result<ReadoutNet, TargetError>)
    requires data.Valid()
    ensures var s := SplitIndex(trainSize, |data.spikeTimes|);
      var encTrain := EncodeTarget(data.inputSignal[..s], outputSize);
      var encTest := EncodeTarget(data.inputSignal[s..], outputSize);
      (r.Err? <==> encTrain.Err? || encTest.Err?) &&
      (r.Err? ==> r.error == if encTrain.Err? then encTrain.error else encTest.error) &&
      (r.Ok? ==>
        fresh(r.value) && r.value.Valid() &&
        r.value.trainData == data.spikeTimes[..s] && r.value.testData == data.spikeTimes[s..] &&
        r.value.inputSize == data.channels && r.value.outputSize == outputSize &&
        r.value.targetTrain == encTrain.value && r.value.targetTest == encTest.value &&
        r.value.lr == lr && r.value.W == r.value.WInit && r.value.b == r.value.bInit &&
        fresh(r.value.W) && fresh(r.value.b) &&
        (forall i, j :: 0 <= i < r.value.inputSize && 0 <= j < r.value.outputSize ==>
          r.value.W[i, j] == initW(i, j)) &&
        (forall j :: 0 <= j < r.value.outputSize ==> r.value.b[j] == initB(j)))
  {
    var T := |data.spikeTimes|;
    var s := SplitIndex(trainSize, T);
    var trainData := data.spikeTimes[..s];
    var testData := data.spikeTimes[s..];
    var targetTrain := GenerateTarget(data.inputSignal[..s], outputSize);
    if targetTrain.Err? {
      return Err(targetTrain.error);
    }
    var targetTest := GenerateTarget(data.inputSignal[s..], outputSize);
    if targetTest.Err? {
      return Err(targetTest.error);
    }
    var net := new ReadoutNet(trainData, testData, data.channels, outputSize as nat,
                              targetTrain.value, targetTest.value, lr, initW, initB);
    return Ok(net);
  }
}
