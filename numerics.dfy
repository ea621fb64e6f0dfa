/** Numeric vocabulary shared by the model: floats that may be NaN,
    the outcome of an operation that raises in Python, sums and means
    over reals, and matrices written as sequences of rows. */
module Numerics {

  /** A float as numpy yields it here: a real number, or NaN. */
  datatype Num = NaN | Fin(v: real)

  /** The outcome of an operation: its value, or the exception it raises. */
  datatype Result<T, E> = Ok(value: T) | Err(error: E)

  function Max(a: int, b: int): int { if a >= b then a else b }

  function Min(a: int, b: int): int { if a <= b then a else b }

  /** The sum of a series, adding the last element last. */
  function Sum(s: seq<real>): real
  {
    if s == [] then 0.0 else Sum(s[..|s| - 1]) + s[|s| - 1]
  }

  /** Every element between lo and hi puts the sum between |s|*lo and |s|*hi. */
  lemma {:induction false} SumBounds(s: seq<real>, lo: real, hi: real)
    requires forall i :: 0 <= i < |s| ==> lo <= s[i] <= hi
    ensures |s| as real * lo <= Sum(s) <= |s| as real * hi
  {
    if s != [] {
      SumBounds(s[..|s| - 1], lo, hi);
    }
  }

  /** A constant series sums to its length times the constant. */
  lemma {:induction false} SumConstant(s: seq<real>, c: real)
    requires forall i :: 0 <= i < |s| ==> s[i] == c
    ensures Sum(s) == |s| as real * c
  {
    if s != [] {
      SumConstant(s[..|s| - 1], c);
    }
  }

  /** A sum of non-negative terms is non-negative, and zero only when
      every term is. */
  lemma {:induction false} SumNonNegative(s: seq<real>)
    requires forall i :: 0 <= i < |s| ==> 0.0 <= s[i]
    ensures 0.0 <= Sum(s)
    ensures Sum(s) == 0.0 <==> forall i :: 0 <= i < |s| ==> s[i] == 0.0
  {
    if s != [] {
      var init := s[..|s| - 1];
      SumNonNegative(init);
      if Sum(s) == 0.0 {
        forall i | 0 <= i < |s|
          ensures s[i] == 0.0
        {
          if i < |s| - 1 {
            assert s[i] == init[i];
          }
        }
      }
    }
  }

  /** Two series that agree element by element have the same sum. */
  lemma {:induction false} SumPointwise(s: seq<real>, t: seq<real>)
    requires |s| == |t|
    requires forall i :: 0 <= i < |s| ==> s[i] == t[i]
    ensures Sum(s) == Sum(t)
  {
    assert s == t;
  }

  /** Sum distributes over element-wise addition. */
  lemma {:induction false} SumAdd(s: seq<real>, t: seq<real>, u: seq<real>)
    requires |s| == |t| == |u|
    requires forall i :: 0 <= i < |u| ==> u[i] == s[i] + t[i]
    ensures Sum(u) == Sum(s) + Sum(t)
  {
    if |u| > 0 {
      SumAdd(s[..|s| - 1], t[..|t| - 1], u[..|u| - 1]);
    }
  }

  /** Dividing every element by k divides the sum by k. */
  lemma {:induction false} SumDiv(s: seq<real>, t: seq<real>, k: real)
    requires k != 0.0 && |s| == |t|
    requires forall i :: 0 <= i < |t| ==> t[i] == s[i] / k
    ensures Sum(t) == Sum(s) / k
  {
    if |t| > 0 {
      SumDiv(s[..|s| - 1], t[..|t| - 1], k);
      var a, b := Sum(s[..|s| - 1]), s[|s| - 1];
      assert a / k + b / k == (a + b) / k;
    }
  }

  /** A matrix summed column by column gives the same total as summed row by row. */
  lemma {:induction false} SumRowsColumns(m: seq<seq<real>>, n: nat)
    requires IsMatrix(m, n)
    ensures Sum(ColumnSums(m, n)) == Sum(RowSums(m))
  {
    if |m| > 0 {
      var m' := m[..|m| - 1];
      var last := m[|m| - 1];
      SumRowsColumns(m', n);
      ColumnSumsLastRow(m, n);
      SumAdd(ColumnSums(m', n), last, ColumnSums(m, n));
      RowSumsLastRow(m);
    } else {
      SumConstant(ColumnSums(m, n), 0.0);
    }
  }

  /** The total of each column, in column order. */
  function ColumnSums(m: seq<seq<real>>, n: nat): (r: seq<real>)
    requires IsMatrix(m, n)
    ensures |r| == n
  {
    seq(n, c requires 0 <= c < n => Sum(Column(m, c)))
  }

  /** The total of each row, in row order. */
  function RowSums(m: seq<seq<real>>): (r: seq<real>)
    ensures |r| == |m|
  {
    seq(|m|, i requires 0 <= i < |m| => Sum(m[i]))
  }

  /** Adding a last row adds its entries to the column totals. */
  lemma ColumnSumsLastRow(m: seq<seq<real>>, n: nat)
    requires |m| > 0 && IsMatrix(m, n)
    ensures forall c :: 0 <= c < n ==>
      ColumnSums(m, n)[c] == ColumnSums(m[..|m| - 1], n)[c] + m[|m| - 1][c]
  {
    forall c | 0 <= c < n
      ensures ColumnSums(m, n)[c] == ColumnSums(m[..|m| - 1], n)[c] + m[|m| - 1][c]
    {
      assert Column(m, c)[..|m| - 1] == Column(m[..|m| - 1], c);
    }
  }

  /** Adding a last row adds its total to the sum of the row totals. */
  lemma RowSumsLastRow(m: seq<seq<real>>)
    requires |m| > 0
    ensures Sum(RowSums(m)) == Sum(RowSums(m[..|m| - 1])) + Sum(m[|m| - 1])
  {
    assert RowSums(m)[..|m| - 1] == RowSums(m[..|m| - 1]);
  }

  /** The sum of a slice is the sum without its last element plus that element. */
  lemma SumSliceLast(a: seq<real>, lo: nat, hi: nat)
    requires lo < hi <= |a|
    ensures Sum(a[lo..hi]) == Sum(a[lo..hi - 1]) + a[hi - 1]
  {
    assert a[lo..hi][..hi - 1 - lo] == a[lo..hi - 1];
  }

  /** Multiplying both sides by a non-negative factor keeps the order. */
  lemma MulLe(a: real, b: real, c: real)
    requires a <= b && 0.0 <= c
    ensures a * c <= b * c
  {
  }

  /** A non-negative number over a positive one is non-negative. */
  lemma DivNonNeg(x: real, d: real)
    requires 0.0 <= x && 0.0 < d
    ensures 0.0 <= x / d
  {
  }

  /** x <= m * d with d positive gives x / d <= m. */
  lemma DivAtMost(x: real, d: real, m: real)
    requires 0.0 < d && x <= m * d
    ensures x / d <= m
  {
  }

  /** Dividing both sides by a positive number keeps the order. */
  lemma DivLe(a: real, b: real, d: real)
    requires a <= b && 0.0 < d
    ensures a / d <= b / d
  {
  }

  /** Dividing by a non-zero number and multiplying back gives the number. */
  lemma DivMul(x: real, d: real)
    requires d != 0.0
    ensures (x / d) * d == x
  {
  }

  /** A positive number over itself is one. */
  lemma DivSelf(d: real)
    requires 0.0 < d
    ensures d / d == 1.0
  {
  }

  /** The square of a real. */
  function Sq(e: real): real { e * e }

  /** A square is never negative, and the square of zero is zero. */
  lemma SqNonNegative(e: real)
    ensures 0.0 <= Sq(e)
    ensures e == 0.0 ==> Sq(e) == 0.0
  {
    if e >= 0.0 {
      MulLe(0.0, e, e);
    } else {
      MulLe(0.0, -e, -e);
      assert (-e) * (-e) == e * e;
    }
  }

  /** np.mean of a non-empty series of reals. */
  function Mean(s: seq<real>): real
    requires |s| > 0
  {
    Sum(s) / |s| as real
  }

  predicate HasNaN(s: seq<Num>)
  {
    exists i :: 0 <= i < |s| && s[i].NaN?
  }

  function Values(s: seq<Num>): seq<real>
    requires !HasNaN(s)
  {
    seq(|s|, i requires 0 <= i < |s| => s[i].v)
  }

  /** np.mean over floats: NaN for an empty series (numpy warns and
      returns nan) and whenever some entry is NaN. */
  function MeanNum(s: seq<Num>): (r: Num)
    ensures r.NaN? <==> |s| == 0 || exists i :: 0 <= i < |s| && s[i].NaN?
    ensures r.Fin? ==> r.v * |s| as real == Sum(Values(s))
  {
    if |s| == 0 || HasNaN(s) then NaN else Fin(Mean(Values(s)))
  }

  /** Every row has `cols` entries. */
  predicate IsMatrix(m: seq<seq<real>>, cols: nat)
  {
    forall i :: 0 <= i < |m| ==> |m[i]| == cols
  }

  /** Column c of a matrix (m[:, c]). */
  function Column(m: seq<seq<real>>, c: nat): seq<real>
    requires forall i :: 0 <= i < |m| ==> c < |m[i]|
  {
    seq(|m|, i requires 0 <= i < |m| => m[i][c])
  }

  /** The contents of a two-dimensional array, row by row. */
  function ToMatrix(a: array2<real>): (m: seq<seq<real>>)
    reads a
    ensures |m| == a.Length0 && IsMatrix(m, a.Length1)
    ensures forall i, j :: 0 <= i < a.Length0 && 0 <= j < a.Length1 ==> m[i][j] == a[i, j]
  {
    seq(a.Length0, i requires 0 <= i < a.Length0 reads a =>
      seq(a.Length1, j requires 0 <= j < a.Length1 reads a => a[i, j]))
  }

  /** An array equals a matrix of its shape that agrees with it entry by entry. */
  lemma ToMatrixEquals(a: array2<real>, m: seq<seq<real>>)
    requires |m| == a.Length0 && IsMatrix(m, a.Length1)
    requires forall i, j :: 0 <= i < a.Length0 && 0 <= j < a.Length1 ==> m[i][j] == a[i, j]
    ensures ToMatrix(a) == m
  {
    var t := ToMatrix(a);
    forall i | 0 <= i < |m|
      ensures t[i] == m[i]
    {
    }
  }
}
