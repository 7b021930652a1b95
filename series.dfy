/** Per-column rules of the pipeline, as pandas evaluates them on one column:
    `shift(k)`, `rolling(window=w, min_periods=1).mean()`,
    `rolling(window=w, min_periods=1).std().fillna(0)` and the label
    `(shift(-1) > s).astype(int)` (src/features.py:12, 20-21, 30).
    A cell is `None` where pandas holds NaN. */
module Series {

  datatype Option<+T> = None | Some(value: T)

  /** One column of a frame, one cell per row, in row order. */
  type Column = seq<Option<real>>

  predicate Complete(s: Column) {
    forall i :: 0 <= i < |s| ==> s[i].Some?
  }

  function Nones(n: nat): (r: Column)
    ensures |r| == n && forall i :: 0 <= i < n ==> r[i] == None
  {
    seq(n, _ => None)
  }

  // ---------------------------------------------------------------- shift

  /** `s.shift(k)`: the values move k rows down (up when k < 0); the rows
      left without a value become NaN. */
  function Shift(s: Column, k: int): (r: Column)
    ensures |r| == |s|
    ensures forall i :: 0 <= i < |s| && 0 <= i - k < |s| ==> r[i] == s[i - k]
    ensures forall i :: 0 <= i < |s| && !(0 <= i - k < |s|) ==> r[i] == None
  {
    var n := |s|;
    if k >= 0 then
      var m := if k < n then k else n;
      Nones(m) + s[..n - m]
    else
      var m := if -k < n then -k else n;
      s[m..] + Nones(m)
  }

  // ------------------------------------------------------- trailing windows

  /** First row of the trailing window of width `w` that ends at row `i`. */
  function WindowStart(i: nat, w: int): nat
    requires w >= 1
  {
    if i + 1 >= w then i + 1 - w else 0
  }

  /** The rows `max(0, i-w+1) .. i` of `s`: at most `w` rows, ending at row `i`. */
  function Window(s: Column, i: nat, w: int): (r: Column)
    requires w >= 1 && i < |s|
    ensures |r| == (if i + 1 < w then i + 1 else w)
    ensures forall j :: 0 <= j < |r| ==> r[j] == s[i + 1 - |r| + j]
  {
    s[WindowStart(i, w)..i + 1]
  }

  /** The observed (non-NaN) values of a column, in order; pandas' rolling
      aggregations skip NaN cells. */
  function Observed(s: Column): (r: seq<real>)
    ensures |r| <= |s|
  {
    if s == [] then []
    else (if s[0].Some? then [s[0].value] else []) + Observed(s[1..])
  }

  function Sum(xs: seq<real>): real {
    if xs == [] then 0.0 else xs[0] + Sum(xs[1..])
  }

  /** Real product; squares are written `Mul(d, d)` so that their sign
      follows from `MulSign` instead of non-linear solving. */
  function Mul(a: real, b: real): real {
    a * b
  }

  /** Sum of squared deviations from `mu`. */
  function SumSquares(xs: seq<real>, mu: real): real {
    if xs == [] then 0.0 else Mul(xs[0] - mu, xs[0] - mu) + SumSquares(xs[1..], mu)
  }

  /** Arithmetic mean; undefined (NaN) without any sample, which with
      `min_periods=1` is the only case pandas leaves undefined. */
  function Mean(xs: seq<real>): Option<real> {
    if |xs| == 0 then None else Some(Sum(xs) / (|xs| as real))
  }

  /** Sample variance (divisor `m - 1`, pandas' default `ddof=1`); undefined
      with fewer than two samples. */
  function SampleVariance(xs: seq<real>): Option<real> {
    if |xs| < 2 then None
    else Some(SumSquares(xs, Sum(xs) / (|xs| as real)) / ((|xs| - 1) as real))
  }

  /** `s.fillna(v)`. */
  function FillNa(s: Column, v: real): (r: Column)
    ensures |r| == |s| && Complete(r)
    ensures forall i :: 0 <= i < |s| && s[i].Some? ==> r[i] == s[i]
    ensures forall i :: 0 <= i < |s| && s[i].None? ==> r[i] == Some(v)
  {
    seq(|s|, i requires 0 <= i < |s| => if s[i].Some? then s[i] else Some(v))
  }

  /** `s.rolling(window=w, min_periods=1).mean()`. */
  function RollingMean(s: Column, w: int): (r: Column)
    requires w >= 1
    ensures |r| == |s|
  {
    seq(|s|, i requires 0 <= i < |s| => Mean(Observed(Window(s, i, w))))
  }

  /** `s.rolling(window=w, min_periods=1).var()`: the square of what `.std()`
      gives, before the NaN cells are filled. */
  function RollingVariance(s: Column, w: int): (r: Column)
    requires w >= 1
    ensures |r| == |s|
  {
    seq(|s|, i requires 0 <= i < |s| => SampleVariance(Observed(Window(s, i, w))))
  }

  /** The `_roll_std_` column: the rolling spread with NaN filled by 0. The
      model keeps the variance; see `RollingVariance`. */
  function RollingStd(s: Column, w: int): (r: Column)
    requires w >= 1
    ensures |r| == |s|
  {
    FillNa(RollingVariance(s, w), 0.0)
  }

  // ------------------------------------------------------------------ label

  /** Element-wise `a > b`; a comparison with NaN is false. */
  function Greater(a: Column, b: Column): (r: seq<bool>)
    requires |a| == |b|
    ensures |r| == |a|
  {
    seq(|a|, i requires 0 <= i < |a| => a[i].Some? && b[i].Some? && a[i].value > b[i].value)
  }

  /** `.astype(int)` of a boolean column: 1 for true, 0 for false. */
  function AsInt(bs: seq<bool>): (r: Column)
    ensures |r| == |bs|
  {
    seq(|bs|, i requires 0 <= i < |bs| => Some(if bs[i] then 1.0 else 0.0))
  }

  /** `(price.shift(-1) > price).astype(int)`. */
  function TargetUp(price: Column): (r: Column)
    ensures |r| == |price|
  {
    AsInt(Greater(Shift(price, -1), price))
  }

  // ================================================================ lemmas

  /** On a column without NaN every value is observed. */
  lemma {:induction false} ObservedComplete(s: Column)
    requires Complete(s)
    ensures |Observed(s)| == |s|
    ensures forall j :: 0 <= j < |s| ==> Observed(s)[j] == s[j].value
  {
    if s != [] {
      ObservedComplete(s[1..]);
    }
  }

  lemma {:induction false} SumBounds(xs: seq<real>, lo: real, hi: real)
    requires forall j :: 0 <= j < |xs| ==> lo <= xs[j] <= hi
    ensures (|xs| as real) * lo <= Sum(xs) <= (|xs| as real) * hi
  {
    if xs != [] {
      SumBounds(xs[1..], lo, hi);
    }
  }

  /** The mean of at least one sample lies between any lower and upper bound
      of the samples. */
  lemma MeanBetween(xs: seq<real>, lo: real, hi: real)
    requires |xs| > 0
    requires forall j :: 0 <= j < |xs| ==> lo <= xs[j] <= hi
    ensures Mean(xs).Some? && lo <= Mean(xs).value <= hi
  {
    SumBounds(xs, lo, hi);
    var m := |xs| as real;
    assert Sum(xs) / m * m == Sum(xs);
  }

  lemma MulSign(a: real, b: real)
    ensures a > 0.0 && b > 0.0 ==> Mul(a, b) > 0.0
    ensures a < 0.0 && b < 0.0 ==> Mul(a, b) > 0.0
    ensures a == 0.0 ==> Mul(a, b) == 0.0
  {
    if a < 0.0 && b < 0.0 {
      assert Mul(a, b) == Mul(-a, -b);
    }
  }

  /** A square is never negative, and zero only for zero. */
  lemma Square(d: real)
    ensures Mul(d, d) >= 0.0
    ensures Mul(d, d) == 0.0 <==> d == 0.0
  {
    MulSign(d, d);
  }

  lemma {:induction false} SumSquaresNonNegative(xs: seq<real>, mu: real)
    ensures SumSquares(xs, mu) >= 0.0
  {
    if xs != [] {
      SumSquaresNonNegative(xs[1..], mu);
      Square(xs[0] - mu);
    }
  }

  /** A sum of squared deviations is zero exactly when every sample equals `mu`. */
  lemma {:induction false} SumSquaresZero(xs: seq<real>, mu: real)
    ensures SumSquares(xs, mu) == 0.0 <==> forall j :: 0 <= j < |xs| ==> xs[j] == mu
  {
    if xs != [] {
      SumSquaresZero(xs[1..], mu);
      SumSquaresNonNegative(xs[1..], mu);
      Square(xs[0] - mu);
      if forall j :: 0 <= j < |xs[1..]| ==> xs[1..][j] == mu {
        if xs[0] == mu {
          forall j | 0 <= j < |xs| ensures xs[j] == mu {
            if j > 0 { assert xs[j] == xs[1..][j - 1]; }
          }
        }
      } else {
        var j :| 0 <= j < |xs[1..]| && xs[1..][j] != mu;
        assert xs[j + 1] != mu;
      }
    }
  }

  lemma {:induction false} SumConstant(xs: seq<real>, c: real)
    requires forall j :: 0 <= j < |xs| ==> xs[j] == c
    ensures Sum(xs) == (|xs| as real) * c
  {
    if xs != [] {
      SumConstant(xs[1..], c);
    }
  }

  /** The sample variance is never negative, and it is zero exactly when all
      samples are equal. */
  lemma SampleVarianceZeroIff(xs: seq<real>)
    requires |xs| >= 2
    ensures SampleVariance(xs).Some? && SampleVariance(xs).value >= 0.0
    ensures SampleVariance(xs).value == 0.0 <==> forall j :: 0 <= j < |xs| ==> xs[j] == xs[0]
  {
    var m := |xs| as real;
    var mu := Sum(xs) / m;
    SumSquaresNonNegative(xs, mu);
    SumSquaresZero(xs, mu);
    if forall j :: 0 <= j < |xs| ==> xs[j] == xs[0] {
      SumConstant(xs, xs[0]);
      assert mu == xs[0];
    } else {
      var j :| 0 <= j < |xs| && xs[j] != xs[0];
      assert !(xs[j] == mu && xs[0] == mu);
    }
  }

  /** On a column without NaN the rolling mean is defined on every row:
      `min_periods=1` accepts the short windows at the start. */
  lemma RollingMeanDefined(s: Column, w: int, i: nat)
    requires w >= 1 && i < |s| && Complete(s)
    ensures |Observed(Window(s, i, w))| == (if i + 1 < w then i + 1 else w)
    ensures RollingMean(s, w)[i].Some?
  {
    var win := Window(s, i, w);
    assert Complete(win);
    ObservedComplete(win);
  }

  /** On a column without NaN the rolling mean lies between any bounds of
      the values in rows `max(0, i-w+1) .. i`. */
  lemma RollingMeanComplete(s: Column, w: int, i: nat, lo: real, hi: real)
    requires w >= 1 && i < |s| && Complete(s)
    requires forall j :: WindowStart(i, w) <= j <= i ==> lo <= s[j].value <= hi
    ensures RollingMean(s, w)[i].Some? && lo <= RollingMean(s, w)[i].value <= hi
  {
    RollingMeanDefined(s, w, i);
    var win := Window(s, i, w);
    assert Complete(win);
    ObservedComplete(win);
    var xs := Observed(win);
    forall j | 0 <= j < |xs| ensures lo <= xs[j] <= hi {
      assert xs[j] == win[j].value == s[i + 1 - |win| + j].value;
    }
    MeanBetween(xs, lo, hi);
  }

  /** The `_roll_std_` cell is always defined and never negative; it is zero
      when the window holds at most one observation (row 0 in particular),
      and otherwise zero exactly when the observed values of the window are
      all equal. */
  lemma RollingStdSpec(s: Column, w: int, i: nat)
    requires w >= 1 && i < |s|
    ensures RollingStd(s, w)[i].Some? && RollingStd(s, w)[i].value >= 0.0
    ensures i == 0 || w == 1 ==> RollingStd(s, w)[i] == Some(0.0)
    ensures var xs := Observed(Window(s, i, w));
      |xs| >= 2 ==>
        (RollingStd(s, w)[i] == Some(0.0) <==> forall j :: 0 <= j < |xs| ==> xs[j] == xs[0])
  {
    var xs := Observed(Window(s, i, w));
    if |xs| >= 2 {
      SampleVarianceZeroIff(xs);
      assert RollingVariance(s, w)[i] == SampleVariance(xs);
    } else {
      assert RollingVariance(s, w)[i] == None;
    }
    if i == 0 || w == 1 {
      assert |Window(s, i, w)| <= 1;
    }
  }

  /** `target_up` is 1 on row `i` exactly when the next row's price is
      defined and strictly greater than this row's; it is 0 otherwise, in
      particular on the last row, and it is never NaN. */
  lemma TargetUpSpec(price: Column, i: nat)
    requires i < |price|
    ensures TargetUp(price)[i] == Some(1.0) || TargetUp(price)[i] == Some(0.0)
    ensures TargetUp(price)[i] == Some(1.0) <==>
      i + 1 < |price| && price[i].Some? && price[i + 1].Some? && price[i + 1].value > price[i].value
    ensures i == |price| - 1 ==> TargetUp(price)[i] == Some(0.0)
  {
    assert Shift(price, -1)[i] == if i + 1 < |price| then price[i + 1] else None;
  }

  /** `target_up` on row `j` reads only `price[j]`, `price[j + 1]` and
      whether row `j + 1` exists: two price columns that agree there give
      the same label on row `j`, whatever their lengths. */
  lemma TargetUpLocal(p1: Column, p2: Column, j: nat)
    requires j < |p1| && j < |p2| && p1[j] == p2[j]
    requires j + 1 < |p1| <==> j + 1 < |p2|
    requires j + 1 < |p1| ==> p1[j + 1] == p2[j + 1]
    ensures TargetUp(p1)[j] == TargetUp(p2)[j]
  {
    TargetUpSpec(p1, j);
    TargetUpSpec(p2, j);
  }

  /** Whether a next row exists matters: the last row of a one-row price
      column is labelled 0, while the same row followed by a higher price is
      labelled 1. */
  lemma TargetUpLastRow()
    ensures TargetUp([Some(1.0)])[0] == Some(0.0)
    ensures TargetUp([Some(1.0), Some(2.0)])[0] == Some(1.0)
  {
    TargetUpSpec([Some(1.0)], 0);
    TargetUpSpec([Some(1.0), Some(2.0)], 0);
  }

  /** On a price column without NaN, `target_up` on row `i` is 1 exactly
      when there is a next row and its price is strictly higher, else 0. */
  lemma TargetUpComplete(price: Column, i: nat)
    requires Complete(price) && i < |price|
    ensures TargetUp(price)[i] == Some(1.0) || TargetUp(price)[i] == Some(0.0)
    ensures TargetUp(price)[i] == Some(1.0) <==> i + 1 < |price| && price[i + 1].value > price[i].value
  {
    TargetUpSpec(price, i);
  }

  /** The same, for the label column with its first `m` rows removed. */
  lemma TargetUpSuffix(price: Column, col: Column, m: nat, j: nat)
    requires Complete(price) && m <= |price| && col == TargetUp(price)[m..] && j < |col|
    ensures col[j] == Some(1.0) || col[j] == Some(0.0)
    ensures col[j] == Some(1.0) <==> j + m + 1 < |price| && price[j + m + 1].value > price[j + m].value
  {
    TargetUpComplete(price, j + m);
  }

  /** On a constant column, every rolling mean is that constant and every
      `_roll_std_` cell is 0. */
  lemma RollingConstant(s: Column, w: int, c: real, i: nat)
    requires w >= 1 && i < |s|
    requires forall j :: 0 <= j < |s| ==> s[j] == Some(c)
    ensures RollingMean(s, w)[i] == Some(c)
    ensures RollingStd(s, w)[i] == Some(0.0)
  {
    RollingMeanComplete(s, w, i, c, c);
    RollingStdSpec(s, w, i);
    var win := Window(s, i, w);
    assert Complete(win);
    ObservedComplete(win);
    var xs := Observed(win);
    if |xs| >= 2 {
      assert forall j :: 0 <= j < |xs| ==> xs[j] == xs[0];
    }
  }

  /** A price that never strictly rises labels every row 0. */
  lemma TargetUpNonRising(price: Column)
    requires Complete(price)
    requires forall i :: 0 <= i < |price| - 1 ==> price[i + 1].value <= price[i].value
    ensures forall i :: 0 <= i < |price| ==> TargetUp(price)[i] == Some(0.0)
  {
    forall i | 0 <= i < |price| ensures TargetUp(price)[i] == Some(0.0) {
      TargetUpSpec(price, i);
    }
  }
}
