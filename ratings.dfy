/** The rating filter shared by every scorer: a value counts when `Number(x)`
    is finite and greater than zero (`.map(Number).filter(x =>
    Number.isFinite(x) && x > 0)`), so 0, negatives, NaN and "na" are dropped. */
module Ratings {
  import opened Js

  predicate Eligible(v: Value) {
    var n := ToNumber(v);
    n.Finite? && n.r > 0.0
  }

  function NumberValue(v: Value): real
    requires Eligible(v)
  {
    ToNumber(v).r
  }

  /** The numeric values of the eligible ratings, in order. */
  function EligibleValues(vals: seq<Value>): (r: seq<real>)
    ensures |r| <= |vals|
    ensures forall i :: 0 <= i < |r| ==> r[i] > 0.0
    ensures r == [] <==> forall i :: 0 <= i < |vals| ==> !Eligible(vals[i])
  {
    if vals == [] then []
    else
      var rest := EligibleValues(vals[1..]);
      assert forall i :: 1 <= i < |vals| ==> vals[i] == vals[1..][i - 1];
      if Eligible(vals[0]) then [NumberValue(vals[0])] + rest else rest
  }

  function Sum(xs: seq<real>): real
  {
    if xs == [] then 0.0 else xs[0] + Sum(xs[1..])
  }

  /** The arithmetic mean of a non-empty list. */
  function Mean(xs: seq<real>): real
    requires xs != []
  {
    Sum(xs) / |xs| as real
  }

  lemma {:induction false} SumBounds(xs: seq<real>, lo: real, hi: real)
    requires forall i :: 0 <= i < |xs| ==> lo <= xs[i] <= hi
    ensures |xs| as real * lo <= Sum(xs) <= |xs| as real * hi
  {
    if xs != [] {
      SumBounds(xs[1..], lo, hi);
    }
  }

  /** A mean lies between the smallest and the largest value averaged. */
  lemma MeanBounds(xs: seq<real>, lo: real, hi: real)
    requires xs != []
    requires forall i :: 0 <= i < |xs| ==> lo <= xs[i] <= hi
    ensures lo <= Mean(xs) <= hi
  {
    SumBounds(xs, lo, hi);
    var n := |xs| as real;
    assert n * lo <= Sum(xs) <= n * hi;
    DivBounds(Sum(xs), n, lo, hi);
  }

  lemma DivBounds(s: real, n: real, lo: real, hi: real)
    requires n > 0.0 && n * lo <= s <= n * hi
    ensures lo <= s / n <= hi
  {
    assert s / n * n == s;
  }

  /** Averaging equal values gives that value. */
  lemma MeanOfConstant(xs: seq<real>, v: real)
    requires xs != []
    requires forall i :: 0 <= i < |xs| ==> xs[i] == v
    ensures Mean(xs) == v
  {
    MeanBounds(xs, v, v);
  }

  /** When every rating is eligible, none is dropped. */
  lemma {:induction false} EligibleValuesAll(vals: seq<Value>)
    requires forall i :: 0 <= i < |vals| ==> Eligible(vals[i])
    ensures |EligibleValues(vals)| == |vals|
    ensures forall i :: 0 <= i < |vals| ==> EligibleValues(vals)[i] == NumberValue(vals[i])
  {
    if vals != [] {
      EligibleValuesAll(vals[1..]);
    }
  }

  /** The eligible values are drawn from the ratings' own values. */
  lemma {:induction false} EligibleValuesBounds(vals: seq<Value>, lo: real, hi: real)
    requires forall i :: 0 <= i < |vals| && Eligible(vals[i]) ==> lo <= NumberValue(vals[i]) <= hi
    ensures forall i :: 0 <= i < |EligibleValues(vals)| ==> lo <= EligibleValues(vals)[i] <= hi
  {
    if vals != [] {
      EligibleValuesBounds(vals[1..], lo, hi);
    }
  }

  /** Filtering a concatenation filters each part. */
  lemma {:induction false} EligibleValuesAppend(a: seq<Value>, b: seq<Value>)
    ensures EligibleValues(a + b) == EligibleValues(a) + EligibleValues(b)
  {
    if a != [] {
      assert (a + b)[1..] == a[1..] + b;
      EligibleValuesAppend(a[1..], b);
    } else {
      assert a + b == b;
    }
  }

  /** A non-empty sum of positive values is positive. */
  lemma {:induction false} SumPositive(xs: seq<real>)
    requires xs != []
    requires forall i :: 0 <= i < |xs| ==> xs[i] > 0.0
    ensures Sum(xs) > 0.0
  {
    if |xs| > 1 {
      SumPositive(xs[1..]);
    } else {
      assert xs[1..] == [];
    }
  }

  /** `avg(vals)` (docs/js/reportsV0.js), also the averaging step of both `avgAudit`s: the mean of the eligible ratings, or null when there are none. */
  function Avg(vals: seq<Value>): (r: Option<real>)
    ensures r.None? <==> forall i :: 0 <= i < |vals| ==> !Eligible(vals[i])
    ensures r.Some? ==> r.value > 0.0
  {
    var v := EligibleValues(vals);
    if v == [] then None
    else
      SumPositive(v);
      Some(Mean(v))
  }

  /** The average lies within any bounds that hold for every eligible rating. */
  lemma AvgBounds(vals: seq<Value>, lo: real, hi: real)
    requires forall i :: 0 <= i < |vals| && Eligible(vals[i]) ==> lo <= NumberValue(vals[i]) <= hi
    ensures Avg(vals).Some? ==> lo <= Avg(vals).value <= hi
  {
    var v := EligibleValues(vals);
    EligibleValuesBounds(vals, lo, hi);
    if v != [] {
      MeanBounds(v, lo, hi);
    }
  }

  /** A rating that is missing, zero, negative or not a number does not move the average. */
  lemma AvgIgnores(a: seq<Value>, x: Value, b: seq<Value>)
    requires !Eligible(x)
    ensures Avg(a + [x] + b) == Avg(a + b)
  {
    var ax := a + [x];
    EligibleValuesAppend(ax, b);
    EligibleValuesAppend(a, [x]);
    EligibleValuesAppend(a, b);
    assert [x][1..] == [];
    assert EligibleValues([x]) == [];
    assert EligibleValues(ax) == EligibleValues(a);
    AvgOfSameValues(ax + b, a + b);
  }

  lemma AvgOfSameValues(u: seq<Value>, w: seq<Value>)
    requires EligibleValues(u) == EligibleValues(w)
    ensures Avg(u) == Avg(w)
  {
  }

  /** Equal eligible ratings average to their value. */
  lemma AvgOfConstant(vals: seq<Value>, v: real)
    requires vals != [] && v > 0.0
    requires forall i :: 0 <= i < |vals| ==> vals[i] == Number(Finite(v))
    ensures Avg(vals) == Some(v)
  {
    EligibleValuesAll(vals);
    MeanOfConstant(EligibleValues(vals), v);
  }

  /** `Math.round(x * 10) / 10`: `x` rounded to one decimal. */
  function OneDecimal(x: real): (r: real)
    ensures x - 0.05 < r <= x + 0.05
  {
    var k := Round(x * 10.0);
    assert k as real - 0.5 <= x * 10.0 < k as real + 0.5;
    k as real / 10.0
  }

  lemma OneDecimalRange(x: real, hi: nat)
    requires 0.0 <= x <= hi as real
    ensures 0.0 <= OneDecimal(x) <= hi as real
  {
    RoundMonotone(0.0, x * 10.0);
    RoundMonotone(x * 10.0, (hi * 10) as real);
    RoundOfInt(0);
    RoundOfInt(hi * 10);
  }
}
