/** Left-to-right accumulation over a sequence of reals (`sum += i`), and the
    algebra of such sums used by the statistics and gradient proofs. */
module Sums {

  function Sum(s: seq<real>): real {
    if |s| == 0 then 0.0 else Sum(s[..|s| - 1]) + s[|s| - 1]
  }

  /** `m` is the arithmetic mean of `s`: `m * |s|` is the sum of its elements. */
  predicate IsMean(m: real, s: seq<real>) {
    m * |s| as real == Sum(s)
  }

  /** Summation is linear: a pointwise combination a*s + b*t sums to a*Sum(s) + b*Sum(t). */
  lemma {:induction false} SumLinear(s: seq<real>, t: seq<real>, u: seq<real>, a: real, b: real)
    requires |s| == |t| == |u|
    requires forall k :: 0 <= k < |u| ==> u[k] == a * s[k] + b * t[k]
    ensures Sum(u) == a * Sum(s) + b * Sum(t)
  {
    if |u| > 0 {
      var m := |u| - 1;
      SumLinear(s[..m], t[..m], u[..m], a, b);
    }
  }

  /** A sequence of copies of one value sums to its length times that value. */
  lemma {:induction false} SumConstant(s: seq<real>, a: real)
    requires forall k :: 0 <= k < |s| ==> s[k] == a
    ensures Sum(s) == |s| as real * a
  {
    if |s| > 0 {
      SumConstant(s[..|s| - 1], a);
    }
  }

  /** A sum of non-negative terms is non-negative. */
  lemma {:induction false} SumNonNegative(s: seq<real>)
    requires forall k :: 0 <= k < |s| ==> s[k] >= 0.0
    ensures Sum(s) >= 0.0
  {
    if |s| > 0 {
      SumNonNegative(s[..|s| - 1]);
    }
  }

  /** Sums of pointwise-equal sequences agree. */
  lemma SumExtensional(s: seq<real>, t: seq<real>)
    requires |s| == |t|
    requires forall k :: 0 <= k < |s| ==> s[k] == t[k]
    ensures Sum(s) == Sum(t)
  {
    assert s == t;
  }

  /** A pointwise affine combination a*s + b*t + c sums to a*Sum(s) + b*Sum(t) + |u|*c. */
  lemma {:induction false} SumAffine(s: seq<real>, t: seq<real>, u: seq<real>, a: real, b: real, c: real)
    requires |s| == |t| == |u|
    requires forall k :: 0 <= k < |u| ==> u[k] == a * s[k] + b * t[k] + c
    ensures Sum(u) == a * Sum(s) + b * Sum(t) + |u| as real * c
  {
    if |u| > 0 {
      var m := |u| - 1;
      SumAffine(s[..m], t[..m], u[..m], a, b, c);
      assert Sum(u) == Sum(u[..m]) + u[m];
      assert a * Sum(s) == a * Sum(s[..m]) + a * s[m];
      assert b * Sum(t) == b * Sum(t[..m]) + b * t[m];
      CountStep(m, c);
    }
  }

  /** Subtracting a constant from every element subtracts it |s| times from the sum. */
  lemma {:induction false} SumShifted(s: seq<real>, u: seq<real>, c: real)
    requires |s| == |u|
    requires forall k :: 0 <= k < |u| ==> u[k] == s[k] - c
    ensures Sum(u) == Sum(s) - |s| as real * c
  {
    if |u| > 0 {
      var m := |u| - 1;
      SumShifted(s[..m], u[..m], c);
      assert Sum(u) == Sum(u[..m]) + u[m];
      assert Sum(s) == Sum(s[..m]) + s[m];
      CountStep(m, c);
    }
  }

  lemma CountStep(m: nat, c: real)
    ensures (m + 1) as real * c == m as real * c + c
  {
  }

  /** The deviations from the mean sum to zero. */
  lemma CenteredSumsToZero(xs: seq<real>, m: real, cen: seq<real>)
    requires IsMean(m, xs)
    requires |cen| == |xs| && forall j :: 0 <= j < |cen| ==> cen[j] == xs[j] - m
    ensures Sum(cen) == 0.0
  {
    SumShifted(xs, cen, m);
  }

  /** The deviations of a sequence from its mean, which sum to zero. */
  lemma Centring(xs: seq<real>, m: real) returns (cen: seq<real>)
    requires IsMean(m, xs)
    ensures |cen| == |xs| && forall j :: 0 <= j < |cen| ==> cen[j] == xs[j] - m
    ensures Sum(cen) == 0.0
  {
    cen := seq(|xs|, j requires 0 <= j < |xs| => xs[j] - m);
    CenteredSumsToZero(xs, m, cen);
  }

  /** The quotient of the sum by the length is the mean. */
  lemma QuotientIsMean(xs: seq<real>, m: real)
    requires |xs| > 0 && m == Sum(xs) / |xs| as real
    ensures IsMean(m, xs)
  {
  }

  /** The mean of a non-empty sequence. */
  function Mean(xs: seq<real>): (m: real)
    requires |xs| > 0
    ensures IsMean(m, xs)
  {
    QuotientIsMean(xs, Sum(xs) / |xs| as real);
    Sum(xs) / |xs| as real
  }

  /** A mean of a non-empty sequence is its only one. */
  lemma MeanUnique(m: real, xs: seq<real>)
    requires |xs| > 0 && IsMean(m, xs)
    ensures m == Mean(xs)
  {
  }
}
