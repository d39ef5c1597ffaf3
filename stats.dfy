/**
 * Reductions over finite sequences of reals: the sum, mean, product,
 * maximum, minimum and sample variance that the rolling-window and
 * cumulative column operations are defined by. Exact real arithmetic
 * stands in for the source's floating point.
 */
module Stats {

  /** Sum of the elements, accumulated from the left. */
  function Sum(s: seq<real>): real
  {
    if |s| == 0 then 0.0 else Sum(s[..|s| - 1]) + s[|s| - 1]
  }

  /** Arithmetic mean of a non-empty sequence. */
  function Mean(s: seq<real>): real
    requires |s| > 0
  {
    Sum(s) / (|s| as real)
  }

  /** Product of the elements, accumulated from the left; 1 for no elements. */
  function Product(s: seq<real>): real
  {
    if |s| == 0 then 1.0 else Product(s[..|s| - 1]) * s[|s| - 1]
  }

  /** The largest element, found by a scan from the left. */
  function Max(s: seq<real>): real
    requires |s| > 0
  {
    if |s| == 1 then s[0]
    else
      var m := Max(s[..|s| - 1]);
      if s[|s| - 1] > m then s[|s| - 1] else m
  }

  /** The smallest element, found by a scan from the left. */
  function Min(s: seq<real>): real
    requires |s| > 0
  {
    if |s| == 1 then s[0]
    else
      var m := Min(s[..|s| - 1]);
      if s[|s| - 1] < m then s[|s| - 1] else m
  }

  /** The maximum bounds every element and is one of them. */
  lemma {:induction false} MaxSpec(s: seq<real>)
    requires |s| > 0
    ensures forall k :: 0 <= k < |s| ==> s[k] <= Max(s)
    ensures exists k :: 0 <= k < |s| && s[k] == Max(s)
  {
    if |s| > 1 {
      var init := s[..|s| - 1];
      MaxSpec(init);
      assert forall k :: 0 <= k < |init| ==> init[k] == s[k];
      var j :| 0 <= j < |init| && init[j] == Max(init);
      if s[|s| - 1] <= Max(init) {
        assert s[j] == Max(s);
      } else {
        assert s[|s| - 1] == Max(s);
      }
    } else {
      assert s[0] == Max(s);
    }
  }

  /** The minimum is below or equal to every element and is one of them. */
  lemma {:induction false} MinSpec(s: seq<real>)
    requires |s| > 0
    ensures forall k :: 0 <= k < |s| ==> Min(s) <= s[k]
    ensures exists k :: 0 <= k < |s| && s[k] == Min(s)
  {
    if |s| > 1 {
      var init := s[..|s| - 1];
      MinSpec(init);
      assert forall k :: 0 <= k < |init| ==> init[k] == s[k];
      var j :| 0 <= j < |init| && init[j] == Min(init);
      if s[|s| - 1] >= Min(init) {
        assert s[j] == Min(s);
      } else {
        assert s[|s| - 1] == Min(s);
      }
    } else {
      assert s[0] == Min(s);
    }
  }

  /** Sum of squared deviations of the elements from `mu`. */
  function SquaredDeviation(s: seq<real>, mu: real): real
  {
    if |s| == 0 then 0.0
    else SquaredDeviation(s[..|s| - 1], mu) + (s[|s| - 1] - mu) * (s[|s| - 1] - mu)
  }

  /** Sample variance (one degree of freedom removed), as pandas' `std` squares to. */
  function SampleVariance(s: seq<real>): real
    requires |s| >= 2
  {
    SquaredDeviation(s, Mean(s)) / ((|s| - 1) as real)
  }

  /** Sums split over concatenation. */
  lemma {:induction false} SumConcat(p: seq<real>, q: seq<real>)
    ensures Sum(p + q) == Sum(p) + Sum(q)
  {
    if |q| == 0 {
      assert p + q == p;
    } else {
      assert (p + q)[..|p + q| - 1] == p + q[..|q| - 1];
      SumConcat(p, q[..|q| - 1]);
    }
  }

  /** A sum of elements that are all at least `t` is at least `|s| * t`. */
  lemma {:induction false} SumAtLeast(s: seq<real>, t: real)
    requires forall k :: 0 <= k < |s| ==> t <= s[k]
    ensures (|s| as real) * t <= Sum(s)
  {
    if |s| > 0 {
      SumAtLeast(s[..|s| - 1], t);
    }
  }

  /** A sum of one or more elements that are all below `t` is below `|s| * t`. */
  lemma {:induction false} SumBelow(s: seq<real>, t: real)
    requires |s| > 0
    requires forall k :: 0 <= k < |s| ==> s[k] < t
    ensures Sum(s) < (|s| as real) * t
  {
    if |s| > 1 {
      SumBelow(s[..|s| - 1], t);
    }
  }

  /** The mean of one or more elements that are all below `t` is below `t`. */
  lemma {:induction false} MeanBelow(s: seq<real>, t: real)
    requires |s| > 0
    requires forall k :: 0 <= k < |s| ==> s[k] < t
    ensures Mean(s) < t
  {
    SumBelow(s, t);
    var n := |s| as real;
    assert Mean(s) * n == Sum(s);
  }

  /** The mean of one or more elements that are all at least `t` is at least `t`. */
  lemma {:induction false} MeanAtLeast(s: seq<real>, t: real)
    requires |s| > 0
    requires forall k :: 0 <= k < |s| ==> t <= s[k]
    ensures t <= Mean(s)
  {
    SumAtLeast(s, t);
    var n := |s| as real;
    assert Mean(s) * n == Sum(s);
  }

  /** Scaling a positive amount by a factor above 1 increases it. */
  lemma {:induction false} ScaleAbove(x: real, g: real)
    requires x > 0.0 && g > 1.0
    ensures x * g > x
  {
    assert x * g - x == x * (g - 1.0);
  }

  /**
   * Appending elements of a higher mean pulls the mean up, but never past
   * theirs: Mean(p) < Mean(q) implies Mean(p) < Mean(p + q) < Mean(q).
   */
  lemma {:induction false} MeanOfConcatBelow(p: seq<real>, q: seq<real>)
    requires |p| > 0 && |q| > 0
    requires Mean(p) < Mean(q)
    ensures Mean(p) < Mean(p + q) < Mean(q)
  {
    var a, b := |p| as real, |q| as real;
    var mp, mq := Mean(p), Mean(q);
    SumConcat(p, q);
    assert Sum(p) == a * mp;
    assert Sum(q) == b * mq;
    assert a * mp < a * mq;
    assert Sum(p + q) < (a + b) * mq;
    assert b * mp < b * mq;
    assert (a + b) * mp < Sum(p + q);
    assert |p + q| as real == a + b;
  }

  /**
   * Dividing by a positive `p`: the ratio is at most 1 for values at most
   * `p`, exactly 1 only for `p` itself, and of the same sign as the value.
   */
  lemma {:induction false} RatioBounds(x: real, p: real)
    requires p > 0.0
    ensures x <= p ==> x / p <= 1.0
    ensures x / p == 1.0 <==> x == p
    ensures x > p ==> x / p > 1.0
    ensures x >= 0.0 ==> x / p >= 0.0
    ensures x > 0.0 ==> x / p > 0.0
  {
    assert x / p * p == x;
  }

  /** A product of factors that are all exactly 1 is 1. */
  lemma {:induction false} ProductOfOnes(s: seq<real>)
    requires forall k :: 0 <= k < |s| ==> s[k] == 1.0
    ensures Product(s) == 1.0
  {
    if |s| > 0 {
      ProductOfOnes(s[..|s| - 1]);
    }
  }
}
