/**
 * Float columns as pandas holds them: one cell per bar, where a cell is
 * either a number or NaN. The operations are the vectorised ones the
 * backtester uses (`rolling(n).mean/max/min/std`, `shift`, `pct_change`,
 * `fillna`, `cumprod`, `cummax`), each defined by its mathematical meaning.
 * A comparison involving NaN is false, which is how `np.where` turns every
 * warm-up bar into the "else" value.
 */
module Columns {
  import opened Stats

  datatype Option<T> = None | Some(value: T)

  /** One float cell of a column: a number or NaN. */
  datatype Cell = NaN | Num(v: real)

  type Column = seq<Cell>

  /** A NaN-free column holding the given numbers. */
  function Lift(s: seq<real>): Column
  {
    seq(|s|, i requires 0 <= i < |s| => Num(s[i]))
  }

  /** `a > b` on float cells; false when either side is NaN. */
  predicate Gt(a: Cell, b: Cell)
  {
    a.Num? && b.Num? && a.v > b.v
  }

  /** `a < b` on float cells; false when either side is NaN. */
  predicate Lt(a: Cell, b: Cell)
  {
    a.Num? && b.Num? && a.v < b.v
  }

  /** The numbers of a column, or None when some cell is NaN. */
  function Values(c: Column): (r: Option<seq<real>>)
    ensures r.Some? ==> |r.value| == |c|
  {
    if |c| == 0 then Some([])
    else
      match Values(c[..|c| - 1])
      case None => None
      case Some(p) => if c[|c| - 1].Num? then Some(p + [c[|c| - 1].v]) else None
  }

  /** Values succeeds exactly on NaN-free columns, and then keeps every number in place. */
  lemma {:induction false} ValuesSpec(c: Column)
    ensures Values(c).Some? <==> forall k :: 0 <= k < |c| ==> c[k].Num?
    ensures Values(c).Some? ==> forall k :: 0 <= k < |c| ==> Values(c).value[k] == c[k].v
  {
    if |c| > 0 {
      var init := c[..|c| - 1];
      ValuesSpec(init);
      assert forall k :: 0 <= k < |init| ==> init[k] == c[k];
    }
  }

  /**
   * The trailing window of `n` cells that ends at row `i` (inclusive), or
   * None when fewer than `n` rows exist or one of them is NaN: pandas'
   * `rolling(n)` with its default `min_periods = n`. A window of 0 rows is
   * never full, so `rolling(0)` is NaN on every row.
   */
  function Trailing(c: Column, i: nat, n: nat): (w: Option<seq<real>>)
    requires i < |c|
    ensures w.Some? ==> n >= 1 && |w.value| == n
  {
    if 1 <= n <= i + 1 then Values(c[i + 1 - n..i + 1]) else None
  }

  /** A window is full when enough rows exist and none is NaN; it holds their numbers in order. */
  lemma {:induction false} TrailingSpec(c: Column, i: nat, n: nat)
    requires i < |c|
    ensures Trailing(c, i, n).Some? <==> 1 <= n <= i + 1 && forall k :: i + 1 - n <= k <= i ==> c[k].Num?
    ensures Trailing(c, i, n).Some? ==>
      forall k :: 0 <= k < n ==> Trailing(c, i, n).value[k] == c[i + 1 - n + k].v
  {
    if 1 <= n <= i + 1 {
      var o := i + 1 - n;
      var window := c[o..i + 1];
      assert Trailing(c, i, n) == Values(window);
      ValuesSpec(window);
      assert forall k :: 0 <= k < n ==> window[k] == c[o + k];
      assert (forall k :: 0 <= k < n ==> window[k].Num?) <==> (forall k :: o <= k <= i ==> c[k].Num?) by {
        if forall k :: 0 <= k < n ==> window[k].Num? {
          forall k | o <= k <= i ensures c[k].Num? {
            assert window[k - o] == c[k];
          }
        }
      }
    }
  }

  /** On a NaN-free column a window is full exactly when enough rows exist. */
  lemma {:induction false} TrailingOfLift(s: seq<real>, i: nat, n: nat)
    requires i < |s|
    ensures Trailing(Lift(s), i, n) == if 1 <= n <= i + 1 then Some(s[i + 1 - n..i + 1]) else None
  {
    TrailingSpec(Lift(s), i, n);
    if 1 <= n <= i + 1 {
      var w := Trailing(Lift(s), i, n);
      assert w.value == s[i + 1 - n..i + 1];
    }
  }

  /** A window ending at row `i` is the same in any prefix of the column that keeps row `i`. */
  lemma {:induction false} TrailingOfPrefix(c: Column, k: nat, i: nat, n: nat)
    requires i < k <= |c|
    ensures Trailing(c[..k], i, n) == Trailing(c, i, n)
  {
    if 1 <= n <= i + 1 {
      assert c[..k][i + 1 - n..i + 1] == c[i + 1 - n..i + 1];
    }
  }

  /** `rolling(n).mean()`. */
  function RollingMean(c: Column, n: nat): (r: Column)
    ensures |r| == |c|
  {
    seq(|c|, i requires 0 <= i < |c| =>
      match Trailing(c, i, n)
      case Some(w) => Num(Mean(w))
      case None => NaN)
  }

  /** `rolling(n).max()`. */
  function RollingMax(c: Column, n: nat): (r: Column)
    ensures |r| == |c|
  {
    seq(|c|, i requires 0 <= i < |c| =>
      match Trailing(c, i, n)
      case Some(w) => Num(Max(w))
      case None => NaN)
  }

  /** `rolling(n).min()`. */
  function RollingMin(c: Column, n: nat): (r: Column)
    ensures |r| == |c|
  {
    seq(|c|, i requires 0 <= i < |c| =>
      match Trailing(c, i, n)
      case Some(w) => Num(Min(w))
      case None => NaN)
  }

  /** On a NaN-free column the rolling mean at row `i` is that of the `n` numbers ending there, NaN until `n` rows exist. */
  lemma {:induction false} RollingMeanOfLift(s: seq<real>, n: nat, i: nat)
    requires i < |s|
    ensures RollingMean(Lift(s), n)[i] == if 1 <= n <= i + 1 then Num(Mean(s[i + 1 - n..i + 1])) else NaN
  {
    TrailingOfLift(s, i, n);
  }

  /** One bar after the window ends, the lagged rolling maximum is that of the `n` rows before. */
  lemma {:induction false} LaggedRollingMax(s: seq<real>, n: nat, i: nat)
    requires i < |s|
    ensures Shift(RollingMax(Lift(s), n), 1)[i] == if 1 <= n <= i then Num(Max(s[i - n..i])) else NaN
  {
    var r := RollingMax(Lift(s), n);
    if i >= 1 {
      TrailingOfLift(s, i - 1, n);
    }
  }

  /** One bar after the window ends, the lagged rolling minimum is that of the `n` rows before. */
  lemma {:induction false} LaggedRollingMin(s: seq<real>, n: nat, i: nat)
    requires i < |s|
    ensures Shift(RollingMin(Lift(s), n), 1)[i] == if 1 <= n <= i then Num(Min(s[i - n..i])) else NaN
  {
    var r := RollingMin(Lift(s), n);
    if i >= 1 {
      TrailingOfLift(s, i - 1, n);
    }
  }

  /**
   * `dev` holds the sample standard deviation of every full window of
   * length `n` of `c`: non-negative, squaring to the sample variance.
   */
  predicate IsRollingStd(c: Column, n: nat, dev: seq<real>)
  {
    && |dev| == |c|
    && forall i :: 0 <= i < |c| && n >= 2 && Trailing(c, i, n).Some? ==>
         dev[i] >= 0.0 && dev[i] * dev[i] == SampleVariance(Trailing(c, i, n).value)
  }

  /** Deviations for a column stay deviations for its prefixes. */
  lemma {:induction false} RollingStdOfPrefix(c: Column, n: nat, dev: seq<real>, k: nat)
    requires IsRollingStd(c, n, dev) && k <= |c|
    ensures IsRollingStd(c[..k], n, dev[..k])
  {
    forall i | 0 <= i < k && n >= 2 && Trailing(c[..k], i, n).Some?
      ensures dev[..k][i] >= 0.0 && dev[..k][i] * dev[..k][i] == SampleVariance(Trailing(c[..k], i, n).value)
    {
      TrailingOfPrefix(c, k, i, n);
    }
  }

  /**
   * `rolling(n).std()`: the sample standard deviation, NaN where the window
   * is not full and also everywhere when `n == 1` (one degree of freedom
   * leaves nothing to divide by). The square roots come from `dev`.
   */
  function RollingStd(c: Column, n: nat, dev: seq<real>): (r: Column)
    requires IsRollingStd(c, n, dev)
    ensures |r| == |c|
    ensures forall i :: 0 <= i < |c| ==> (r[i].Num? <==> n >= 2 && Trailing(c, i, n).Some?)
    ensures forall i :: 0 <= i < |c| && r[i].Num? ==>
      r[i].v >= 0.0 && r[i].v * r[i].v == SampleVariance(Trailing(c, i, n).value)
  {
    seq(|c|, i requires 0 <= i < |c| =>
      if n >= 2 && Trailing(c, i, n).Some? then Num(dev[i]) else NaN)
  }

  /** `shift(k)`: row `i` takes row `i - k`; rows with no such source are NaN. */
  function Shift(c: Column, k: int): (r: Column)
    ensures |r| == |c|
  {
    seq(|c|, i requires 0 <= i < |c| => if 0 <= i - k < |c| then c[i - k] else NaN)
  }

  /** `fillna(d)`. */
  function FillNa(c: Column, d: real): (r: seq<real>)
    ensures |r| == |c|
  {
    seq(|c|, i requires 0 <= i < |c| => if c[i].Num? then c[i].v else d)
  }

  /** Series `*` on NaN-free columns: the row-by-row product. */
  function Times(p: seq<real>, q: seq<real>): (r: seq<real>)
    requires |p| == |q|
    ensures |r| == |p|
  {
    seq(|p|, i requires 0 <= i < |p| => p[i] * q[i])
  }

  /**
   * `pct_change()`: the relative change from the previous row, NaN in the
   * first row. Dividing by a zero is excluded (floats would give inf).
   */
  function PctChange(c: Column): (r: Column)
    requires forall k :: 0 <= k < |c| && c[k].Num? ==> c[k].v != 0.0
    ensures |r| == |c|
  {
    seq(|c|, i requires 0 <= i < |c| =>
      if i >= 1 && c[i].Num? && c[i - 1].Num? then Num(c[i].v / c[i - 1].v - 1.0) else NaN)
  }

  /**
   * `cumprod()` on a NaN-free column: row `i` is the product of rows 0..i,
   * which is the running recurrence r[i] == r[i-1] * s[i].
   */
  function CumProd(s: seq<real>): (r: seq<real>)
    ensures |r| == |s|
    ensures |s| > 0 ==> r[0] == s[0]
    ensures forall i :: 1 <= i < |s| ==> r[i] == r[i - 1] * s[i]
  {
    var r := seq(|s|, i requires 0 <= i < |s| => Product(s[..i + 1]));
    assert |s| > 0 ==> s[..1][..0] == [] && r[0] == Product(s[..1][..0]) * s[0];
    assert forall i :: 1 <= i < |s| ==> s[..i + 1][..i] == s[..i];
    r
  }

  /**
   * `cummax()` on a NaN-free column: row `i` is the largest of rows 0..i,
   * so at least the first row and the current one.
   */
  function CumMax(s: seq<real>): (r: seq<real>)
    ensures |r| == |s|
    ensures forall i {:trigger r[i]} :: 0 <= i < |s| ==> s[0] <= r[i] && s[i] <= r[i]
  {
    var r := seq(|s|, i requires 0 <= i < |s| => Max(s[..i + 1]));
    assert forall i :: 0 <= i < |s| ==> s[0] <= r[i] && s[i] <= r[i] by {
      forall i | 0 <= i < |s| ensures s[0] <= r[i] && s[i] <= r[i] {
        var prefix := s[..i + 1];
        MaxSpec(prefix);
        assert prefix[0] == s[0] && prefix[i] == s[i];
      }
    }
    r
  }

  /** The running maximum at row `i` bounds every row up to `i` and is one of them. */
  lemma {:induction false} CumMaxAt(s: seq<real>, i: nat)
    requires i < |s|
    ensures forall k :: 0 <= k <= i ==> s[k] <= CumMax(s)[i]
    ensures exists k :: 0 <= k <= i && s[k] == CumMax(s)[i]
  {
    var prefix := s[..i + 1];
    assert CumMax(s)[i] == Max(prefix);
    MaxSpec(prefix);
    assert forall k :: 0 <= k <= i ==> prefix[k] == s[k];
  }
}
