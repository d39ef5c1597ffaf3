/**
 * The four signal generators. Each maps the price frame to one position
 * per bar: 1 long, 0 flat, -1 short. Each builds its columns with the
 * vectorised operations of `Columns` and decides with `np.where`, so a
 * comparison against a NaN warm-up cell falls to the "else" branch and the
 * warm-up bars come out flat (0).
 */
module Strategies {
  import opened Stats
  import opened Columns
  import opened Prices

  /** The additive guard in the z-score denominator. */
  const Eps: real := 0.000000001

  /** The z-score of `x` against a mean and a guarded standard deviation. */
  function Standardize(x: real, mean: real, sd: real): real
    requires sd >= 0.0
  {
    (x - mean) / (sd + Eps)
  }

  predicate IsPosition(x: int)
  {
    x == -1 || x == 0 || x == 1
  }

  /** SMA crossover: long or flat on every bar, never short. */
  function Sma(bars: seq<Bar>, fast: nat, slow: nat): (signal: seq<int>)
    ensures |signal| == |bars|
    ensures forall i :: 0 <= i < |bars| ==> signal[i] == 0 || signal[i] == 1
  {
    var close := Lift(Closes(bars));
    var smaFast := RollingMean(close, fast);
    var smaSlow := RollingMean(close, slow);
    seq(|bars|, i requires 0 <= i < |bars| => if Gt(smaFast[i], smaSlow[i]) then 1 else 0)
  }

  /**
   * The SMA rule: long exactly when both trailing means exist and the
   * `fast` one is above the `slow` one; flat otherwise (warm-up and ties).
   */
  lemma {:induction false} SmaRule(bars: seq<Bar>, fast: nat, slow: nat, i: nat)
    requires i < |bars|
    ensures Sma(bars, fast, slow)[i] == 1 <==>
      && 1 <= fast <= i + 1 && 1 <= slow <= i + 1
      && Mean(Closes(bars)[i + 1 - fast..i + 1]) > Mean(Closes(bars)[i + 1 - slow..i + 1])
  {
    RollingMeanOfLift(Closes(bars), fast, i);
    RollingMeanOfLift(Closes(bars), slow, i);
  }

  /** Momentum: long or flat on every bar, never short. */
  function Momentum(bars: seq<Bar>, lookback: int): (signal: seq<int>)
    ensures |signal| == |bars|
    ensures forall i :: 0 <= i < |bars| ==> signal[i] == 0 || signal[i] == 1
  {
    var close := Lift(Closes(bars));
    var past := Shift(close, lookback);
    seq(|bars|, i requires 0 <= i < |bars| => if Gt(close[i], past[i]) then 1 else 0)
  }

  /**
   * The momentum rule: long exactly when the close `lookback` bars earlier
   * exists and the current close is above it; flat otherwise. A negative
   * `lookback` shifts the other way, as pandas does.
   */
  lemma {:induction false} MomentumRule(bars: seq<Bar>, lookback: int, i: nat)
    requires i < |bars|
    ensures Momentum(bars, lookback)[i] == 1 <==>
      0 <= i - lookback < |bars| && bars[i].close > bars[i - lookback].close
  {
    var close := Lift(Closes(bars));
    var past := Shift(close, lookback);
    LiftedColumnsAt(bars, i);
    if 0 <= i - lookback < |bars| {
      LiftedColumnsAt(bars, i - lookback);
      assert past[i] == Num(bars[i - lookback].close);
    } else {
      assert past[i] == NaN;
    }
  }

  /**
   * The z-score of each bar's return against the trailing `lookback`
   * returns: (ret - mean) / (std + Eps), NaN wherever one of them is.
   * The sample standard deviations are supplied as `dev`.
   */
  function ZScore(bars: seq<Bar>, lookback: nat, dev: seq<real>): (zs: Column)
    requires PositiveCloses(bars)
    requires IsRollingStd(RawReturns(bars), lookback, dev)
    ensures |zs| == |bars|
  {
    var ret := RawReturns(bars);
    var mu := RollingMean(ret, lookback);
    var sd := RollingStd(ret, lookback, dev);
    seq(|bars|, i requires 0 <= i < |bars| =>
      if ret[i].Num? && mu[i].Num? && sd[i].Num? then Num(Standardize(ret[i].v, mu[i].v, sd[i].v)) else NaN)
  }

  /**
   * A window of returns ending at bar `i` is full exactly when it leaves
   * out the first bar (whose return is NaN), and then it holds the
   * returns of its bars.
   */
  lemma {:induction false} ReturnWindow(bars: seq<Bar>, n: nat, i: nat)
    requires PositiveCloses(bars) && i < |bars|
    ensures Trailing(RawReturns(bars), i, n) == if 1 <= n <= i then Some(Returns(bars)[i + 1 - n..i + 1]) else None
  {
    var ret := RawReturns(bars);
    var w := Trailing(ret, i, n);
    TrailingSpec(ret, i, n);
    if 1 <= n <= i {
      assert w.value == Returns(bars)[i + 1 - n..i + 1];
    } else if n == i + 1 {
      assert !ret[0].Num?;
    }
  }

  /**
   * Where the z-score is defined: from bar `lookback` on, and only when
   * `lookback >= 2`, since the first return is NaN and a sample standard
   * deviation needs two returns. There it is the current return's
   * distance from the window mean over the guarded deviation.
   */
  lemma {:induction false} ZScoreAt(bars: seq<Bar>, lookback: nat, dev: seq<real>, i: nat)
    requires PositiveCloses(bars)
    requires IsRollingStd(RawReturns(bars), lookback, dev)
    requires i < |bars|
    ensures ZScore(bars, lookback, dev)[i].Num? <==> 2 <= lookback <= i
    ensures ZScore(bars, lookback, dev)[i].Num? ==>
      ZScore(bars, lookback, dev)[i].v ==
        Standardize(Returns(bars)[i], Mean(Returns(bars)[i + 1 - lookback..i + 1]), dev[i])
  {
    var ret := RawReturns(bars);
    var mu := RollingMean(ret, lookback);
    var sd := RollingStd(ret, lookback, dev);
    ReturnWindow(bars, lookback, i);
    if 2 <= lookback <= i {
      var window := Returns(bars)[i + 1 - lookback..i + 1];
      assert ret[i] == Num(Returns(bars)[i]);
      assert mu[i] == Num(Mean(window));
      assert sd[i] == Num(dev[i]);
    } else if lookback <= 1 {
      assert sd[i] == NaN;
    } else {
      assert mu[i] == NaN;
    }
  }

  /** Mean reversion: long, flat or short on every bar. */
  function MeanReversion(bars: seq<Bar>, lookback: nat, threshold: real, dev: seq<real>): (signal: seq<int>)
    requires PositiveCloses(bars)
    requires IsRollingStd(RawReturns(bars), lookback, dev)
    ensures |signal| == |bars|
    ensures forall i :: 0 <= i < |bars| ==> IsPosition(signal[i])
  {
    var zs := ZScore(bars, lookback, dev);
    seq(|bars|, i requires 0 <= i < |bars| =>
      if Lt(zs[i], Num(-threshold)) then 1 else if Gt(zs[i], Num(threshold)) then -1 else 0)
  }

  /**
   * The mean-reversion rule: long when the z-score is below `-threshold`,
   * otherwise short when it is above `threshold`, otherwise flat. A NaN
   * z-score is flat, so every bar before `lookback`, and every bar when
   * `lookback <= 1`, is flat.
   */
  lemma {:induction false} MeanReversionRule(bars: seq<Bar>, lookback: nat, threshold: real, dev: seq<real>, i: nat)
    requires PositiveCloses(bars)
    requires IsRollingStd(RawReturns(bars), lookback, dev)
    requires i < |bars|
    ensures var z := ZScore(bars, lookback, dev)[i];
      MeanReversion(bars, lookback, threshold, dev)[i] == 1 <==> z.Num? && z.v < -threshold
    ensures var z := ZScore(bars, lookback, dev)[i];
      MeanReversion(bars, lookback, threshold, dev)[i] == -1 <==> z.Num? && !(z.v < -threshold) && z.v > threshold
    ensures i < lookback || lookback <= 1 ==> MeanReversion(bars, lookback, threshold, dev)[i] == 0
  {
    ZScoreAt(bars, lookback, dev, i);
  }

  /**
   * With a non-negative threshold the bands are symmetric and strict:
   * short exactly above `threshold`, and a z-score of exactly
   * `threshold` or `-threshold` is flat.
   */
  lemma {:induction false} MeanReversionBands(bars: seq<Bar>, lookback: nat, threshold: real, dev: seq<real>, i: nat)
    requires PositiveCloses(bars)
    requires IsRollingStd(RawReturns(bars), lookback, dev)
    requires i < |bars| && threshold >= 0.0
    ensures var z := ZScore(bars, lookback, dev)[i];
      MeanReversion(bars, lookback, threshold, dev)[i] == -1 <==> z.Num? && z.v > threshold
    ensures var z := ZScore(bars, lookback, dev)[i];
      z.Num? && (z.v == threshold || z.v == -threshold) ==>
        MeanReversion(bars, lookback, threshold, dev)[i] == 0
  {
    MeanReversionRule(bars, lookback, threshold, dev, i);
  }

  /** Breakout: long, flat or short on every bar. */
  function Breakout(bars: seq<Bar>, lookback: nat): (signal: seq<int>)
    ensures |signal| == |bars|
    ensures forall i :: 0 <= i < |bars| ==> IsPosition(signal[i])
  {
    var close := Lift(Closes(bars));
    var hh := RollingMax(Lift(Highs(bars)), lookback);
    var ll := RollingMin(Lift(Lows(bars)), lookback);
    var prevHigh := Shift(hh, 1);
    var prevLow := Shift(ll, 1);
    seq(|bars|, i requires 0 <= i < |bars| =>
      if Gt(close[i], prevHigh[i]) then 1 else if Lt(close[i], prevLow[i]) then -1 else 0)
  }

  /**
   * The breakout rule: long when the close is above the highest high of
   * the `lookback` bars before it, otherwise short when it is below their
   * lowest low, otherwise flat. The window is lagged one bar, so the
   * current bar never sets its own level, and the first `lookback` bars
   * are flat.
   */
  lemma {:induction false} BreakoutRule(bars: seq<Bar>, lookback: nat, i: nat)
    requires i < |bars|
    ensures Breakout(bars, lookback)[i] == 1 <==>
      1 <= lookback <= i && bars[i].close > Max(Highs(bars)[i - lookback..i])
    ensures Breakout(bars, lookback)[i] == -1 <==>
      && 1 <= lookback <= i
      && !(bars[i].close > Max(Highs(bars)[i - lookback..i]))
      && bars[i].close < Min(Lows(bars)[i - lookback..i])
  {
    LiftedColumnsAt(bars, i);
    LaggedRollingMax(Highs(bars), lookback, i);
    LaggedRollingMin(Lows(bars), lookback, i);
  }

  /** Every bar's low is at most its high. */
  predicate WellFormed(bars: seq<Bar>)
  {
    forall k :: 0 <= k < |bars| ==> bars[k].low <= bars[k].high
  }

  /**
   * On well-formed bars the two breakout levels cannot both be crossed:
   * short exactly when the close is below the lagged lowest low, and a
   * close equal to either level is flat.
   */
  lemma {:induction false} BreakoutLevels(bars: seq<Bar>, lookback: nat, i: nat)
    requires WellFormed(bars) && 1 <= lookback <= i < |bars|
    ensures Min(Lows(bars)[i - lookback..i]) <= Max(Highs(bars)[i - lookback..i])
    ensures Breakout(bars, lookback)[i] == -1 <==> bars[i].close < Min(Lows(bars)[i - lookback..i])
    ensures bars[i].close == Max(Highs(bars)[i - lookback..i]) ==> Breakout(bars, lookback)[i] == 0
    ensures bars[i].close == Min(Lows(bars)[i - lookback..i]) ==> Breakout(bars, lookback)[i] == 0
  {
    var highs, lows := Highs(bars)[i - lookback..i], Lows(bars)[i - lookback..i];
    MaxSpec(highs);
    MinSpec(lows);
    assert Min(lows) <= lows[0] <= highs[0] <= Max(highs);
    BreakoutRule(bars, lookback, i);
  }

  /** Truncating the frame after bar `k` leaves the SMA signal of bars before `k` unchanged. */
  lemma {:induction false} SmaIsCausal(bars: seq<Bar>, fast: nat, slow: nat, k: nat)
    requires k <= |bars|
    ensures Sma(bars[..k], fast, slow) == Sma(bars, fast, slow)[..k]
  {
    var short, full := Sma(bars[..k], fast, slow), Sma(bars, fast, slow);
    ColumnsOfPrefix(bars, k);
    forall i | 0 <= i < k ensures short[i] == full[i] {
      SmaRule(bars[..k], fast, slow, i);
      SmaRule(bars, fast, slow, i);
      if fast <= i + 1 {
        assert Closes(bars[..k])[i + 1 - fast..i + 1] == Closes(bars)[i + 1 - fast..i + 1];
      }
      if slow <= i + 1 {
        assert Closes(bars[..k])[i + 1 - slow..i + 1] == Closes(bars)[i + 1 - slow..i + 1];
      }
    }
  }

  /** With a non-negative lookback, momentum never looks past the current bar. */
  lemma {:induction false} MomentumIsCausal(bars: seq<Bar>, lookback: int, k: nat)
    requires lookback >= 0 && k <= |bars|
    ensures Momentum(bars[..k], lookback) == Momentum(bars, lookback)[..k]
  {
    var short, full := Momentum(bars[..k], lookback), Momentum(bars, lookback);
    forall i | 0 <= i < k ensures short[i] == full[i] {
      MomentumRule(bars[..k], lookback, i);
      MomentumRule(bars, lookback, i);
    }
  }

  /**
   * Bar `i` of a prefix of the frame, with the matching prefix of the
   * deviations, gets the z-score it gets in the whole frame.
   */
  lemma {:induction false} ZScoreOfPrefixAt(bars: seq<Bar>, lookback: nat, dev: seq<real>, k: nat, i: nat)
    requires PositiveCloses(bars) && IsRollingStd(RawReturns(bars), lookback, dev)
    requires i < k <= |bars|
    requires PositiveCloses(bars[..k]) && IsRollingStd(RawReturns(bars[..k]), lookback, dev[..k])
    ensures ZScore(bars[..k], lookback, dev[..k])[i] == ZScore(bars, lookback, dev)[i]
  {
    var ret := RawReturns(bars);
    ReturnsOfPrefix(bars, k);
    TrailingOfPrefix(ret, k, i, lookback);
    assert dev[..k][i] == dev[i];
  }

  /**
   * Mean reversion never looks past the current bar: cutting the frame
   * after bar `k`, and the deviations with it, leaves the signal of the
   * bars kept unchanged.
   */
  lemma {:induction false} MeanReversionIsCausal(bars: seq<Bar>, lookback: nat, threshold: real, dev: seq<real>, k: nat)
    requires PositiveCloses(bars) && IsRollingStd(RawReturns(bars), lookback, dev)
    requires k <= |bars|
    ensures PositiveCloses(bars[..k]) && IsRollingStd(RawReturns(bars[..k]), lookback, dev[..k])
    ensures MeanReversion(bars[..k], lookback, threshold, dev[..k]) == MeanReversion(bars, lookback, threshold, dev)[..k]
  {
    ReturnsOfPrefix(bars, k);
    RollingStdOfPrefix(RawReturns(bars), lookback, dev, k);
    forall i | 0 <= i < k
      ensures MeanReversion(bars[..k], lookback, threshold, dev[..k])[i] == MeanReversion(bars, lookback, threshold, dev)[i]
    {
      ZScoreOfPrefixAt(bars, lookback, dev, k, i);
    }
  }

  /** Bar `i` of a prefix gets the breakout signal it gets in the whole frame. */
  lemma {:induction false} BreakoutOfPrefixAt(bars: seq<Bar>, lookback: nat, k: nat, i: nat)
    requires i < k <= |bars|
    ensures Breakout(bars[..k], lookback)[i] == Breakout(bars, lookback)[i]
  {
    ColumnsOfPrefix(bars, k);
    BreakoutRule(bars[..k], lookback, i);
    BreakoutRule(bars, lookback, i);
    if lookback <= i {
      assert Highs(bars[..k])[i - lookback..i] == Highs(bars)[i - lookback..i];
      assert Lows(bars[..k])[i - lookback..i] == Lows(bars)[i - lookback..i];
    }
  }

  /** The breakout signal of a bar depends only on that bar and the ones before it. */
  lemma {:induction false} BreakoutIsCausal(bars: seq<Bar>, lookback: nat, k: nat)
    requires k <= |bars|
    ensures Breakout(bars[..k], lookback) == Breakout(bars, lookback)[..k]
  {
    forall i | 0 <= i < k ensures Breakout(bars[..k], lookback)[i] == Breakout(bars, lookback)[i] {
      BreakoutOfPrefixAt(bars, lookback, k, i);
    }
  }
}
