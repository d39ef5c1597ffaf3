/**
 * The backtest engine: from the frame and its signal column to the
 * per-bar return, strategy return and equity columns, and the total
 * return and maximum drawdown of the run.
 */
module Engine {
  import opened Stats
  import opened Columns
  import opened Prices

  /** The signal column as floats, the form `shift` leaves it in. */
  function SignalColumn(signal: seq<int>): Column
  {
    seq(|signal|, i requires 0 <= i < |signal| => Num(signal[i] as real))
  }

  /**
   * `signal.shift(1).fillna(0)`: the position held into each bar is the
   * signal of the bar before; the first bar has none and is flat.
   */
  function Positions(signal: seq<int>): (position: seq<real>)
    ensures |position| == |signal|
    ensures forall i :: 0 <= i < |signal| ==>
      position[i] == if i == 0 then 0.0 else signal[i - 1] as real
  {
    var lagged := Shift(SignalColumn(signal), 1);
    assert forall i :: 0 <= i < |signal| ==>
      lagged[i] == if i == 0 then NaN else SignalColumn(signal)[i - 1];
    FillNa(lagged, 0.0)
  }

  /**
   * `df[signal_col].shift(1).fillna(0) * df["ret"]`: each bar earns its
   * own return on the position taken at the bar before; the first bar
   * has no earlier position and earns nothing.
   */
  function StrategyReturns(bars: seq<Bar>, signal: seq<int>): (stratRet: seq<real>)
    requires PositiveCloses(bars) && |signal| == |bars|
    ensures |stratRet| == |bars|
    ensures |bars| > 0 ==> stratRet[0] == 0.0
  {
    Times(Positions(signal), Returns(bars))
  }

  /**
   * The lag rule: from the second bar on, each bar earns the signal of the
   * bar before times its own close-to-close return, and nothing depends on
   * the signal of the bar itself. So a long bar earns the return, a flat
   * bar nothing and a short bar the opposite of the return.
   */
  lemma {:induction false} StrategyReturnAt(bars: seq<Bar>, signal: seq<int>, i: nat)
    requires PositiveCloses(bars) && |signal| == |bars| && 1 <= i < |bars|
    ensures StrategyReturns(bars, signal)[i] == (signal[i - 1] as real) * (bars[i].close / bars[i - 1].close - 1.0)
    ensures signal[i - 1] == 1 ==> StrategyReturns(bars, signal)[i] == bars[i].close / bars[i - 1].close - 1.0
    ensures signal[i - 1] == 0 ==> StrategyReturns(bars, signal)[i] == 0.0
    ensures signal[i - 1] == -1 ==> StrategyReturns(bars, signal)[i] == 1.0 - bars[i].close / bars[i - 1].close
  {
    var a, x := signal[i - 1] as real, bars[i].close / bars[i - 1].close - 1.0;
    assert Positions(signal)[i] == a;
    assert Returns(bars)[i] == x;
    assert StrategyReturns(bars, signal)[i] == a * x;
  }

  /**
   * `(1 + df["strat_ret"]).cumprod()`: the equity multiplier compounds
   * each bar's strategy return onto the bar before, starting from 1.
   */
  function Equity(stratRet: seq<real>): (equity: seq<real>)
    ensures |equity| == |stratRet|
    ensures |stratRet| > 0 ==> equity[0] == 1.0 + stratRet[0]
    ensures forall i :: 1 <= i < |stratRet| ==> equity[i] == equity[i - 1] * (1.0 + stratRet[i])
  {
    CumProd(Growth(stratRet))
  }

  /** The factor `1 + strat_ret` by which each bar scales the equity. */
  function Growth(stratRet: seq<real>): (g: seq<real>)
    ensures |g| == |stratRet|
  {
    seq(|stratRet|, i requires 0 <= i < |stratRet| => 1.0 + stratRet[i])
  }

  /** The equity of bar `i` is the product of the growth factors of bars 0..i. */
  lemma {:induction false} EquityIsProduct(stratRet: seq<real>, i: nat)
    requires i < |stratRet|
    ensures Equity(stratRet)[i] == Product(Growth(stratRet[..i + 1]))
  {
    var factors := Growth(stratRet[..i + 1]);
    if i == 0 {
      assert factors[..0] == [];
    } else {
      EquityIsProduct(stratRet, i - 1);
      assert stratRet[..i + 1][..i] == stratRet[..i];
      assert factors[..i] == Growth(stratRet[..i]);
    }
  }

  /**
   * `equity / equity.cummax() - 1`: each bar's fractional distance below
   * the highest equity so far. The running peak is at least the first
   * equity, so a positive start keeps every division defined.
   */
  function Drawdown(equity: seq<real>): (dd: seq<real>)
    requires |equity| > 0 && equity[0] > 0.0
    ensures |dd| == |equity|
  {
    var peak := CumMax(equity);
    seq(|equity|, i requires 0 <= i < |equity| => equity[i] / peak[i] - 1.0)
  }

  /**
   * Each bar's drawdown is at most 0, exactly 0 where the equity stands at
   * its running peak (so on the first bar), at least -1 while the equity is
   * non-negative and above -1 while it is positive.
   */
  lemma {:induction false} DrawdownAt(equity: seq<real>, i: nat)
    requires |equity| > 0 && equity[0] > 0.0 && i < |equity|
    ensures Drawdown(equity)[i] <= 0.0
    ensures Drawdown(equity)[i] == 0.0 <==> equity[i] == CumMax(equity)[i]
    ensures i == 0 ==> Drawdown(equity)[i] == 0.0
    ensures equity[i] >= 0.0 ==> Drawdown(equity)[i] >= -1.0
    ensures equity[i] > 0.0 ==> Drawdown(equity)[i] > -1.0
  {
    var peak := CumMax(equity)[i];
    assert Drawdown(equity)[i] == equity[i] / peak - 1.0;
    CumMaxAt(equity, i);
    RatioBounds(equity[i], peak);
    if i == 0 {
      assert peak == equity[0];
    }
  }

  /** `(equity / equity.cummax() - 1).min()`: the deepest drawdown, never above 0. */
  function MaxDrawdown(equity: seq<real>): (m: real)
    requires |equity| > 0 && equity[0] > 0.0
    ensures m <= 0.0
    ensures exists i :: 0 <= i < |equity| && Drawdown(equity)[i] == m
    ensures forall i :: 0 <= i < |equity| ==> m <= Drawdown(equity)[i]
  {
    DrawdownAt(equity, 0);
    MinSpec(Drawdown(equity));
    Min(Drawdown(equity))
  }

  /** The metrics of one run that this model keeps (CAGR and Sharpe are not modelled). */
  datatype Metrics = Metrics(totalReturn: real, maxDrawdown: real)

  /** The annotated columns and the metrics `backtest` returns. */
  datatype Report = Report(ret: seq<real>, stratRet: seq<real>, equity: seq<real>, metrics: Metrics)

  /**
   * `backtest`: the columns are aligned with the bars, equity starts at
   * exactly 1 (the first bar earns nothing), the total return is the
   * final equity less 1, and the maximum drawdown is never positive.
   */
  function Backtest(bars: seq<Bar>, signal: seq<int>): (r: Report)
    requires |bars| >= 1 && PositiveCloses(bars) && |signal| == |bars|
    ensures |r.ret| == |r.stratRet| == |r.equity| == |bars|
    ensures r.ret == Returns(bars)
    ensures r.stratRet == StrategyReturns(bars, signal)
    ensures r.equity == Equity(r.stratRet) && r.equity[0] == 1.0
    ensures r.metrics.totalReturn == r.equity[|bars| - 1] - 1.0
    ensures r.metrics.maxDrawdown == MaxDrawdown(r.equity) && r.metrics.maxDrawdown <= 0.0
  {
    var ret := Returns(bars);
    var stratRet := StrategyReturns(bars, signal);
    var equity := Equity(stratRet);
    Report(ret, stratRet, equity, Metrics(equity[|bars| - 1] - 1.0, MaxDrawdown(equity)))
  }

  predicate NonDecreasing(s: seq<real>)
  {
    forall j, k :: 0 <= j <= k < |s| ==> s[j] <= s[k]
  }

  /** Positive equity grows on a bar whose strategy return is positive. */
  lemma {:induction false} EquityRises(stratRet: seq<real>, i: nat)
    requires 1 <= i < |stratRet|
    requires Equity(stratRet)[i - 1] > 0.0 && stratRet[i] > 0.0
    ensures Equity(stratRet)[i] > Equity(stratRet)[i - 1]
  {
    ScaleAbove(Equity(stratRet)[i - 1], 1.0 + stratRet[i]);
  }

  /** A sequence that never falls from one element to the next is non-decreasing. */
  lemma {:induction false} StepwiseNonDecreasing(s: seq<real>)
    requires forall i :: 1 <= i < |s| ==> s[i - 1] <= s[i]
    ensures NonDecreasing(s)
  {
    if |s| > 1 {
      var init := s[..|s| - 1];
      StepwiseNonDecreasing(init);
      forall j | 0 <= j < |s| ensures s[j] <= s[|s| - 1] {
        if j < |s| - 1 {
          assert init[j] <= init[|s| - 2];
        }
      }
    }
  }

  /** Equity that never falls below an earlier value sits at its running peak. */
  lemma {:induction false} PeakOfNonDecreasing(equity: seq<real>, i: nat)
    requires NonDecreasing(equity) && i < |equity|
    ensures CumMax(equity)[i] == equity[i]
  {
    CumMaxAt(equity, i);
    var k :| 0 <= k <= i && equity[k] == CumMax(equity)[i];
  }

  /** The maximum drawdown is 0 exactly when equity never falls. */
  lemma {:induction false} DrawdownZeroIffNonDecreasing(equity: seq<real>)
    requires |equity| > 0 && equity[0] > 0.0
    ensures MaxDrawdown(equity) == 0.0 <==> NonDecreasing(equity)
  {
    var dd := Drawdown(equity);
    if NonDecreasing(equity) {
      var j :| 0 <= j < |dd| && dd[j] == MaxDrawdown(equity);
      PeakOfNonDecreasing(equity, j);
      DrawdownAt(equity, j);
    } else {
      var j, k :| 0 <= j <= k < |equity| && equity[j] > equity[k];
      CumMaxAt(equity, k);
      DrawdownAt(equity, k);
      assert dd[k] < 0.0;
    }
  }

  /** While equity stays non-negative no drawdown is deeper than -100%. */
  lemma {:induction false} DrawdownAtLeastMinusOne(equity: seq<real>)
    requires |equity| > 0 && equity[0] > 0.0
    requires forall i :: 0 <= i < |equity| ==> equity[i] >= 0.0
    ensures MaxDrawdown(equity) >= -1.0
  {
    var dd := Drawdown(equity);
    var j :| 0 <= j < |dd| && dd[j] == MaxDrawdown(equity);
    DrawdownAt(equity, j);
  }

  /** Equity compounded from zero strategy returns up to bar `i` stays at exactly 1 there. */
  lemma {:induction false} EquityOfZeroReturns(stratRet: seq<real>, i: nat)
    requires i < |stratRet|
    requires forall k :: 0 <= k <= i ==> stratRet[k] == 0.0
    ensures Equity(stratRet)[i] == 1.0
  {
    var factors := Growth(stratRet[..i + 1]);
    assert forall k :: 0 <= k < |factors| ==> factors[k] == 1.0 + stratRet[k];
    EquityIsProduct(stratRet, i);
    ProductOfOnes(factors);
  }

  /** An all-flat signal earns nothing on any bar. */
  lemma {:induction false} FlatEarnsNothing(bars: seq<Bar>, signal: seq<int>)
    requires PositiveCloses(bars) && |signal| == |bars|
    requires forall k :: 0 <= k < |signal| ==> signal[k] == 0
    ensures forall k :: 0 <= k < |bars| ==> StrategyReturns(bars, signal)[k] == 0.0
  {
    forall k | 1 <= k < |bars| ensures StrategyReturns(bars, signal)[k] == 0.0 {
      StrategyReturnAt(bars, signal, k);
    }
  }

  /** An all-flat signal never moves the equity: it stays 1, with no return and no drawdown. */
  lemma {:induction false} FlatSignal(bars: seq<Bar>, signal: seq<int>)
    requires |bars| >= 1 && PositiveCloses(bars) && |signal| == |bars|
    requires forall k :: 0 <= k < |signal| ==> signal[k] == 0
    ensures forall i :: 0 <= i < |bars| ==> Backtest(bars, signal).equity[i] == 1.0
    ensures Backtest(bars, signal).metrics.totalReturn == 0.0
    ensures Backtest(bars, signal).metrics.maxDrawdown == 0.0
  {
    var r := Backtest(bars, signal);
    FlatEarnsNothing(bars, signal);
    forall i | 0 <= i < |bars| ensures r.equity[i] == 1.0 {
      EquityOfZeroReturns(r.stratRet, i);
    }
    assert NonDecreasing(r.equity);
    DrawdownZeroIffNonDecreasing(r.equity);
  }

  /** Equity up to bar `i` depends only on strategy returns up to bar `i`. */
  lemma {:induction false} EquityIsCausal(sr1: seq<real>, sr2: seq<real>, i: nat)
    requires i < |sr1| && i < |sr2| && sr1[..i + 1] == sr2[..i + 1]
    ensures Equity(sr1)[..i + 1] == Equity(sr2)[..i + 1]
  {
    forall k | 0 <= k <= i ensures Equity(sr1)[k] == Equity(sr2)[k] {
      assert sr1[..k + 1] == sr1[..i + 1][..k + 1] == sr2[..i + 1][..k + 1] == sr2[..k + 1];
      EquityIsProduct(sr1, k);
      EquityIsProduct(sr2, k);
    }
  }

  /** Bar `k` earns the same under two signals that agree on bar `k - 1`. */
  lemma {:induction false} SameSignalSameReturn(bars: seq<Bar>, s1: seq<int>, s2: seq<int>, k: nat)
    requires PositiveCloses(bars) && |s1| == |bars| && |s2| == |bars| && 1 <= k < |bars|
    requires s1[k - 1] == s2[k - 1]
    ensures StrategyReturns(bars, s1)[k] == StrategyReturns(bars, s2)[k]
  {
    StrategyReturnAt(bars, s1, k);
    StrategyReturnAt(bars, s2, k);
  }

  /**
   * No look-ahead: the strategy return and the equity of bar `i` are the
   * same for any two signals that agree on the bars before `i`, so the
   * signal of bar `i` itself never contributes to them.
   */
  lemma {:induction false} NoLookAhead(bars: seq<Bar>, s1: seq<int>, s2: seq<int>, i: nat)
    requires PositiveCloses(bars) && |s1| == |bars| && |s2| == |bars| && i < |bars|
    requires s1[..i] == s2[..i]
    ensures StrategyReturns(bars, s1)[..i + 1] == StrategyReturns(bars, s2)[..i + 1]
    ensures Equity(StrategyReturns(bars, s1))[..i + 1] == Equity(StrategyReturns(bars, s2))[..i + 1]
  {
    var sr1, sr2 := StrategyReturns(bars, s1), StrategyReturns(bars, s2);
    forall k | 1 <= k <= i ensures sr1[k] == sr2[k] {
      assert s1[k - 1] == s1[..i][k - 1] == s2[..i][k - 1] == s2[k - 1];
      SameSignalSameReturn(bars, s1, s2, k);
    }
    assert sr1[..i + 1] == sr2[..i + 1];
    EquityIsCausal(sr1, sr2, i);
  }

  /** The signal of the last bar never affects the backtest. */
  lemma {:induction false} LastSignalIgnored(bars: seq<Bar>, s1: seq<int>, s2: seq<int>)
    requires |bars| >= 1 && PositiveCloses(bars) && |s1| == |bars| && |s2| == |bars|
    requires s1[..|bars| - 1] == s2[..|bars| - 1]
    ensures Backtest(bars, s1) == Backtest(bars, s2)
  {
    var n := |bars|;
    NoLookAhead(bars, s1, s2, n - 1);
    var sr1, sr2 := StrategyReturns(bars, s1), StrategyReturns(bars, s2);
    assert sr1 == sr1[..n] && sr2 == sr2[..n];
    assert sr1 == sr2;
  }

  /** Equity stays positive while every growth factor so far is positive. */
  lemma {:induction false} EquityPositive(stratRet: seq<real>, i: nat)
    requires i < |stratRet|
    requires forall k :: 0 <= k <= i ==> 1.0 + stratRet[k] > 0.0
    ensures Equity(stratRet)[i] > 0.0
  {
    if i > 0 {
      EquityPositive(stratRet, i - 1);
      var e, g := Equity(stratRet)[i - 1], 1.0 + stratRet[i];
      assert Equity(stratRet)[i] == e * g;
    }
  }

  /**
   * Under a long-or-flat signal on positive prices every growth factor is
   * positive: a long bar multiplies the equity by close / previous close,
   * a flat bar by 1.
   */
  lemma {:induction false} LongOnlyGrowthPositive(bars: seq<Bar>, signal: seq<int>, i: nat)
    requires PositiveCloses(bars) && |signal| == |bars| && i < |bars|
    requires i == 0 || signal[i - 1] == 0 || signal[i - 1] == 1
    ensures 1.0 + StrategyReturns(bars, signal)[i] > 0.0
  {
    if i > 0 {
      StrategyReturnAt(bars, signal, i);
      RatioBounds(bars[i].close, bars[i - 1].close);
    }
  }

  /** A long-or-flat signal on positive prices keeps equity positive, so it never loses everything. */
  lemma {:induction false} LongOnlyEquityPositive(bars: seq<Bar>, signal: seq<int>, i: nat)
    requires PositiveCloses(bars) && |signal| == |bars| && i < |bars|
    requires forall k :: 0 <= k < |signal| ==> signal[k] == 0 || signal[k] == 1
    ensures Equity(StrategyReturns(bars, signal))[i] > 0.0
  {
    var sr := StrategyReturns(bars, signal);
    forall k | 0 <= k <= i ensures 1.0 + sr[k] > 0.0 {
      LongOnlyGrowthPositive(bars, signal, k);
    }
    EquityPositive(sr, i);
  }

  /** A long-or-flat strategy on positive prices loses less than everything. */
  lemma {:induction false} LongOnlyDrawdownAboveMinusOne(bars: seq<Bar>, signal: seq<int>)
    requires |bars| >= 1 && PositiveCloses(bars) && |signal| == |bars|
    requires forall k :: 0 <= k < |signal| ==> signal[k] == 0 || signal[k] == 1
    ensures Backtest(bars, signal).metrics.maxDrawdown > -1.0
  {
    var r := Backtest(bars, signal);
    var dd := Drawdown(r.equity);
    var j :| 0 <= j < |dd| && dd[j] == r.metrics.maxDrawdown;
    LongOnlyEquityPositive(bars, signal, j);
    DrawdownAt(r.equity, j);
  }
}
