/**
 * The SMA crossover on a market whose close rises strictly from bar to
 * bar: once both windows are full the fast mean is above the slow one,
 * so the signal switches to long at bar `slow - 1` and stays long, and
 * the backtest then compounds every later rise. The 25-bar series
 * closing at 100, 101, ..., 124 with SMA(3, 5) is one instance.
 */
module Scenarios {
  import opened Stats
  import opened Prices
  import opened Strategies
  import opened Engine

  /** Every close is below every later close. */
  predicate StrictlyRising(s: seq<real>)
  {
    forall j, k :: 0 <= j < k < |s| ==> s[j] < s[k]
  }

  /**
   * On strictly rising numbers the mean of the last `fast` ending at `i`
   * is above the mean of the last `slow`, when `fast < slow`: the slow
   * window adds only older, lower numbers.
   */
  lemma {:induction false} RisingMeans(s: seq<real>, fast: nat, slow: nat, i: nat)
    requires StrictlyRising(s) && 1 <= fast < slow <= i + 1 && i < |s|
    ensures Mean(s[i + 1 - fast..i + 1]) > Mean(s[i + 1 - slow..i + 1])
  {
    var lo, mid := i + 1 - slow, i + 1 - fast;
    var older, recent := s[lo..mid], s[mid..i + 1];
    assert older + recent == s[lo..i + 1];
    var t := s[mid];
    forall k | 0 <= k < |older| ensures older[k] < t {
      assert older[k] == s[lo + k];
    }
    forall k | 0 <= k < |recent| ensures t <= recent[k] {
      assert recent[k] == s[mid + k];
    }
    MeanBelow(older, t);
    MeanAtLeast(recent, t);
    MeanOfConcatBelow(older, recent);
  }

  /** On a strictly rising close the SMA signal is flat before bar `slow - 1` and long from it on. */
  lemma {:induction false} RisingSma(bars: seq<Bar>, fast: nat, slow: nat, i: nat)
    requires StrictlyRising(Closes(bars)) && 1 <= fast < slow && i < |bars|
    ensures Sma(bars, fast, slow)[i] == if slow <= i + 1 then 1 else 0
  {
    SmaRule(bars, fast, slow, i);
    if slow <= i + 1 {
      RisingMeans(Closes(bars), fast, slow, i);
    }
  }

  /** What the SMA signal earns on a rising close: nothing up to bar `slow - 1`, the bar's rise after. */
  lemma {:induction false} RisingSmaReturns(bars: seq<Bar>, fast: nat, slow: nat, i: nat)
    requires PositiveCloses(bars) && StrictlyRising(Closes(bars)) && 1 <= fast < slow && i < |bars|
    ensures i < slow ==> StrategyReturns(bars, Sma(bars, fast, slow))[i] == 0.0
    ensures slow <= i ==> StrategyReturns(bars, Sma(bars, fast, slow))[i] > 0.0
  {
    if i >= 1 {
      var signal := Sma(bars, fast, slow);
      var prev, cur := bars[i - 1].close, bars[i].close;
      RisingSma(bars, fast, slow, i - 1);
      StrategyReturnAt(bars, signal, i);
      if slow <= i {
        assert Closes(bars)[i - 1] == prev && Closes(bars)[i] == cur;
        RatioBounds(cur, prev);
      }
    }
  }

  /** Before bar `slow` the SMA strategy on a rising close has not moved its equity from 1. */
  lemma {:induction false} RisingSmaFlatStart(bars: seq<Bar>, fast: nat, slow: nat, i: nat)
    requires PositiveCloses(bars) && StrictlyRising(Closes(bars)) && 1 <= fast < slow
    requires i < |bars| && i < slow
    ensures Equity(StrategyReturns(bars, Sma(bars, fast, slow)))[i] == 1.0
  {
    var sr := StrategyReturns(bars, Sma(bars, fast, slow));
    forall k | 0 <= k <= i ensures sr[k] == 0.0 {
      RisingSmaReturns(bars, fast, slow, k);
    }
    EquityOfZeroReturns(sr, i);
  }

  /** From bar `slow` on, the SMA strategy on a rising close grows its equity on every bar. */
  lemma {:induction false} RisingSmaGrowth(bars: seq<Bar>, fast: nat, slow: nat, i: nat)
    requires PositiveCloses(bars) && StrictlyRising(Closes(bars)) && 1 <= fast < slow
    requires slow <= i < |bars|
    ensures Equity(StrategyReturns(bars, Sma(bars, fast, slow)))[i] >
      Equity(StrategyReturns(bars, Sma(bars, fast, slow)))[i - 1]
  {
    var signal := Sma(bars, fast, slow);
    var sr := StrategyReturns(bars, signal);
    var e := Equity(sr);
    RisingSmaReturns(bars, fast, slow, i);
    LongOnlyEquityPositive(bars, signal, i - 1);
    EquityRises(sr, i);
  }

  /**
   * The backtest of the SMA strategy on a rising close: equity stays at 1
   * through bar `slow - 1`, rises strictly on every later bar, so never
   * draws down, and ends above 1 whenever a bar follows bar `slow - 1`.
   */
  lemma {:induction false} RisingSmaBacktest(bars: seq<Bar>, fast: nat, slow: nat)
    requires |bars| >= 1 && PositiveCloses(bars) && StrictlyRising(Closes(bars)) && 1 <= fast < slow
    ensures var r := Backtest(bars, Sma(bars, fast, slow));
      forall i :: 0 <= i < |bars| && i < slow ==> r.equity[i] == 1.0
    ensures var r := Backtest(bars, Sma(bars, fast, slow));
      forall i :: slow <= i < |bars| ==> r.equity[i] > r.equity[i - 1]
    ensures Backtest(bars, Sma(bars, fast, slow)).metrics.maxDrawdown == 0.0
    ensures slow < |bars| ==> Backtest(bars, Sma(bars, fast, slow)).metrics.totalReturn > 0.0
  {
    var r := Backtest(bars, Sma(bars, fast, slow));
    var e := r.equity;
    forall i | 0 <= i < |bars| && i < slow ensures e[i] == 1.0 {
      RisingSmaFlatStart(bars, fast, slow, i);
    }
    forall i | slow <= i < |bars| ensures e[i] > e[i - 1] {
      RisingSmaGrowth(bars, fast, slow, i);
    }
    assert forall i :: 1 <= i < |e| ==> e[i - 1] <= e[i];
    StepwiseNonDecreasing(e);
    DrawdownZeroIffNonDecreasing(e);
    if slow < |bars| {
      assert e[slow - 1] == 1.0;
      assert e[slow] <= e[|bars| - 1];
    }
  }

  /** The 25 daily bars closing at 100, 101, ..., 124. */
  function RisingFrame(): (bars: seq<Bar>)
    ensures |bars| == 25
    ensures forall i :: 0 <= i < 25 ==> bars[i].close == 100.0 + i as real
  {
    seq(25, i requires 0 <= i < 25 => Bar(100.0 + i as real, 100.0 + i as real, 100.0 + i as real, 100.0 + i as real))
  }

  /**
   * SMA(3, 5) on that frame: flat on bars 0 to 3, long from bar 4 on,
   * equity rising strictly from bar 5 on, and a positive total return.
   */
  lemma RisingFrameSma()
    ensures forall i :: 0 <= i < 4 ==> Sma(RisingFrame(), 3, 5)[i] == 0
    ensures forall i :: 4 <= i < 25 ==> Sma(RisingFrame(), 3, 5)[i] == 1
    ensures forall i :: 5 <= i < 25 ==>
      Backtest(RisingFrame(), Sma(RisingFrame(), 3, 5)).equity[i] >
      Backtest(RisingFrame(), Sma(RisingFrame(), 3, 5)).equity[i - 1]
    ensures Backtest(RisingFrame(), Sma(RisingFrame(), 3, 5)).metrics.totalReturn > 0.0
  {
    var bars := RisingFrame();
    assert StrictlyRising(Closes(bars));
    forall i | 0 <= i < 25 ensures Sma(bars, 3, 5)[i] == if i >= 4 then 1 else 0 {
      RisingSma(bars, 3, 5, i);
    }
    RisingSmaBacktest(bars, 3, 5);
  }
}
