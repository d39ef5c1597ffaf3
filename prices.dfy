/**
 * The price series: one OHLC bar per row, in ascending date order (the
 * loader's guarantee), and the per-bar return of the close.
 */
module Prices {
  import opened Columns

  /** One row of the price frame. The date fixes only the order of rows. */
  datatype Bar = Bar(open: real, high: real, low: real, close: real)

  /** The `Close` column. */
  function Closes(bars: seq<Bar>): seq<real>
  {
    seq(|bars|, i requires 0 <= i < |bars| => bars[i].close)
  }

  /** The `High` column. */
  function Highs(bars: seq<Bar>): seq<real>
  {
    seq(|bars|, i requires 0 <= i < |bars| => bars[i].high)
  }

  /** The `Low` column. */
  function Lows(bars: seq<Bar>): seq<real>
  {
    seq(|bars|, i requires 0 <= i < |bars| => bars[i].low)
  }

  /** Every close is a positive price, so that each return is defined. */
  predicate PositiveCloses(bars: seq<Bar>)
  {
    forall i :: 0 <= i < |bars| ==> bars[i].close > 0.0
  }

  /**
   * `df["Close"].pct_change()`: NaN on the first bar, then the relative
   * change of the close from the bar before.
   */
  function RawReturns(bars: seq<Bar>): (ret: Column)
    requires PositiveCloses(bars)
    ensures |ret| == |bars|
    ensures forall i :: 0 <= i < |bars| ==> (ret[i].Num? <==> i >= 1)
    ensures forall i {:trigger ret[i]} :: 1 <= i < |bars| ==> ret[i].v == bars[i].close / bars[i - 1].close - 1.0
  {
    PctChange(Lift(Closes(bars)))
  }

  /** `df["Close"].pct_change().fillna(0)`: the first bar earns nothing. */
  function Returns(bars: seq<Bar>): (ret: seq<real>)
    requires PositiveCloses(bars)
    ensures |ret| == |bars|
    ensures |bars| > 0 ==> ret[0] == 0.0
    ensures forall i {:trigger ret[i]} :: 1 <= i < |bars| ==> ret[i] == bars[i].close / bars[i - 1].close - 1.0
  {
    FillNa(RawReturns(bars), 0.0)
  }

  /** Row `i` of the lifted `Close`, `High` and `Low` columns. */
  lemma {:induction false} LiftedColumnsAt(bars: seq<Bar>, i: nat)
    requires i < |bars|
    ensures Lift(Closes(bars))[i] == Num(bars[i].close)
    ensures Lift(Highs(bars))[i] == Num(bars[i].high)
    ensures Lift(Lows(bars))[i] == Num(bars[i].low)
  {
  }

  /** Truncating the frame truncates both return columns. */
  lemma {:induction false} ReturnsOfPrefix(bars: seq<Bar>, k: nat)
    requires PositiveCloses(bars) && k <= |bars|
    ensures PositiveCloses(bars[..k])
    ensures RawReturns(bars[..k]) == RawReturns(bars)[..k]
    ensures Returns(bars[..k]) == Returns(bars)[..k]
  {
    var short := bars[..k];
    assert forall i :: 0 <= i < k ==> short[i] == bars[i];
    var r1, r2 := RawReturns(short), RawReturns(bars);
    forall i | 0 <= i < k ensures r1[i] == r2[i] {
      if i >= 1 {
        assert r1[i].v == r2[i].v;
      }
    }
  }

  /** Truncating the frame truncates each column. */
  lemma {:induction false} ColumnsOfPrefix(bars: seq<Bar>, k: nat)
    requires k <= |bars|
    ensures Closes(bars[..k]) == Closes(bars)[..k]
    ensures Highs(bars[..k]) == Highs(bars)[..k]
    ensures Lows(bars[..k]) == Lows(bars)[..k]
  {
  }
}
