/**
 * Per-bar trading signals of `apply_strategy`: 1 is Buy, -1 is Sell, 0 is
 * Hold. The source writes 0 to every row, then 1 to the rows of the buy
 * mask, then -1 to the rows of the sell mask; a comparison with a NaN entry
 * is false, so an undefined indicator never selects a row.
 */
module Strategy {
  import opened Wrappers
  import opened Rolling

  const Buy: int := 1
  const Hold: int := 0
  const Sell: int := -1

  /**
   * The close lies strictly below a band entry. A comparison with a NaN
   * entry is false.
   */
  predicate Below(x: real, o: Option<real>): (b: bool)
    ensures o.None? ==> !b
    ensures o.Some? ==> (b <==> x < o.value)
  {
    o.Some? && x < o.value
  }

  /**
   * The close lies strictly above a band entry. A comparison with a NaN
   * entry is false.
   */
  predicate Above(x: real, o: Option<real>): (b: bool)
    ensures o.None? ==> !b
    ensures o.Some? ==> (b <==> x > o.value)
  {
    o.Some? && x > o.value
  }

  /**
   * The first of two optional entries is strictly smaller than the second.
   * A comparison involving a NaN entry on either side is false.
   */
  predicate Less(a: Option<real>, b: Option<real>): (r: bool)
    ensures a.None? || b.None? ==> !r
    ensures a.Some? && b.Some? ==> (r <==> a.value < b.value)
  {
    a.Some? && b.Some? && a.value < b.value
  }

  // ---------------------------------------------------------------------
  // Writing the Signal column
  // ---------------------------------------------------------------------

  /**
   * The value a row ends with after the three writes: the sell write comes
   * last, so it wins where both masks hold.
   */
  function Written(buy: bool, sell: bool): int
  {
    if sell then Sell else if buy then Buy else Hold
  }

  /** The Signal column after the three writes, row by row. */
  function SignalColumn(buy: seq<bool>, sell: seq<bool>): (s: seq<int>)
    requires |buy| == |sell|
    ensures |s| == |buy|
    ensures forall i :: 0 <= i < |s| ==> s[i] == Written(buy[i], sell[i])
  {
    seq(|buy|, i requires 0 <= i < |buy| => Written(buy[i], sell[i]))
  }

  /**
   * `data['Signal'] = 0`, then `data.loc[buy, 'Signal'] = 1`, then
   * `data.loc[sell, 'Signal'] = -1`, on a fresh column.
   */
  method WriteSignal(buy: seq<bool>, sell: seq<bool>) returns (signal: seq<int>)
    requires |buy| == |sell|
    ensures |signal| == |buy|
    ensures forall i :: 0 <= i < |buy| ==> (signal[i] == Sell <==> sell[i])
    ensures forall i :: 0 <= i < |buy| ==> (signal[i] == Buy <==> buy[i] && !sell[i])
    ensures forall i :: 0 <= i < |buy| ==> (signal[i] == Hold <==> !buy[i] && !sell[i])
    ensures signal == SignalColumn(buy, sell)
  {
    var n := |buy|;
    var column := new int[n];
    for i := 0 to n
      invariant forall k :: 0 <= k < i ==> column[k] == Hold
    {
      column[i] := Hold;
    }
    for i := 0 to n
      invariant forall k :: 0 <= k < i ==> column[k] == if buy[k] then Buy else Hold
      invariant forall k :: i <= k < n ==> column[k] == Hold
    {
      if buy[i] {
        column[i] := Buy;
      }
    }
    for i := 0 to n
      invariant forall k :: 0 <= k < i ==> column[k] == Written(buy[k], sell[k])
      invariant forall k :: i <= k < n ==> column[k] == if buy[k] then Buy else Hold
    {
      if sell[i] {
        column[i] := Sell;
      }
    }
    signal := column[..];
    assert signal == SignalColumn(buy, sell);
  }

  /** Disjoint masks make the order of the two overwrites irrelevant. */
  lemma DisjointMasksCommute(buy: seq<bool>, sell: seq<bool>)
    requires |buy| == |sell|
    requires forall i :: 0 <= i < |buy| ==> !(buy[i] && sell[i])
    ensures SignalColumn(buy, sell)
         == seq(|buy|, i requires 0 <= i < |buy| => if buy[i] then Buy else if sell[i] then Sell else Hold)
  {
  }

  // ---------------------------------------------------------------------
  // Bollinger Bands strategy
  // ---------------------------------------------------------------------

  /** Buy mask of the Bollinger strategy: rows whose close is below a defined Lower band. */
  function BelowMask(close: seq<real>, lower: Column): (m: seq<bool>)
    requires |lower| == |close|
    ensures |m| == |close| && forall i :: 0 <= i < |m| ==> (m[i] <==> Below(close[i], lower[i]))
  {
    seq(|close|, i requires 0 <= i < |close| => Below(close[i], lower[i]))
  }

  /** Sell mask of the Bollinger strategy: rows whose close is above a defined Upper band. */
  function AboveMask(close: seq<real>, upper: Column): (m: seq<bool>)
    requires |upper| == |close|
    ensures |m| == |close| && forall i :: 0 <= i < |m| ==> (m[i] <==> Above(close[i], upper[i]))
  {
    seq(|close|, i requires 0 <= i < |close| => Above(close[i], upper[i]))
  }

  /** The Signal column of the Bollinger Bands strategy. */
  function BollingerSignals(close: seq<real>, b: Bands): (s: seq<int>)
    requires |b.lower| == |b.upper| == |close|
    ensures |s| == |close|
    ensures forall i :: 0 <= i < |s| ==> (s[i] == Sell <==> Above(close[i], b.upper[i]))
    ensures forall i :: 0 <= i < |s| ==>
              (s[i] == Buy <==> Below(close[i], b.lower[i]) && !Above(close[i], b.upper[i]))
    ensures forall i :: 0 <= i < |s| ==>
              (s[i] == Hold <==> !Below(close[i], b.lower[i]) && !Above(close[i], b.upper[i]))
  {
    SignalColumn(BelowMask(close, b.lower), AboveMask(close, b.upper))
  }

  /**
   * With the bands of `BollingerBands` (a genuine square root, a
   * non-negative multiplier) the signal is 1 exactly when Close < Lower,
   * -1 exactly when Close > Upper, and 0 otherwise, in particular where a
   * band equals the close or is undefined; and the two masks never overlap.
   */
  lemma BollingerSignalMeaning(close: seq<real>, window: nat, noOfStd: real, root: real -> real, i: nat)
    requires IsSquareRoot(root)
    requires window >= 1 && noOfStd >= 0.0 && i < |close|
    ensures var b := BollingerBands(close, window, noOfStd, root);
      var s := BollingerSignals(close, b);
      && !(Below(close[i], b.lower[i]) && Above(close[i], b.upper[i]))
      && (s[i] == Buy <==> Below(close[i], b.lower[i]))
      && (s[i] == Sell <==> Above(close[i], b.upper[i]))
      && (s[i] == Hold <==> !Below(close[i], b.lower[i]) && !Above(close[i], b.upper[i]))
  {
    BandsOrdered(close, window, noOfStd, root, i);
  }

  /**
   * Where the bands are ordered, writing the sell rows first and the buy rows
   * second gives the same column.
   */
  lemma BollingerOrderIrrelevant(close: seq<real>, window: nat, noOfStd: real, root: real -> real)
    requires IsSquareRoot(root)
    requires window >= 1 && noOfStd >= 0.0
    ensures var b := BollingerBands(close, window, noOfStd, root);
      var buy := BelowMask(close, b.lower);
      var sell := AboveMask(close, b.upper);
      SignalColumn(buy, sell)
        == seq(|buy|, i requires 0 <= i < |buy| => if buy[i] then Buy else if sell[i] then Sell else Hold)
  {
    var b := BollingerBands(close, window, noOfStd, root);
    var buy := BelowMask(close, b.lower);
    var sell := AboveMask(close, b.upper);
    forall i | 0 <= i < |buy|
      ensures !(buy[i] && sell[i])
    {
      BandsOrdered(close, window, noOfStd, root, i);
    }
    DisjointMasksCommute(buy, sell);
  }

  /** A series shorter than the window holds (signal 0) on every bar. */
  lemma ShortSeriesHolds(close: seq<real>, window: nat, noOfStd: real, root: real -> real)
    requires 1 <= window && |close| < window
    ensures var s := BollingerSignals(close, BollingerBands(close, window, noOfStd, root));
      forall i :: 0 <= i < |s| ==> s[i] == Hold
  {
    ShortSeriesHasNoBands(close, window, noOfStd, root);
  }

  /** Twenty-five closes of 50: the close sits on both bands, so bar 24 holds. */
  lemma TwentyFiveConstantClosesHold(root: real -> real)
    requires IsSquareRoot(root)
    ensures BollingerSignals(seq(25, _ => 50.0), BollingerBands(seq(25, _ => 50.0), 20, 2.0, root))[24] == Hold
  {
    TwentyFiveConstantCloses(root);
  }

  // ---------------------------------------------------------------------
  // SMA Crossover strategy
  // ---------------------------------------------------------------------

  /** Rows on which the first column is defined, the second too, and the first is smaller. */
  function LessMask(a: Column, b: Column): (m: seq<bool>)
    requires |a| == |b|
    ensures |m| == |a| && forall i :: 0 <= i < |m| ==> (m[i] <==> Less(a[i], b[i]))
  {
    seq(|a|, i requires 0 <= i < |a| => Less(a[i], b[i]))
  }

  /**
   * The Signal column of the SMA Crossover strategy, a level comparison on
   * each bar: 1 exactly when both averages are defined and short > long, -1
   * exactly when short < long, 0 when they are equal or either is undefined.
   */
  function CrossoverSignals(short: Column, long: Column): (s: seq<int>)
    requires |short| == |long|
    ensures |s| == |short|
    ensures forall i :: 0 <= i < |s| ==>
              (s[i] == Buy <==> short[i].Some? && long[i].Some? && short[i].value > long[i].value)
    ensures forall i :: 0 <= i < |s| ==>
              (s[i] == Sell <==> short[i].Some? && long[i].Some? && short[i].value < long[i].value)
    ensures forall i :: 0 <= i < |s| ==>
              (s[i] == Hold <==> short[i].None? || long[i].None? || short[i].value == long[i].value)
  {
    SignalColumn(LessMask(long, short), LessMask(short, long))
  }

  /**
   * Not an edge detector: every bar of a stretch on which the short average
   * stays above the long one carries 1, not only the bar where it crossed.
   */
  lemma CrossoverHoldsOverRun(short: Column, long: Column, lo: nat, hi: nat)
    requires |short| == |long| && lo <= hi < |short|
    requires forall i :: lo <= i <= hi ==> Less(long[i], short[i])
    ensures forall i :: lo <= i <= hi ==> CrossoverSignals(short, long)[i] == Buy
  {
  }

  /** With fewer than 200 closes the 200-bar average is undefined, so every bar holds. */
  lemma ShortSeriesNoCrossover(close: seq<real>)
    requires |close| < 200
    ensures var s := CrossoverSignals(RollingMean(close, 50), RollingMean(close, 200));
      forall i :: 0 <= i < |s| ==> s[i] == Hold
  {
  }
}
