/**
 * The data frame that the indicator, signal and growth functions of the
 * analyzer annotate in place. `close` is the Close column, which nothing
 * changes; every other column lives in `columns` under its name, and each
 * operation reassigns the entries it writes.
 */
module Frame {
  import opened Wrappers
  import opened Rolling
  import opened Strategy
  import opened Growth

  /** The cells of one derived column: floats (NaN as None) or integer signals. */
  datatype Cells = Reals(values: Column) | Ints(ints: seq<int>) {
    function Length(): nat
    {
      match this
      case Reals(v) => |v|
      case Ints(v) => |v|
    }
  }

  /** A column of floats none of which is NaN. */
  function Defined(s: seq<real>): (c: Column)
    ensures |c| == |s| && forall i :: 0 <= i < |s| ==> c[i] == Some(s[i])
  {
    seq(|s|, i requires 0 <= i < |s| => Some(s[i]))
  }

  const CloseName: string := "Close"
  const SmaName: string := "SMA"
  const StdName: string := "STD"
  const UpperName: string := "Upper Band"
  const LowerName: string := "Lower Band"
  const ShortName: string := "SMA_Short"
  const LongName: string := "SMA_Long"
  const SignalName: string := "Signal"

  /** The name of the growth column written for a style: the style followed by " Growth". */
  function GrowthName(style: string): (name: string)
    ensures |name| == |style| + 7 && name[..|style|] == style && name[|style|..] == " Growth"
    ensures name != CloseName
  {
    style + " Growth"
  }

  class DataFrame {
    const close: seq<real>
    var columns: map<string, Cells>

    /** Every column has one cell per bar, and no column shadows Close. */
    ghost predicate Valid()
      reads this
    {
      && CloseName !in columns
      && forall name :: name in columns ==> columns[name].Length() == |close|
    }

    constructor (close: seq<real>, columns: map<string, Cells>)
      requires CloseName !in columns
      requires forall name :: name in columns ==> columns[name].Length() == |close|
      ensures Valid() && this.close == close && this.columns == columns
    {
      this.close := close;
      this.columns := columns;
    }

    /**
     * `calculate_bollinger_bands(data, window, no_of_std)`: writes SMA, STD,
     * Upper Band and Lower Band and leaves every other column as it was.
     */
    method CalculateBollingerBands(root: real -> real, window: nat := 20, noOfStd: real := 2.0)
      requires Valid() && window >= 1
      modifies this
      ensures Valid()
      ensures var b := BollingerBands(close, window, noOfStd, root);
        columns == old(columns)[SmaName := Reals(b.sma)][StdName := Reals(b.std)]
                               [UpperName := Reals(b.upper)][LowerName := Reals(b.lower)]
    {
      var sma := RollingMean(close, window);
      var std := RollingStd(close, window, root);
      columns := columns[SmaName := Reals(sma)];
      columns := columns[StdName := Reals(std)];
      columns := columns[UpperName := Reals(ColumnAdd(sma, ColumnScale(noOfStd, std)))];
      columns := columns[LowerName := Reals(ColumnSub(sma, ColumnScale(noOfStd, std)))];
    }

    /**
     * `calculate_sma(data, short_window, long_window)`: writes SMA_Short and
     * SMA_Long and leaves every other column as it was.
     */
    method CalculateSma(shortWindow: nat := 50, longWindow: nat := 200)
      requires Valid() && shortWindow >= 1 && longWindow >= 1
      modifies this
      ensures Valid()
      ensures columns == old(columns)[ShortName := Reals(RollingMean(close, shortWindow))]
                                     [LongName := Reals(RollingMean(close, longWindow))]
    {
      columns := columns[ShortName := Reals(RollingMean(close, shortWindow))];
      columns := columns[LongName := Reals(RollingMean(close, longWindow))];
    }

    /**
     * `apply_strategy(data, strategy)`: for "Bollinger Bands" the bands with
     * their defaults and the Signal column built from them; for "SMA
     * Crossover" the two averages with their defaults and the Signal column
     * built from them; for any other name nothing changes.
     */
    method ApplyStrategy(strategy: string, root: real -> real)
      requires Valid()
      modifies this
      ensures Valid()
      ensures strategy == "Bollinger Bands" ==>
        var b := BollingerBands(close, 20, 2.0, root);
        columns == old(columns)[SmaName := Reals(b.sma)][StdName := Reals(b.std)]
                               [UpperName := Reals(b.upper)][LowerName := Reals(b.lower)]
                               [SignalName := Ints(BollingerSignals(close, b))]
      ensures strategy == "SMA Crossover" ==>
        var short, long := RollingMean(close, 50), RollingMean(close, 200);
        columns == old(columns)[ShortName := Reals(short)][LongName := Reals(long)]
                               [SignalName := Ints(CrossoverSignals(short, long))]
      ensures strategy != "Bollinger Bands" && strategy != "SMA Crossover" ==> columns == old(columns)
    {
      if strategy == "Bollinger Bands" {
        CalculateBollingerBands(root);
        var lower, upper := columns[LowerName].values, columns[UpperName].values;
        var signal := WriteSignal(BelowMask(close, lower), AboveMask(close, upper));
        columns := columns[SignalName := Ints(signal)];
      } else if strategy == "SMA Crossover" {
        CalculateSma();
        var short, long := columns[ShortName].values, columns[LongName].values;
        var signal := WriteSignal(LessMask(long, short), LessMask(short, long));
        columns := columns[SignalName := Ints(signal)];
      }
    }

    /**
     * `calculate_investment_growth(data, amount, style)`: returns the final
     * value and ROI over the whole series and writes the `{style} Growth`
     * column, leaving every other column as it was. The source divides by
     * the first close and the amount, and indexes the first and last row.
     */
    method CalculateInvestmentGrowth(amount: real, style: string) returns (growth: real, roi: real)
      requires Valid() && |close| >= 1 && close[0] != 0.0 && amount != 0.0
      modifies this
      ensures Valid()
      ensures (growth, roi) == InvestmentGrowth(close, amount, style)
      ensures columns == old(columns)[GrowthName(style) :=
                           Reals(Defined(GrowthColumn(close, amount, StyleMultiplier(style))))]
    {
      var startPrice := close[0];
      var endPrice := close[|close| - 1];
      var multiplier := StyleMultiplier(style);
      growth := (endPrice / startPrice) * amount * multiplier;
      roi := ((growth - amount) / amount) * 100.0;
      assert growth == FinalGrowth(close, amount, multiplier);
      assert roi == Roi(growth, amount);
      columns := columns[GrowthName(style) := Reals(Defined(GrowthColumn(close, amount, multiplier)))];
    }
  }
}
