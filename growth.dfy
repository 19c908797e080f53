/**
 * The investment-growth simulator of `calculate_investment_growth`: a style
 * multiplier looked up by name, the final value and ROI of the whole
 * series, and the per-bar growth column.
 */
module Growth {

  /** The fixed table of style multipliers. */
  const StyleMultipliers: map<string, real> := map["Aggressive" := 1.5, "Moderate" := 1.0, "Passive" := 0.75]

  /** The multiplier of a style: its entry in the table when it has one, otherwise 1.0. */
  function StyleMultiplier(style: string): (m: real)
    ensures style == "Aggressive" ==> m == 1.5
    ensures style == "Moderate" ==> m == 1.0
    ensures style == "Passive" ==> m == 0.75
    ensures style != "Aggressive" && style != "Moderate" && style != "Passive" ==> m == 1.0
  {
    if style in StyleMultipliers then StyleMultipliers[style] else 1.0
  }

  /**
   * The final value of the investment: the amount, scaled by the multiplier
   * and by the ratio of the last close to the first close of the whole series.
   */
  function FinalGrowth(close: seq<real>, amount: real, multiplier: real): (g: real)
    requires |close| >= 1 && close[0] != 0.0
    ensures g * close[0] == close[|close| - 1] * amount * multiplier
  {
    ScaledRatio(close[|close| - 1], close[0], amount * multiplier);
    (close[|close| - 1] / close[0]) * amount * multiplier
  }

  /** Return on investment in percent: the gain relative to the amount, times 100. */
  function Roi(growth: real, amount: real): (r: real)
    requires amount != 0.0
    ensures r == (growth / amount - 1.0) * 100.0
  {
    assert amount / amount == 1.0;
    assert (growth - amount) / amount == growth / amount - amount / amount;
    ((growth - amount) / amount) * 100.0
  }

  /**
   * The value of the investment at every bar, proportional to that bar's
   * close relative to the first close. It starts at amount * multiplier and
   * ends at the final growth.
   */
  function GrowthColumn(close: seq<real>, amount: real, multiplier: real): (g: seq<real>)
    requires |close| >= 1 && close[0] != 0.0
    ensures |g| == |close|
    ensures forall i :: 0 <= i < |g| ==> g[i] * close[0] == close[i] * amount * multiplier
    ensures g[0] == amount * multiplier
    ensures g[|g| - 1] == FinalGrowth(close, amount, multiplier)
  {
    var start := close[0];
    var g := seq(|close|, i requires 0 <= i < |close| => (close[i] / start) * amount * multiplier);
    forall i | 0 <= i < |g|
      ensures g[i] * start == close[i] * amount * multiplier
    {
      ScaledRatio(close[i], start, amount * multiplier);
    }
    ScaledRatio(start, start, amount * multiplier);
    g
  }

  lemma ScaledRatio(x: real, start: real, c: real)
    requires start != 0.0
    ensures (x / start) * c * start == x * c
    ensures x == start ==> (x / start) * c == c
  {
    assert (x / start) * start == x;
  }

  /** The (final value, ROI) pair returned for a style. */
  function InvestmentGrowth(close: seq<real>, amount: real, style: string): (r: (real, real))
    requires |close| >= 1 && close[0] != 0.0 && amount != 0.0
    ensures r.0 * close[0] == close[|close| - 1] * amount * StyleMultiplier(style)
    ensures r.0 == GrowthColumn(close, amount, StyleMultiplier(style))[|close| - 1]
    ensures r.1 == (r.0 / amount - 1.0) * 100.0
  {
    var growth := FinalGrowth(close, amount, StyleMultiplier(style));
    (growth, Roi(growth, amount))
  }

  // ---------------------------------------------------------------------
  // Properties
  // ---------------------------------------------------------------------

  /** Closes [100, 110, 121], 10000 invested, Moderate: 12100 and 21 %. */
  lemma ModerateExample()
    ensures InvestmentGrowth([100.0, 110.0, 121.0], 10000.0, "Moderate") == (12100.0, 21.0)
  {
    assert StyleMultiplier("Moderate") == 1.0;
  }

  /**
   * `x * c` grows with `c` when `x` is positive: the helper behind the
   * ordering of the styles.
   */
  lemma ScaleMonotone(x: real, c: real, d: real)
    requires x > 0.0 && c <= d
    ensures x * c <= x * d
  {
    assert x * d - x * c == x * (d - c);
  }

  /**
   * For positive closes and a positive amount the final values are ordered
   * Aggressive >= Moderate >= Passive, and so are the ROIs, whether the
   * series rose or fell.
   */
  lemma StyleOrdering(close: seq<real>, amount: real)
    requires |close| >= 1 && close[0] > 0.0 && close[|close| - 1] > 0.0 && amount > 0.0
    ensures var a := InvestmentGrowth(close, amount, "Aggressive");
      var m := InvestmentGrowth(close, amount, "Moderate");
      var p := InvestmentGrowth(close, amount, "Passive");
      a.0 >= m.0 >= p.0 && a.1 >= m.1 >= p.1
  {
    var x := (close[|close| - 1] / close[0]) * amount;
    assert x > 0.0 by {
      var r := close[|close| - 1] / close[0];
      assert r > 0.0;
      assert r * amount > 0.0 * amount;
    }
    ScaleMonotone(x, 0.75, 1.0);
    ScaleMonotone(x, 1.0, 1.5);
    var a := InvestmentGrowth(close, amount, "Aggressive");
    var m := InvestmentGrowth(close, amount, "Moderate");
    var p := InvestmentGrowth(close, amount, "Passive");
    assert a.0 >= m.0 >= p.0;
    RoiMonotone(m.0, a.0, amount);
    RoiMonotone(p.0, m.0, amount);
  }

  lemma RoiMonotone(g: real, h: real, amount: real)
    requires amount > 0.0 && g <= h
    ensures Roi(g, amount) <= Roi(h, amount)
  {
    assert (h - amount) / amount - (g - amount) / amount == (h - g) / amount;
  }

  /**
   * A falling series does not reverse the order of the styles: closes
   * [100, 50] with 10000 invested give 7500, 5000 and 3750.
   */
  lemma FallingSeriesKeepsStyleOrder()
    ensures InvestmentGrowth([100.0, 50.0], 10000.0, "Aggressive").0 == 7500.0
    ensures InvestmentGrowth([100.0, 50.0], 10000.0, "Moderate").0 == 5000.0
    ensures InvestmentGrowth([100.0, 50.0], 10000.0, "Passive").0 == 3750.0
  {
    assert StyleMultiplier("Aggressive") == 1.5;
    assert StyleMultiplier("Moderate") == 1.0;
    assert StyleMultiplier("Passive") == 0.75;
  }

  /** `close` is non-decreasing from bar to bar. */
  ghost predicate StepwiseNonDecreasing(s: seq<real>)
  {
    forall i :: 0 < i < |s| ==> s[i - 1] <= s[i]
  }

  /**
   * Closes that never fall from one bar to the next give a growth column
   * that never falls between any two bars, for a positive start, amount
   * and multiplier.
   */
  lemma {:induction false} GrowthMonotone(close: seq<real>, amount: real, multiplier: real, i: nat, j: nat)
    requires |close| >= 1 && close[0] > 0.0 && amount > 0.0 && multiplier > 0.0
    requires StepwiseNonDecreasing(close)
    requires i <= j < |close|
    ensures GrowthColumn(close, amount, multiplier)[i] <= GrowthColumn(close, amount, multiplier)[j]
    decreases j - i
  {
    if i < j {
      GrowthMonotone(close, amount, multiplier, i, j - 1);
      GrowthStep(close, amount, multiplier, j);
    }
  }

  /** One bar of the growth column never falls below the previous one. */
  lemma GrowthStep(close: seq<real>, amount: real, multiplier: real, j: nat)
    requires |close| >= 1 && close[0] > 0.0 && amount > 0.0 && multiplier > 0.0
    requires 0 < j < |close| && close[j - 1] <= close[j]
    ensures GrowthColumn(close, amount, multiplier)[j - 1] <= GrowthColumn(close, amount, multiplier)[j]
  {
    var g := GrowthColumn(close, amount, multiplier);
    var c := amount * multiplier;
    assert c > 0.0 by { ScaleMonotone(amount, 0.0, multiplier); }
    ScaleMonotone(c, close[j - 1], close[j]);
    assert g[j - 1] * close[0] == close[j - 1] * c;
    assert g[j] * close[0] == close[j] * c;
    CancelPositive(g[j - 1], g[j], close[0]);
  }

  lemma CancelPositive(x: real, y: real, s: real)
    requires s > 0.0 && x * s <= y * s
    ensures x <= y
  {
  }
}
