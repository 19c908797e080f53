/**
 * Trailing-window statistics over a column of closing prices, as computed
 * by `rolling(window).mean()` and `rolling(window).std()` with the default
 * `min_periods = window`, and the Bollinger bands built from them.
 *
 * Columns are `seq<Option<real>>`: `None` is a NaN entry. Values are exact
 * reals; floating-point rounding is not modelled.
 */
module Rolling {
  import opened Wrappers

  /** A column of optional values, one per bar. */
  type Column = seq<Option<real>>

  // ---------------------------------------------------------------------
  // Statistics of a finite sample
  // ---------------------------------------------------------------------

  function Sum(s: seq<real>): real
  {
    if |s| == 0 then 0.0 else s[0] + Sum(s[1..])
  }

  /** Arithmetic mean of a non-empty sample: the value whose |s|-fold is the sum. */
  function Mean(s: seq<real>): (m: real)
    requires |s| > 0
    ensures m * (|s| as real) == Sum(s)
  {
    Sum(s) / (|s| as real)
  }

  /** Sum of the squared deviations of the sample from `m`; never negative. */
  function SquaredDeviations(s: seq<real>, m: real): (d: real)
    ensures d >= 0.0
  {
    if |s| == 0 then 0.0
    else
      var x := s[0] - m;
      assert x * x >= 0.0;
      x * x + SquaredDeviations(s[1..], m)
  }

  /**
   * Sample variance (denominator N - 1, the pandas default ddof = 1). It is
   * defined only for two or more observations; never negative.
   */
  function SampleVariance(s: seq<real>): (v: real)
    requires |s| >= 2
    ensures v >= 0.0
  {
    SquaredDeviations(s, Mean(s)) / ((|s| - 1) as real)
  }

  /**
   * `root` is a square root on the non-negative reals. That the root of 0 is
   * 0 follows from the first clause; it is stated as well because the
   * solver's non-linear real arithmetic does not derive it.
   */
  ghost predicate IsSquareRoot(root: real -> real)
  {
    && (forall x :: 0.0 <= x ==> 0.0 <= root(x) && root(x) * root(x) == x)
    && root(0.0) == 0.0
  }

  // ---------------------------------------------------------------------
  // Rolling columns
  // ---------------------------------------------------------------------

  /** The trailing window of `w` closes that ends at bar `i`, inclusive. */
  function Window(close: seq<real>, w: nat, i: nat): (s: seq<real>)
    requires 1 <= w <= i + 1 <= |close|
    ensures |s| == w
    ensures forall k :: 0 <= k < w ==> s[k] == close[i + 1 - w + k]
  {
    close[i + 1 - w .. i + 1]
  }

  /**
   * `close.rolling(window=w).mean()`: undefined on the first `w - 1` bars,
   * then the mean of the trailing window.
   */
  function RollingMean(close: seq<real>, w: nat): (r: Column)
    requires w >= 1
    ensures |r| == |close|
    ensures forall i :: 0 <= i < |close| ==> (r[i].Some? <==> w <= i + 1)
    ensures forall i :: 0 <= i < |close| && w <= i + 1 ==> r[i].value == Mean(Window(close, w, i))
  {
    seq(|close|, i requires 0 <= i < |close| =>
      if i + 1 < w then None else Some(Mean(Window(close, w, i))))
  }

  /**
   * `close.rolling(window=w).std()`: square root of the sample variance of the
   * trailing window. With ddof = 1 a one-bar window has no variance, so a
   * window of 1 gives an entirely undefined column. The square root is the
   * parameter `root`.
   */
  function RollingStd(close: seq<real>, w: nat, root: real -> real): (r: Column)
    requires w >= 1
    ensures |r| == |close|
    ensures forall i :: 0 <= i < |close| ==> (r[i].Some? <==> 2 <= w <= i + 1)
    ensures forall i :: 0 <= i < |close| && 2 <= w <= i + 1 ==>
              r[i].value == root(SampleVariance(Window(close, w, i)))
  {
    seq(|close|, i requires 0 <= i < |close| =>
      if w < 2 || i + 1 < w then None else Some(root(SampleVariance(Window(close, w, i)))))
  }

  // ---------------------------------------------------------------------
  // Column arithmetic with NaN propagation
  // ---------------------------------------------------------------------

  /** `a + b` on two columns: NaN wherever either side is NaN. */
  function ColumnAdd(a: Column, b: Column): (r: Column)
    requires |a| == |b|
    ensures |r| == |a|
    ensures forall i :: 0 <= i < |a| ==> (r[i].Some? <==> a[i].Some? && b[i].Some?)
    ensures forall i :: 0 <= i < |a| && r[i].Some? ==> r[i].value == a[i].value + b[i].value
  {
    seq(|a|, i requires 0 <= i < |a| =>
      if a[i].Some? && b[i].Some? then Some(a[i].value + b[i].value) else None)
  }

  /** `a - b` on two columns: NaN wherever either side is NaN. */
  function ColumnSub(a: Column, b: Column): (r: Column)
    requires |a| == |b|
    ensures |r| == |a|
    ensures forall i :: 0 <= i < |a| ==> (r[i].Some? <==> a[i].Some? && b[i].Some?)
    ensures forall i :: 0 <= i < |a| && r[i].Some? ==> r[i].value == a[i].value - b[i].value
  {
    seq(|a|, i requires 0 <= i < |a| =>
      if a[i].Some? && b[i].Some? then Some(a[i].value - b[i].value) else None)
  }

  /** `k * a` on a column: NaN stays NaN. */
  function ColumnScale(k: real, a: Column): (r: Column)
    ensures |r| == |a|
    ensures forall i :: 0 <= i < |a| ==> (r[i].Some? <==> a[i].Some?)
    ensures forall i :: 0 <= i < |a| && r[i].Some? ==> r[i].value == k * a[i].value
  {
    seq(|a|, i requires 0 <= i < |a| => if a[i].Some? then Some(k * a[i].value) else None)
  }

  // ---------------------------------------------------------------------
  // Bollinger bands
  // ---------------------------------------------------------------------

  /** The four columns written by `calculate_bollinger_bands`. */
  datatype Bands = Bands(sma: Column, std: Column, upper: Column, lower: Column)

  /** `calculate_bollinger_bands(data, window, no_of_std)` on the close column. */
  function BollingerBands(close: seq<real>, window: nat, noOfStd: real, root: real -> real): (b: Bands)
    requires window >= 1
    ensures |b.sma| == |b.std| == |b.upper| == |b.lower| == |close|
    ensures forall i :: 0 <= i < |close| ==>
              && (b.sma[i].Some? <==> window <= i + 1) && (b.std[i].Some? <==> 2 <= window <= i + 1)
              && (b.upper[i].Some? <==> 2 <= window <= i + 1) && (b.lower[i].Some? <==> 2 <= window <= i + 1)
    ensures forall i :: 0 <= i < |close| && 2 <= window <= i + 1 ==>
              && b.upper[i].value - b.sma[i].value == noOfStd * b.std[i].value
              && b.sma[i].value - b.lower[i].value == noOfStd * b.std[i].value
  {
    var sma := RollingMean(close, window);
    var std := RollingStd(close, window, root);
    Bands(sma, std, ColumnAdd(sma, ColumnScale(noOfStd, std)), ColumnSub(sma, ColumnScale(noOfStd, std)))
  }

  // ---------------------------------------------------------------------
  // Properties
  // ---------------------------------------------------------------------

  lemma {:induction false} SumAppend(s: seq<real>, x: real)
    ensures Sum(s + [x]) == Sum(s) + x
  {
    if |s| == 0 {
      assert s + [x] == [x];
      assert Sum([x][1..]) == 0.0 by { assert [x][1..] == []; }
    } else {
      assert (s + [x])[1..] == s[1..] + [x];
      SumAppend(s[1..], x);
    }
  }

  /** Every element in [lo, hi] puts the sum in [|s|·lo, |s|·hi]. */
  lemma {:induction false} SumBounds(s: seq<real>, lo: real, hi: real)
    requires forall k :: 0 <= k < |s| ==> lo <= s[k] <= hi
    ensures (|s| as real) * lo <= Sum(s) <= (|s| as real) * hi
  {
    if |s| > 0 {
      SumBounds(s[1..], lo, hi);
    }
  }

  /** A sample whose every element is `c` sums to |s|·c. */
  lemma {:induction false} SumConstant(s: seq<real>, c: real)
    requires forall k :: 0 <= k < |s| ==> s[k] == c
    ensures Sum(s) == (|s| as real) * c
  {
    if |s| > 0 {
      SumConstant(s[1..], c);
    }
  }

  /** A sample whose every element is `c` deviates from `c` by nothing. */
  lemma {:induction false} SquaredDeviationsConstant(s: seq<real>, c: real)
    requires forall k :: 0 <= k < |s| ==> s[k] == c
    ensures SquaredDeviations(s, c) == 0.0
  {
    if |s| > 0 {
      SquaredDeviationsConstant(s[1..], c);
    }
  }

  /** The mean lies between the smallest and the largest possible element. */
  lemma MeanBounds(s: seq<real>, lo: real, hi: real)
    requires |s| > 0
    requires forall k :: 0 <= k < |s| ==> lo <= s[k] <= hi
    ensures lo <= Mean(s) <= hi
  {
    SumBounds(s, lo, hi);
    var n := |s| as real;
    assert n * lo <= Sum(s) <= n * hi;
    assert lo == (n * lo) / n && hi == (n * hi) / n;
  }

  /** A constant sample has mean `c` and sample variance 0. */
  lemma ConstantSample(s: seq<real>, c: real)
    requires |s| > 0
    requires forall k :: 0 <= k < |s| ==> s[k] == c
    ensures Mean(s) == c
    ensures |s| >= 2 ==> SampleVariance(s) == 0.0
  {
    SumConstant(s, c);
    SquaredDeviationsConstant(s, c);
  }

  /**
   * Sliding the window one bar to the right adds the new close and drops the
   * oldest one: mean(i+1) = mean(i) + (close[i+1] - close[i+1-w]) / w.
   */
  lemma RollingMeanSlides(close: seq<real>, w: nat, i: nat)
    requires 1 <= w <= i + 1 && i + 1 < |close|
    ensures RollingMean(close, w)[i + 1].Some? && RollingMean(close, w)[i].Some?
    ensures RollingMean(close, w)[i + 1].value
         == RollingMean(close, w)[i].value + (close[i + 1] - close[i + 1 - w]) / (w as real)
  {
    var mid := close[i + 2 - w .. i + 1];
    assert Window(close, w, i) == [close[i + 1 - w]] + mid;
    assert Window(close, w, i + 1) == mid + [close[i + 1]];
    assert ([close[i + 1 - w]] + mid)[1..] == mid;
    SumAppend(mid, close[i + 1]);
    var n := w as real;
    var a, x, m := close[i + 1 - w], close[i + 1], Sum(mid);
    assert Sum(Window(close, w, i)) == a + m;
    assert Sum(Window(close, w, i + 1)) == m + x;
    DivideSum(a + m, x - a, n);
    assert (a + m) + (x - a) == m + x;
  }

  lemma DivideSum(p: real, q: real, n: real)
    requires n > 0.0
    ensures (p + q) / n == p / n + q / n
  {
  }

  /** A series shorter than the window has no defined band entry at any bar. */
  lemma ShortSeriesHasNoBands(close: seq<real>, window: nat, noOfStd: real, root: real -> real)
    requires 1 <= window && |close| < window
    ensures forall i :: 0 <= i < |close| ==>
      var b := BollingerBands(close, window, noOfStd, root);
      b.sma[i].None? && b.std[i].None? && b.upper[i].None? && b.lower[i].None?
  {
  }

  /**
   * With a genuine square root and a non-negative multiplier, the bands are
   * defined exactly from bar `window - 1` on (for a window of at least 2),
   * and there Lower <= SMA <= Upper, all three equal when STD is 0.
   */
  lemma BandsOrdered(close: seq<real>, window: nat, noOfStd: real, root: real -> real, i: nat)
    requires IsSquareRoot(root)
    requires window >= 1 && noOfStd >= 0.0 && i < |close|
    ensures var b := BollingerBands(close, window, noOfStd, root);
      && (b.upper[i].Some? <==> 2 <= window <= i + 1)
      && (b.lower[i].Some? <==> 2 <= window <= i + 1)
      && (b.upper[i].Some? ==> b.sma[i].Some? && b.std[i].Some? && b.std[i].value >= 0.0)
      && (b.upper[i].Some? ==> b.lower[i].value <= b.sma[i].value <= b.upper[i].value)
      && (b.upper[i].Some? && b.std[i].value == 0.0 ==>
            b.lower[i].value == b.sma[i].value == b.upper[i].value)
  {
    var b := BollingerBands(close, window, noOfStd, root);
    if 2 <= window <= i + 1 {
      var v := SampleVariance(Window(close, window, i));
      assert b.std[i].value == root(v);
      assert 0.0 <= root(v);
      assert noOfStd * b.std[i].value >= 0.0;
    }
  }

  /**
   * A constant trailing window has STD 0, so all three band columns equal
   * the constant at that bar.
   */
  lemma ConstantWindowCollapsesBands(close: seq<real>, window: nat, noOfStd: real, root: real -> real, i: nat, c: real)
    requires IsSquareRoot(root)
    requires 2 <= window <= i + 1 <= |close|
    requires forall k :: i + 1 - window <= k <= i ==> close[k] == c
    ensures var b := BollingerBands(close, window, noOfStd, root);
      b.std[i] == Some(0.0) && b.sma[i] == Some(c) && b.upper[i] == Some(c) && b.lower[i] == Some(c)
  {
    var s := Window(close, window, i);
    ConstantSample(s, c);
  }

  /** Twenty-five closes of 50 give SMA = Upper = Lower = 50 and STD = 0 at bar 24. */
  lemma TwentyFiveConstantCloses(root: real -> real)
    requires IsSquareRoot(root)
    ensures var b := BollingerBands(seq(25, _ => 50.0), 20, 2.0, root);
      b.std[24] == Some(0.0) && b.sma[24] == Some(50.0)
      && b.upper[24] == Some(50.0) && b.lower[24] == Some(50.0)
  {
    ConstantWindowCollapsesBands(seq(25, _ => 50.0), 20, 2.0, root, 24, 50.0);
  }
}
