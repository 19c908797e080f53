# Stock strategy analyzer: verified model of the indicator, signal and growth engine

This project models the computational core of a small stock-strategy analyzer (`app.py`).
The core does three things:

- It computes trailing-window indicators over the Close column of a price table. These are the 20-bar
  Bollinger bands (SMA, sample STD, `SMA ± 2·STD`) and the 50/200-bar simple moving averages.
- It turns those indicators into a per-bar `Signal` of 1 (Buy), 0 (Hold) or -1 (Sell).
- It simulates the growth of an investment under three styles (Aggressive 1.5, Moderate 1.0,
  Passive 0.75; any other name 1.0). The final value and ROI come from the first and last close of
  the whole series, and a per-bar growth column is written.

Modules:

- `Wrappers` (`wrappers.dfy`): `Option`, where `None` stands for a pandas NaN cell.
- `Rolling` (`rolling.dfy`): the pure whole-column expressions. This covers the sum, mean and
  sample variance (N − 1 denominator), the rolling mean and std columns (undefined on the first
  `window − 1` bars), NaN-propagating column arithmetic and the Bollinger bands. The square root is
  a parameter `root: real -> real`. Lemmas that need it assume `IsSquareRoot(root)`.
- `Strategy` (`strategy.dfy`): the comparison masks (a NaN comparison is false) and the three
  writes that build `Signal`. `WriteSignal` is an imperative method over an array: it writes 0
  everywhere, then 1 on the buy rows, then -1 on the sell rows. The module also holds the Bollinger
  and crossover signal columns and their meaning.
- `Growth` (`growth.dfy`): the style-multiplier table, the final value, ROI and the growth column,
  with the ROI, ordering and monotonicity properties.
- `Frame` (`frame.dfy`): the data frame that the source annotates in place. It is the class
  `DataFrame`, with an immutable Close column and a map from column name to cells. Its methods
  `CalculateBollingerBands`, `CalculateSma`, `ApplyStrategy` and `CalculateInvestmentGrowth` state
  the new column map exactly: which columns they write, with what, and that every other column is
  kept.

Values are exact reals; the model has no floating-point rounding.

Where the design description and the code differ, the model follows the code:

- The description asks for an InvalidInputError on a degenerate series (fewer than two bars, or
  a non-positive first close). The code raises no such error: one bar gives
  `growth = amount · multiplier`, and a zero first close divides by zero. An empty series makes
  the first-row lookup raise IndexError; the precondition `|close| >= 1` excludes that case. The
  model therefore requires `|close| >= 1`, `close[0] != 0` and `amount != 0`, the conditions under
  which the code's indexing and divisions are defined.
- The description says the style ordering reverses when the last close is below the first. The
  code's final value is `(end/start) · amount · multiplier`, and `end/start` is positive for
  positive prices. So Aggressive ≥ Moderate ≥ Passive holds on falling series too.
  `StyleOrdering` proves this, and `FallingSeriesKeepsStyleOrder` gives the instance
  [100, 50] → 7500, 5000, 3750.
- The description asks for pure functions returning new structures. The code assigns columns onto
  the table it was given, so the model is a class whose methods reassign its column map. The pure
  functions they use are the specification.

## Model

| member | source | states |
|---|---|---|
| `Rolling.SquaredDeviations` | app.py:13 | the sum of squared deviations behind the sample variance is never negative |
| `Rolling.SampleVariance` | app.py:13 | the sample variance (N − 1 denominator) of a window of at least two closes is never negative |
| `Rolling.Mean` | app.py:12 | the mean of a window, multiplied by the window's length, is the window's sum |
| `Rolling.Window` | app.py:12-13 | the trailing window at bar i holds exactly the `w` closes ending at bar i, inclusive |
| `Rolling.RollingMean` | app.py:12 | the rolling mean has one entry per bar; it is undefined exactly on the first `w − 1` bars and elsewhere equals the mean of the trailing window |
| `Rolling.RollingStd` | app.py:13 | the rolling std is defined exactly from bar `w − 1` on when `w >= 2`, since a one-bar window has no sample variance; there it equals the root of the window's sample variance |
| `Rolling.ColumnAdd` | app.py:14 | column addition is NaN wherever either operand is NaN and is the sum elsewhere |
| `Rolling.ColumnSub` | app.py:15 | column subtraction is NaN wherever either operand is NaN and is the difference elsewhere |
| `Rolling.ColumnScale` | app.py:14-15 | scaling a column keeps NaN cells NaN and multiplies the others |
| `Rolling.BollingerBands` | app.py:11-16 | SMA is defined from bar `window − 1` on; STD, Upper and Lower are defined from there only when window ≥ 2; where defined, the bands lie `no_of_std · STD` above and below SMA |
| `Rolling.MeanBounds` | app.py:12 | a window mean lies between any lower and upper bound of the window's closes |
| `Rolling.ConstantSample` | app.py:12-13 | a constant window has that constant as its mean and a sample variance of 0 |
| `Rolling.RollingMeanSlides` | app.py:12 | moving the window one bar adds `(new close − dropped close)/w` to the rolling mean |
| `Rolling.ShortSeriesHasNoBands` | app.py:12-15 | on a series shorter than the window, SMA, STD, Upper and Lower are undefined at every bar |
| `Rolling.BandsOrdered` | app.py:14-15 | for `no_of_std >= 0` both bands are defined exactly from bar `window − 1` on (window ≥ 2); there STD ≥ 0 and Lower ≤ SMA ≤ Upper, all equal when STD = 0 |
| `Rolling.ConstantWindowCollapsesBands` | app.py:13-15 | a constant trailing window gives STD 0 and SMA = Upper = Lower = the constant |
| `Rolling.TwentyFiveConstantCloses` | app.py:11-16 | 25 closes of 50 give STD 0 and SMA, Upper and Lower all 50 at bar 24 |
| `Strategy.Below` | app.py:27 | a close compares below a NaN band entry as false, and below a defined entry exactly when it is smaller |
| `Strategy.Above` | app.py:28 | a close compares above a NaN band entry as false, and above a defined entry exactly when it is larger |
| `Strategy.Less` | app.py:32-33 | a comparison of two averages is false when either is NaN, and otherwise is the strict order of their values |
| `Strategy.SignalColumn` | app.py:26-28 | after the three writes, a row holds -1 if its sell mask holds, otherwise 1 if its buy mask holds, otherwise 0 |
| `Strategy.WriteSignal` | app.py:26-28 | writing 0, then 1 on the buy rows, then -1 on the sell rows gives -1 exactly on sell rows, 1 exactly on buy rows outside the sell mask, and 0 exactly where neither mask holds |
| `Strategy.DisjointMasksCommute` | app.py:27-28 | when no row is in both masks, writing the buy rows last gives the same column |
| `Strategy.BelowMask` | app.py:27 | the buy mask holds exactly where Lower is defined and Close < Lower |
| `Strategy.AboveMask` | app.py:28 | the sell mask holds exactly where Upper is defined and Close > Upper |
| `Strategy.BollingerSignals` | app.py:26-28 | for any bands, a bar gets -1 iff Close > Upper, 1 iff Close < Lower and not Close > Upper, and 0 iff neither comparison holds; an undefined band compares false |
| `Strategy.BollingerSignalMeaning` | app.py:26-28 | with the computed bands the two masks never overlap; the signal is 1 iff Close < Lower, -1 iff Close > Upper, and 0 otherwise, including bands equal to the close and undefined bands |
| `Strategy.BollingerOrderIrrelevant` | app.py:27-28 | with the computed bands, doing the sell writes before the buy writes gives the same column |
| `Strategy.ShortSeriesHolds` | app.py:24-28 | a series shorter than the window gets signal 0 on every bar |
| `Strategy.TwentyFiveConstantClosesHold` | app.py:24-28 | 25 closes of 50 give signal 0 at bar 24 |
| `Strategy.LessMask` | app.py:32-33 | the comparison mask holds exactly where both averages are defined and the first is smaller |
| `Strategy.CrossoverSignals` | app.py:31-33 | the crossover signal is 1 iff both averages are defined and short > long, -1 iff both are defined and short < long, and 0 iff they are equal or either is undefined |
| `Strategy.CrossoverHoldsOverRun` | app.py:31-33 | each bar of a stretch with short > long gets 1, so the signal is a level, not an edge |
| `Strategy.ShortSeriesNoCrossover` | app.py:29-33 | with fewer than 200 closes the long average is never defined, so every bar gets 0 |
| `Growth.StyleMultiplier` | app.py:39-40 | Aggressive gives 1.5, Moderate 1.0 and Passive 0.75; every other name falls back to 1.0 |
| `Growth.FinalGrowth` | app.py:41 | the final value times the first close equals the last close times amount times multiplier, both closes from the whole series |
| `Growth.Roi` | app.py:42 | the ROI equals `(growth/amount − 1) · 100` exactly |
| `Growth.InvestmentGrowth` | app.py:37-42 | the final value satisfies `growth · close[0] = close[last] · amount · multiplier` over the whole series and equals the last entry of the growth column; the ROI is `(growth/amount − 1) · 100` |
| `Growth.GrowthColumn` | app.py:43 | the growth column has one entry per bar, proportional to the close (`g[i]·close[0] = close[i]·amount·mult`); it starts at `amount · mult` and ends at the returned final value |
| `Growth.ModerateExample` | app.py:37-42 | closes [100, 110, 121], amount 10000, Moderate give 12100 and ROI 21 |
| `Growth.StyleOrdering` | app.py:39-42 | for positive closes and amount the final values and ROIs are ordered Aggressive ≥ Moderate ≥ Passive, on rising and falling series alike |
| `Growth.FallingSeriesKeepsStyleOrder` | app.py:39-41 | closes [100, 50] with 10000 invested give 7500, 5000 and 3750 |
| `Growth.GrowthMonotone` | app.py:43 | closes that never fall from bar to bar give a growth column that is non-decreasing between any two bars, for a positive start, amount and multiplier |
| `Frame.GrowthName` | app.py:43 | the growth column's name is the style followed by " Growth", which never collides with Close |
| `Frame.DataFrame.CalculateBollingerBands` | app.py:11-16 | writes SMA, STD, Upper Band and Lower Band from the band functions and keeps every other column and Close |
| `Frame.DataFrame.CalculateSma` | app.py:18-21 | writes SMA_Short and SMA_Long as the rolling means and keeps every other column and Close |
| `Frame.DataFrame.ApplyStrategy` | app.py:23-34 | "Bollinger Bands" adds the default bands and their signal column, "SMA Crossover" adds the 50/200 averages and their signal column, and any other name leaves the columns unchanged |
| `Frame.DataFrame.CalculateInvestmentGrowth` | app.py:36-44 | returns the whole-series final value and ROI for the style and writes `{style} Growth` as the growth column, keeping every other column and Close |

## Left out

- `fetch_stock_data`: a network call to a quote provider through a foreign library. The price series is the `close` argument instead.
- `plot_investment_comparison` and `visualize_interactive`: chart construction and the date-range slicing for display. They are presentation only and do not feed back into the computed columns.
- `main`: the UI widgets, CSV upload and parsing, timezone stripping and the start/end date check. These are I/O. The `amount >= 1000` bound of its input widget is relaxed to `amount != 0`, which is all the arithmetic needs. Its pre-setting of `{style} Growth` to None is not modelled, because `CalculateInvestmentGrowth` overwrites that column anyway.
- The square root inside `rolling().std()`: there is no real square root to hand, so it is the parameter `root`. Properties that depend on it assume `IsSquareRoot(root)`.
- Floating-point behaviour: values are exact reals and NaN is `None`. The model leaves out rounding, pandas' numerically stable rolling-variance algorithm, and infinities from a zero first close.
- Columns other than Close and the derived ones (Open, High, Low, Volume): they appear in the model only as untouched entries of the column map. The date index is not modelled.
- pandas' argument validation for rolling windows: every caller in the code passes 20, 50 or 200, so `window >= 1` is a precondition and the ValueError path is left out.
