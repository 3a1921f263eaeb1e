# Supplementary figures: navigation and synthetic data, modelled in Dafny

The supplementary-figures page of the urban electricity-demand study is one React
component. It shows 15 figures. A Previous button, a Next button and a row of page
buttons select one figure at a time. Each figure's chart is drawn from data that a
generator synthesises from `Math.random()`. This project models two things:

- **Navigation** (`navigation.dfy`, module `Navigation`). The `currentFigure` state is
  a class `Navigator` with one field. It starts at 1. Its three handlers are methods:
  Previous is `Math.max(1, n - 1)`, Next is `Math.min(15, n + 1)`, and a page button
  sets the figure to its number. Their effect is also given as pure functions. The
  invariant `1 <= currentFigure <= 15` holds in every state.
- **Data generators**. Every `Math.random()` call becomes the next element of a
  sequence of draws `rs: seq<Draw>`, where a `Draw` is a real in [0, 1) (`draws.dfy`).
  The draws are consumed in JavaScript evaluation order. `Math.exp` and `Math.sin`
  become function parameters, and the only assumption is that `exp` is positive.
  - `correlation.dfy` (module `Correlation`) models `generateCorrelationData`: nested
    loops that push 64 cells, plus the look-back `Array.find` for the mirrored cell.
  - `loop_generators.dfy` (module `LoopGenerators`) models `generateBuildingAreaData`
    and `generateLearningCurves`, which fill their array with `for` and `push`.
  - `array_from_generators.dfy` (module `ArrayFromGenerators`) models the `Array.from`
    generators as sequence comprehensions. These are figures S2, S5, S6, S8, S9, S10,
    S13 and S15.

Each generator requires enough draws for all its records, because `Math.random()`
never runs out. Generators that loop are methods, proved against a function that
gives each record from its draws. Comprehensions are functions whose contracts give
the shape and the ranges of every field.

Three facts about the code shape the model:

- There is no clamping jump. The page buttons are `Array.from({length: 15}, (_, i) => i + 1)`
  and call `setCurrentFigure(num)` directly. So `SelectPage` requires `num` to be one of
  those buttons and sets the figure to exactly `num`.
- Off-diagonal correlations lie in [-0.2, 0.6). The matrix is not symmetric when an
  upper cell stores exactly 0 (see Findings).
- The S1 loop builds 30 records, consuming 120 draws, and returns the first 12.

## Model

| member | source | states |
|---|---|---|
| Navigation.PreviousFigure | supplementary_figures.tsx:546 | Previous never goes below 1 and keeps a valid figure valid. At figure 1 it stays at 1; otherwise it moves back by exactly one. |
| Navigation.NextFigure | supplementary_figures.tsx:571 | Next never goes above 15 and keeps a valid figure valid. At figure 15 it stays at 15; otherwise it moves forward by exactly one. |
| Navigation.PageNumbers | supplementary_figures.tsx:555 | There are 15 page buttons, and button k is labelled k + 1. |
| Navigation.PageButtonsAreTheFigures | supplementary_figures.tsx:555-558 | A number is offered as a page button exactly when it is a figure number, and the buttons are strictly increasing. |
| Navigation.ExactlyOnePageHighlighted | supplementary_figures.tsx:559-563 | For a valid current figure, exactly one page button is highlighted: the one at index current - 1. |
| Navigation.DisabledExactlyWhenNoOp | supplementary_figures.tsx:545-572 | In every valid state the Previous button's `disabled` condition (`Navigator.PreviousDisabled`) holds exactly when its handler would leave the figure unchanged. The same holds for Next and `Navigator.NextDisabled`. |
| Navigation.NextTimesStopsAtLast | supplementary_figures.tsx:570-572 | Pressing Next k times from a valid figure n gives min(15, n + k), which is still valid. |
| Navigation.PreviousTimesStopsAtFirst | supplementary_figures.tsx:545-547 | Pressing Previous k times from a valid figure n gives max(1, n - k), which is still valid. |
| Navigation.EveryFigureReachableFromStart | supplementary_figures.tsx:6-7 | From the initial figure 1, every figure n is reached with n - 1 presses of Next. |
| Navigation.Navigator.constructor | supplementary_figures.tsx:6 | The state starts at figure 1 and satisfies the invariant. |
| Navigation.Navigator.Previous | supplementary_figures.tsx:546 | Keeps the invariant. Sets the figure to PreviousFigure of the old one: unchanged at 1, otherwise old - 1. |
| Navigation.Navigator.Next | supplementary_figures.tsx:571 | Keeps the invariant. Sets the figure to NextFigure of the old one: unchanged at 15, otherwise old + 1. |
| Navigation.Navigator.SelectPage | supplementary_figures.tsx:555-558 | For any offered page button `num`, keeps the invariant and sets the figure to exactly `num`. |
| Draws.ChoiceIndex | supplementary_figures.tsx:60 | `Math.floor(r * n)` is always a valid index into an n-element label array, and r lies in [k/n, (k+1)/n). |
| Correlation.DrawIndex | supplementary_figures.tsx:27-29 | Counts the draws consumed before cell (i, j). An off-diagonal cell's own draw is below 56, so 56 draws suffice. |
| Correlation.DrawIndexInjective | supplementary_figures.tsx:27-29 | Distinct off-diagonal cells consume distinct draws. |
| Correlation.PosInjective | supplementary_figures.tsx:27-33 | Each pair's cell is pushed at exactly one position. |
| Correlation.FreshCorr | supplementary_figures.tsx:29 | A fresh correlation lies in [-0.2, 0.6). It is 0 exactly when its draw is 0.25. |
| Correlation.OrElse | supplementary_figures.tsx:30 | `a \|\| b` on numbers gives `a` unless `a` is 0, and `b` when `a` is 0. |
| Correlation.CorrValue | supplementary_figures.tsx:29-30 | A stored value is 1 on the diagonal and lies in [-0.2, 0.6) off it. |
| Correlation.FirstMatch | supplementary_figures.tsx:30 | `find` returns nothing exactly when no cell matches. Otherwise it returns the cell at the first index whose cell matches: every earlier cell fails to match. |
| Correlation.Find | supplementary_figures.tsx:30 | The linear search returns the first cell with the wanted coordinates, as FirstMatch does. |
| Correlation.BuildCell | supplementary_figures.tsx:29-37 | One inner-loop step pushes the correct record for (i, j) and advances the draw cursor only for an off-diagonal cell. The look-back `find` always succeeds. |
| Correlation.CorrelationData | supplementary_figures.tsx:24-41 | Returns the feature list and 64 cells. The cell at index i*8+j has x = i, y = j, both feature labels and value CorrValue(i, j). |
| Correlation.LowerCellMirrorsUnlessZero | supplementary_figures.tsx:30 | For i > j, the value is the mirrored (j, i) value, unless that value is 0; then it is the cell's own fresh draw. |
| Correlation.SymmetricUnlessZeroUpperCell | supplementary_figures.tsx:29-30 | If no upper cell's draw is exactly 0.25, the matrix as written is symmetric. |
| Correlation.ZeroUpperCellBreaksSymmetry | supplementary_figures.tsx:30 | A concrete stream for which cell (0, 1) stores 0 and cell (1, 0) stores 0.2. |
| Correlation.IntendedCorrValue | supplementary_figures.tsx:30 | The intended value (always reuse the mirrored cell) is 1 on the diagonal and lies in [-0.2, 0.6) off it. |
| Correlation.IntendedIsSymmetric | supplementary_figures.tsx:30 | The intended matrix is symmetric for every stream of draws. |
| Correlation.AsWrittenMatchesIntended | supplementary_figures.tsx:30 | A lower cell differs from the intended value exactly when its mirrored cell's draw is 0.25 and its own draw is not. |
| LoopGenerators.CityCount | supplementary_figures.tsx:16-18 | A city count is a natural number, the floor of the scaled draw, and strictly below scale * exp(-i/8). |
| LoopGenerators.BinLow | supplementary_figures.tsx:15 | The bin start is a multiple of 50, and the area lies in [start, start + 50). A non-negative area gives a non-negative start. |
| LoopGenerators.AreaRecord | supplementary_figures.tsx:13-19 | Record i has a non-negative, 50-aligned bin holding its area. Its Dhaka, Kolkata and Karachi counts are below 500, 450 and 380 times exp(-i/8). |
| LoopGenerators.BuildingAreaData | supplementary_figures.tsx:10-22 | Runs all 30 iterations (120 draws) and returns exactly 12 records, record i being AreaRecord i. |
| LoopGenerators.LossRecord | supplementary_figures.tsx:46-50 | The epoch is i. trainLoss is 0.8 exp(-i/30) plus a value in [0.05, 0.07); valLoss is 0.9 exp(-i/35) plus a value in [0.08, 0.11). Both are above their floors 0.05 and 0.08. |
| LoopGenerators.LearningCurves | supplementary_figures.tsx:43-53 | Returns 200 points in epoch order, point i being LossRecord i. |
| ArrayFromGenerators.PickSplit | supplementary_figures.tsx:171 | The label is Train, Validation or Test exactly when the draw lies in the first, second or last third of [0, 1). |
| ArrayFromGenerators.PickBuildingType | supplementary_figures.tsx:60 | The building type is picked by which quarter of [0, 1) holds the draw, so the index is never out of range. |
| ArrayFromGenerators.SplitPoints | supplementary_figures.tsx:168-172 | Returns 100 points with x and y in [0, 100), and the set chosen from each point's third draw. |
| ArrayFromGenerators.AttentionWeights | supplementary_figures.tsx:55-62 | Returns 40 points. Building i is labelled i, with weight in [0.1, 0.9), distance in [0, 200), and type chosen by its third draw. |
| ArrayFromGenerators.TemporalAttention | supplementary_figures.tsx:64-71 | Returns 24 hourly points. Morning is in [0.5, 0.8) at hours 6..9 and in [0.1, 0.4) otherwise. Evening is in [0.6, 0.9) at hours 17..21 and in [0.1, 0.4) otherwise. Night is in [0.3, 0.5) at hours 22..5 and in [0.1, 0.3) otherwise. |
| ArrayFromGenerators.PeakHoursStandOut | supplementary_figures.tsx:67-69 | In each series, every hour inside the window has a larger weight than every hour outside it, for any draws. |
| ArrayFromGenerators.ResidualData | supplementary_figures.tsx:86-92 | Returns 200 points with predicted in [20, 120), residual in [-15, 15) and building area in [50, 550). |
| ArrayFromGenerators.CalibrationData | supplementary_figures.tsx:94-104 | Returns 10 points. predicted_i = (i + 0.5)/10, which lies in (0, 1) in steps of 0.1. ideal = predicted, and observed - predicted lies in [-0.05, 0.05). |
| ArrayFromGenerators.ErrorPoints | supplementary_figures.tsx:349-353 | Returns 150 points with coordinates in [0, 100) and error in [5, 30). |
| ArrayFromGenerators.Severity | supplementary_figures.tsx:363 | The colour class is Low exactly below 10, Moderate exactly in [10, 20), and High exactly from 20. |
| ArrayFromGenerators.SeverityBandsOfErrorPoints | supplementary_figures.tsx:349-363 | A Low point's error lies in [5, 10), and a High point's error in [20, 30). |
| ArrayFromGenerators.TimeSeriesComparison | supplementary_figures.tsx:129-140 | Returns 168 hourly points. The band [lower, upper] is 16 wide and centred on the curve. Observed (within 2.5 of the curve) and predicted (within 2) both lie strictly inside the band. |
| ArrayFromGenerators.TransferLearning | supplementary_figures.tsx:117-127 | Returns 20 points with samples = 50i in 0..950. Each series is its line C - k i plus noise in [0, 2). |
| ArrayFromGenerators.TransferCurvesFall | supplementary_figures.tsx:122-124 | India to Bangladesh falls over any 3 steps, and all three series fall over any 4 steps, whatever the noise. |
| ArrayFromGenerators.BangladeshToPakistanCanRiseOverThreeSteps | supplementary_figures.tsx:124 | A concrete stream for which Bangladesh to Pakistan rises over 3 steps, so the 4-step window is needed. |

## Left out

- Rendering is not modelled: JSX, the recharts components, the lucide icons, CSS classes, layout, and colour and opacity strings. These are presentation and foreign library calls. The one exception is the error bucketing of figure S10, kept as `Severity`.
- The Zoom and Download buttons are not modelled, because they have no behaviour.
- The figure registry is not modelled: the `figures` object with its titles, descriptions and render closures, and the `currentFig.render()` dispatch. It is static text and JSX. Which generator each figure id calls is therefore not modelled.
- The static literal tables of figures S7, S11, S12 and S14 are not modelled. They are constants with no behaviour beyond literal equality.
- IEEE-754 doubles are replaced by exact reals. `toFixed` formatting is left out, and so is the text of the figure S1 bin label. The label is kept as its lower end `binLow`, and the upper end is `binLow + 50`.
- `Math.random` is replaced by injected draws, with no random number generator modelled. Chaining one stream across successive generator calls, and re-randomising on every render, are not modelled.
- `Math.exp` and `Math.sin` have no bodies in the model: they are function parameters. `exp` is assumed positive, and nothing is assumed about `sin`.
- LossRecord: states the floor terms and the noise ranges, but not that the mean loss falls as the epoch grows. This is because `exp` is uninterpreted, so it is not known to be decreasing, and expectations over the draws are not modelled.

## Findings

| source | as written | input that shows it | evidently intended | confidence | as-written member | corrected member |
|---|---|---|---|---|---|---|
| supplementary_figures.tsx:30 | `data.find(...)?.value \|\| corr` treats a stored correlation of exactly 0 as "not found", so the lower cell keeps its own fresh draw. | The draw for cell (0, 1) is 0.25, so 0.25 * 0.8 - 0.2 = 0 is stored. The draw for cell (1, 0) is 0.5, so (1, 0) stores 0.2 where (0, 1) holds 0. | The mirrored value is always reused (`??`), which makes the matrix symmetric. | not executed; needs `Math.random()` to return exactly 0.25, for which the arithmetic gives exactly 0 in doubles too | Correlation.ZeroUpperCellBreaksSymmetry | Correlation.IntendedIsSymmetric |

`Correlation.CorrelationData` computes the matrix as written, because it models the
source. Nothing else in the model consumes the matrix. `IntendedCorrValue` is the
corrected definition, and `IntendedIsSymmetric` proves that it is symmetric.
`AsWrittenMatchesIntended` and `SymmetricUnlessZeroUpperCell` show exactly where the
two definitions differ.
