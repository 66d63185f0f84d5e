# Cryptocurrency dashboard: join, hover and controller logic

This project models the logic of a D3/jQuery dashboard that shows daily prices, market
capitalisations and trading volumes of several coins. It has a line chart, two donut charts
and a brushable timeline, all driven by a page controller. Three parts are modelled and
proved in Dafny:

- **The donut chart's keyed join** (`js/donutChart.js`, module `Donut`).
  - Pie arcs are bound to `<path>` elements by coin.
  - An entering path starts from a zero-width shape taken from a neighbouring old arc. The
    neighbour is found by `findPreceding` and `findFollowing`, two imperative scans that
    ignore their `data0`/`data1` arguments. If no neighbour exists, the path starts from its
    own arc (`|| d`).
  - An exiting path collapses onto the result of the same search, indexed by its old position.
  - `arcTween` stores its target in `_current` at once.
  - `DonutChart.UpdateVis` is proved to produce exactly the frame described by the pure
    function `PlannedFrame`: each new arc's start and end shape, and each old path's exit
    shape. It also throws exactly when `PlannedFrame` says it does.
- **The line chart's data logic** (`src/js/lineChart.js`, module `LineChart`).
  - The inclusive date window applied to every selected coin.
  - The x extents.
  - The hover choice: d3's left bisection from index 1, then the closer of two samples, with
    a sentinel `0` when a neighbour is missing.
  - The SI-suffix rewrite of the y ticks, the y-axis title, and the legend rows placed by an
    index join.
- **The page controller** (`src/js/main.js`, module `PageController`).
  - Cleaning the loaded data and the per-coin donut snapshots.
  - The chart-data record, and the refresh order: line, volume donut, market-cap donut, then
    the timeline, which always gets the default dates.
  - The six event handlers as transitions of the widget state (selects, slider, labels) held
    by a `Controller` object, plus a log of chart refreshes.

`JsValues` holds the JavaScript value shapes the models share: `undefined` as `None`, the
`TypeError` thrown by reading a property of `undefined`, and `indexOf`. `CoinData` holds the
typed records and the default date range. Dates are integer milliseconds. 12/5/2013 and
31/10/2017 are taken as UTC midnights.

The model follows the code, including where it behaves otherwise than the dashboard is
meant to:

- **Hover ties.** A tie between two samples is meant to go to the later one. The code
  (`src/js/lineChart.js:193`) picks the later sample `d1` only when it is strictly closer, so
  a tie goes to the earlier one. `NearestIsClosestEarliest` proves the earlier choice.
- **Interrupted tweens.** A tween that interrupts another is meant to start from the shape
  reached so far. `arcTween` stores `i(1)`, the target, in `_current` before any frame runs
  (`js/donutChart.js:157-159`), so the next tween starts from the previous target: an
  interrupted arc jumps. `ArcPath.ArcTween` and `RetweenStartsAtTarget` state this.
- **Exit collapse point.** An exiting sector is meant to collapse onto its neighbour's angle
  in the NEW layout. The exit call `findNeighborArc(i, vis.data1, vis.data0, key)` swaps the
  arguments, but the helpers read `vis.data0`/`vis.data1` and ignore them
  (`js/donutChart.js:85`, `:121-155`). The collapse point is therefore an angle of an OLD arc:
  in old `[A, B, C]` to new `[A, C]`, B collapses onto old A's end angle.
  `ExitCollapsesOntoOldArc` and `FrameExitsCollapse` state this. The same search throws when
  an exiting path's old index lies two or more above the end of the new layout
  (`ExitThrows`). The page never reaches that case: `donutData` holds one snapshot per loaded
  coin, so every layout after the first has the same length.
- **Coin selection.** A click on an arc is meant to toggle one coin without ever emptying the
  selection. The code replaces the whole selection with the clicked coin
  (`src/js/main.js:160`), and the coin select can hold any set of coins.
- **Which charts refresh.** Every change of selection is meant to refresh every chart. The
  coin and variable selects refresh only the line chart (`src/js/main.js:151-157`).
- **Donut values.** The donut is meant to show each coin's latest value within the chosen
  range. The snapshot is the coin's last record with a price over all dates, fixed once by
  `prepareData` (`src/js/main.js:79-82`), and the date window never reaches it.

## Model

| member | source | states |
|---|---|---|
| JsValues.IndexOf | js/donutChart.js:97 | `indexOf` gives the first index holding the value, or -1 exactly when the value is absent |
| Donut.Key | js/donutChart.js:117-119 | paths and arcs are joined by the coin of their data |
| Donut.IndexOfKey | js/donutChart.js:139-140 | the inner `for` loop's hit is an old arc carrying the key |
| Donut.IndexOfKeyFirst | js/donutChart.js:139-140 | no arc before the hit has the key (duplicates: the first wins); there is no hit exactly when no arc has the key |
| Donut.IndexOfKeyAt | js/donutChart.js:139-140 | the first arc with the key is the hit |
| Donut.IndexOfKeyAbsent | js/donutChart.js:139-140 | a key no arc has gives no hit |
| Donut.OldArcFor | js/donutChart.js:140 | the returned old arc belongs to `data0` and carries the new arc's key |
| Donut.PrecedingIndex | js/donutChart.js:135-143 | the downward scan stops at the largest `j < i` whose key occurs in the old data; no index between it and `i` has such a key |
| Donut.FollowingIndex | js/donutChart.js:145-155 | the upward scan stops at the smallest `j > i`, `j < n`, whose key occurs in the old data; no index before it has such a key |
| Donut.Preceding | js/donutChart.js:135-143 | `findPreceding` throws exactly when it starts above the end of `data1`, where its first step calls `key(undefined)` |
| Donut.Following | js/donutChart.js:145-155 | a hit of `findFollowing` is an old arc whose key some new arc above `i` carries |
| Donut.NeighborArc | js/donutChart.js:121-132 | `findNeighborArc` throws exactly when `i > |data1|`; any shape it returns has zero width |
| Donut.NeighborArcFromPreceding | js/donutChart.js:121-126 | with a preceding match, the neighbour is the zero-width shape at the end angle of the first old arc with that key |
| Donut.NeighborArcFromFollowing | js/donutChart.js:127-130 | with no preceding match and a following one, the neighbour is the zero-width shape at that old arc's start angle |
| Donut.NeighborArcNone | js/donutChart.js:121-132 | when no other new arc's key occurs in the old data, the result is `null` |
| Donut.NeighborArcIsCollapsedOldArc | js/donutChart.js:121-132 | the result always has zero width and sits at an angle of an old arc; it throws exactly when `i > |data1|` |
| Donut.FillOpacity | js/donutChart.js:96-98 | fill-opacity is 1 for a selected coin and 0.3 for any other coin |
| Donut.KeptExactly | js/donutChart.js:80 | an old path stays exactly when no earlier old path has its coin and some new arc has it |
| Donut.UpdatesExactly | js/donutChart.js:80 | a new arc is drawn by an old path exactly when no earlier new arc has its coin and some old path has it |
| Donut.MatchOf | js/donutChart.js:80 | a kept old path is bound to a new arc with its coin |
| Donut.JoinedFrom | js/donutChart.js:80 | an updating new arc is bound to an old path with its coin |
| Donut.UpdatedJoinsKept | js/donutChart.js:80 | a new arc that updates is bound to a kept old path, and that path is bound back to it |
| Donut.KeptJoinsUpdated | js/donutChart.js:80 | a kept old path is bound to an updating new arc, and that arc is bound back to it |
| Donut.EnterSeed | js/donutChart.js:103-105 | an entering path's `_current` is its own arc or a zero-width shape at an angle of an old arc, and its own arc when there is no old data |
| Donut.ExitTarget | js/donutChart.js:84-86 | the exit datum comes from the enter-side search at the old index; it throws exactly when that index is above `|data1|` |
| Donut.FirstRenderSeedsOwnArc | js/donutChart.js:103-105 | with no old data, an entering path's `_current` is its own arc |
| Donut.ExitCollapsesOntoOldArc | js/donutChart.js:84-86 | an exiting path collapses onto a zero-width shape at an old arc's angle, or else onto its own old arc |
| Donut.PlannedFrame | js/donutChart.js:82-115 | the frame throws exactly when some exiting path's old index is above `|data1|`; otherwise it has one exit entry per old path and one tween per new arc |
| Donut.FrameArcsStart | js/donutChart.js:92-115 | every planned tween ends at its new arc; an updating arc starts from the `_current` of an old path with its coin; an entering arc starts from its own shape or a zero-width shape at an old arc's angle, and from its own shape on the first render |
| Donut.FrameExitsCollapse | js/donutChart.js:82-90 | exactly the old paths the join does not keep get an exit tween, from their `_current` to their own old shape or a zero-width shape at an old arc's angle |
| Donut.FirstRenderIsStill | js/donutChart.js:76-115 | on the first render every arc enters and tweens from its own shape to itself |
| Donut.SameDataIsStill | js/donutChart.js:76-98 | re-joining settled paths to the same distinct-keyed data keeps every path, and every tween starts where it ends |
| Donut.ArcPath.constructor | js/donutChart.js:101-111 | an appended path holds its datum, its seeded `_current` and its fill-opacity |
| Donut.ArcPath.ArcTween | js/donutChart.js:157-159 | the tween runs from the old `_current` to the target, and `_current` is the target at once |
| Donut.ArcPath.Retween | js/donutChart.js:93-98 | the update pass tweens a kept path to its new arc and sets its fill-opacity |
| Donut.RetweenStartsAtTarget | js/donutChart.js:157-159 | the next tween starts at the previous target, not at a midway shape |
| Donut.DataOf | js/donutChart.js:76 | `vis.path.data()` lists the paths' bound data in document order |
| Donut.DonutChart.FindPreceding | js/donutChart.js:135-143 | the `while`/`for` scan returns what `Preceding` specifies over the stored `data0`/`data1`, whatever its arguments |
| Donut.DonutChart.FindFollowing | js/donutChart.js:145-155 | the scan returns what `Following` specifies over the stored `data0`/`data1`, whatever its arguments |
| Donut.DonutChart.FindNeighborArc | js/donutChart.js:121-132 | the result depends only on `i` and the stored data, so the exit call (line 85) and the enter call (line 104) run the same search |
| Donut.DonutChart.ReboundAt | js/donutChart.js:80 | after the join a path's datum keeps its coin: a kept path takes a new arc, any other path keeps its old datum |
| Donut.DonutChart.Rebind | js/donutChart.js:80 | each kept path is bound to the first new arc with its key; the other paths keep their data; `_current` and fill-opacity do not change |
| Donut.DonutChart.ExitTargets | js/donutChart.js:83-86 | the exit datum pass throws exactly when some exiting path's old index is above `|data1|`; otherwise it lists every exiting path's target and nothing for kept paths |
| Donut.DonutChart.TweenExits | js/donutChart.js:87-90 | every exiting path tweens from its `_current` to its target; kept paths are untouched |
| Donut.DonutChart.UpdateArc | js/donutChart.js:93-98 | one update step: the joined old path tweens to the new arc and shows it, and the paths stay distinct |
| Donut.DonutChart.EnterArc | js/donutChart.js:101-115 | a fresh path is seeded by `findNeighborArc(...) || d` and tweens in to its arc |
| Donut.DonutChart.EnterStep | js/donutChart.js:101-115 | one enter step: the planned tween, taken by a fresh path appended in data order |
| Donut.DonutChart.TweenArcs | js/donutChart.js:92-115 | the update and enter passes run exactly the planned tweens; every new arc ends up shown by its joined old path or by a fresh one, and all the paths are distinct |
| Donut.DonutChart.Join | js/donutChart.js:74-80 | `data0` is the paths' data, `data1` the layout, and the paths are rebound by key |
| Donut.DonutChart.Animate | js/donutChart.js:82-115 | with every exit target known, the passes produce `PlannedFrame`; afterwards only the new arcs' paths remain, each showing its arc |
| Donut.DonutChart.Transition | js/donutChart.js:82-115 | the result is `PlannedFrame`; a throwing exit leaves the path list, every `_current` and every fill-opacity as they were |
| Donut.DonutChart.UpdateVis | js/donutChart.js:71-115 | `updateVis` stores `data0`/`data1` and animates exactly `PlannedFrame` from the paths' `_current` shapes; on success each new arc is shown by its joined old path or a fresh one, with its fill-opacity; a throw leaves the paths, their `_current` and their fill-opacity unchanged |
| LineChart.Window | src/js/lineChart.js:81-83 | a record is kept exactly when it lies in the inclusive window |
| LineChart.WindowAppend | src/js/lineChart.js:81-83 | the filter keeps the original order |
| LineChart.WindowKeepsInside | src/js/lineChart.js:81-83 | a series that lies wholly in the window is kept whole |
| LineChart.WindowKeepsSorted | src/js/lineChart.js:81-83 | filtering a date-ordered series leaves it date-ordered |
| LineChart.FilterData | src/js/lineChart.js:79-84 | every selected coin gets its windowed series and no other coin gets an entry; a selected coin missing from the data throws |
| LineChart.MinDate | src/js/lineChart.js:92 | `d3.min` of the dates is `undefined` exactly for an empty series, and otherwise some record's date that no record precedes |
| LineChart.MaxDate | src/js/lineChart.js:93 | `d3.max` of the dates is `undefined` exactly for an empty series, and otherwise some record's date that no record follows |
| LineChart.Least | src/js/lineChart.js:97 | `d3.min` skips `undefined`: it is `undefined` exactly when all entries are, and otherwise the least present entry |
| LineChart.Greatest | src/js/lineChart.js:98 | `d3.max` skips `undefined`: it is `undefined` exactly when all entries are, and otherwise the greatest present entry |
| LineChart.LeastOverCoins | src/js/lineChart.js:92-97 | the minimum of the per-coin minima is the least date over all selected records |
| LineChart.GreatestOverCoins | src/js/lineChart.js:93-98 | the maximum of the per-coin maxima is the greatest date over all selected records |
| LineChart.DateExtents | src/js/lineChart.js:86-98 | `xMin`/`xMax` are an attained least and greatest date over all selected coins' filtered records; they are `undefined` exactly when every selected coin's series is empty |
| LineChart.Bisect | src/js/lineChart.js:38-40 | the left bisection returns an index in `[lo, max(lo, hi)]`; on date-ordered data, samples before it are dated before `x` and samples from it on are not |
| LineChart.BisectFrom1 | src/js/lineChart.js:190 | starting at `lo = 1`, `i` lies in `[1, max(1, n)]`, and on sorted data `data[1..i)` is before `x0` and `data[i..n)` is not |
| LineChart.Closer | src/js/lineChart.js:193 | the choice is `d0` or `d1`; when `x0` lies between their dates it is a closer one, and a tie goes to `d0` |
| LineChart.Nearest | src/js/lineChart.js:190-193 | a chosen sample belongs to the series; fewer than two samples give the sentinel |
| LineChart.NearestSentinel | src/js/lineChart.js:190-193 | on sorted data the sentinel comes exactly when there are fewer than two samples or `x0` is past the last date |
| LineChart.NearestIsClosestEarliest | src/js/lineChart.js:190-193 | on sorted data the chosen sample is a nearest one, and the earliest of the nearest ones, so a tie goes to `d0` |
| LineChart.YValue | src/js/lineChart.js:196-198 | `d[yVariable]` is defined exactly for the three record figures, and is then one of them |
| LineChart.Label | src/js/lineChart.js:190-198 | a label is printed exactly when the nearest choice is a sample and the variable is one of the three; it is then the figure of some sample of the series |
| LineChart.HoverAsWritten | src/js/lineChart.js:184-200 | the hover loop writes the coins' labels in order and throws at the first coin whose sample is the sentinel or lacks the variable; later labels stay unwritten |
| LineChart.SingleSampleHasNoLabel | src/js/lineChart.js:190-198 | a window with one sample has no `d1`, so its label throws |
| LineChart.HoverStopsAtShortSeries | src/js/lineChart.js:187-199 | concretely: one coin with a single windowed record throws, although the coin selected after it has a label to show |
| LineChart.Hover | src/js/lineChart.js:184-200 | corrected loop: every selected coin gets its label, or none when it has no sample |
| LineChart.HoverLabelsEveryCoin | src/js/lineChart.js:187-199 | with the corrected loop, a coin whose sorted series reaches the mouse gets a label whatever the other coins hold |
| LineChart.FormatAbbreviation | src/js/lineChart.js:107-116 | the length is kept, every character but the last is kept, and a last "G" becomes "B" and a last "k" becomes "K"; other strings, including the empty one, are unchanged |
| LineChart.FormatAbbreviationIdempotent | src/js/lineChart.js:107-116 | rewriting twice is the same as rewriting once, and no result ends in "G" or "k" |
| LineChart.YLabel | src/js/lineChart.js:203-205 | the titles for `price_usd`, `market_cap`, and every other variable |
| LineChart.YLabelTellsVariablesApart | src/js/lineChart.js:203-205 | the three offered variables get three different titles |
| LineChart.LegendJoin | src/js/lineChart.js:209-218 | the index join keeps one row per selected coin; kept rows keep their offset, and entering row `i` goes to `30 * i` |
| LineChart.LegendAfter | src/js/lineChart.js:209-218 | after successive selections the legend has one row per coin of the last selection, in its order |
| LineChart.LegendRowsStayPlaced | src/js/lineChart.js:209-228 | after any history of selections, row `i` sits at `30 * i`, so 12-pixel swatches in different rows never overlap |
| PageController.Coerce | src/js/main.js:73-78 | the coercion keeps the date and the three figures, the price unwrapped |
| PageController.Retained | src/js/main.js:70-78 | a record is kept, coerced, exactly when its `price_usd` is neither `null` nor `undefined`; nothing is dropped when every record has a price |
| PageController.RetainedAppend | src/js/main.js:70-72 | the cleaning keeps the original order |
| PageController.Last | src/js/main.js:81 | `slice(-1)[0]` is the last element, or `undefined` for an empty array |
| PageController.LastRetainedIsLastPriced | src/js/main.js:79-82 | a coin's snapshot is its last record with a price, or `undefined` exactly when no record has one |
| PageController.Snapshots | src/js/main.js:79-82 | one snapshot per loaded coin, in iteration order |
| PageController.Refresh | src/js/main.js:122-131 | `updateCharts` calls line, volume donut, market-cap donut and timeline, in that order, the timeline with the default dates; a selected coin missing from the data stops it after the line chart, and an `undefined` snapshot after the first donut |
| PageController.PieThrowsExactlyOnUnpricedCoin | src/js/main.js:79-82 | once the data is loaded, the donuts' pie accessor (js/donutChart.js:31-33) throws exactly when some loaded coin has no record with a price |
| PageController.TimelineIgnoresSlider | src/js/main.js:128-131 | whatever the slider holds, the same charts are reached, and the timeline, when reached, gets the same data |
| PageController.Controller.constructor | src/js/main.js:34-49 | a new controller has no data, and its slider and labels hold the default range |
| PageController.Controller.CreateChartData | src/js/main.js:134-142 | the chart data carries the selects' values, the slider's committed values rather than the labels', and the cleaned data and snapshots |
| PageController.Controller.PrepareData | src/js/main.js:62-84 | every loaded coin gets its cleaned records, the other entries stay, and one snapshot per coin is appended in order |
| PageController.Controller.AddCoin | src/js/main.js:70-82 | one pass of the loop: the coin's cleaned records are stored and its snapshot pushed |
| PageController.Controller.UpdateCharts | src/js/main.js:122-142 | the refreshes `Refresh` lists are logged from the current widget state, and the call throws exactly when one of them does; nothing else changes |
| PageController.Controller.OnDateSliderChangedAsWritten | src/js/main.js:144-149 | the labels show the new values, but the refresh gets the values the slider held before the event; the widget commits afterwards, and not at all when the refresh throws |
| PageController.Controller.OnDateSliderChanged | src/js/main.js:144-149 | corrected: the labels, the slider and the refreshed charts all get the new values |
| PageController.Controller.OnCoinSelectChanged | src/js/main.js:151-153 | only the line chart is refreshed, with the new coins |
| PageController.Controller.OnVariableSelectChanged | src/js/main.js:155-157 | only the line chart is refreshed, with the new variable |
| PageController.Controller.OnDonutArcClicked | src/js/main.js:159-162 | the selection becomes exactly the clicked coin, then all four charts are refreshed |
| PageController.Controller.OnBrushed | src/js/main.js:164-175 | the slider and the labels take the brushed range, or the full range when there is no selection; then all charts are refreshed |
| PageController.Controller.OnBrushEnd | src/js/main.js:177-189 | with a selection nothing changes and nothing is refreshed; a cleared brush resets the slider and the labels to the defaults and refreshes |
| PageController.SlideScenarioAsWritten | src/js/main.js:144-149 | with one loaded coin, moving the left handle one day in: the line chart still gets the default range, while the label and the slider show the new one |
| PageController.SlideScenario | src/js/main.js:144-149 | the same move with the corrected handler: chart, label and slider agree |
| PageController.BrushThenClear | src/js/main.js:164-189 | after any brushing, clearing the brush puts the slider at the default range and hands that range to every chart the refresh reaches |

## Left out

- The `d3.pie` layout (padding, values) and `d3.arc` path strings: arcs are inputs with given angles.
- `d3.interpolate` and transition timing: a tween is modelled by its two endpoint shapes. Only the last tween a path receives matters here.
- The removal of exiting paths after their transition: the model keeps only the new arcs' paths at the end of `UpdateVis`.
- DOM order: the model lists paths in new-data order, as d3's join orders the update and enter selections.
- Donut.DonutChart.UpdateVis: on the error path it states that the path list and every `_current` are unchanged and that the kept paths are rebound. The datum changes made by the exit pass before the throwing exit are not modelled.
- PageController.Controller.UpdateCharts: the donut's exit-pass throw (`ExitThrows`) does not stop the logged refresh. It needs a layout two or more arcs shorter than the previous one, which the page never produces, since its layout always has one arc per loaded coin.
- Donut.DonutChart.TweenExits: it does not record the new datum that `.datum` gives an exiting path. That path is removed once its tween ends.
- The y extents (`src/js/lineChart.js:94-100`): the same folds as the x extents, but over the chosen variable, followed by the floating-point `/1.005` and `*1.005` padding.
- Scales, axis calls, `x.invert`, `d3.format(".2s")` and `d3.format("$,")` with `toFixed(2)`: `FormatAbbreviation` takes the `".2s"` string as input, and a hover label is modelled by the figure it prints.
- LineChart.Bisect: `(lo + hi) >>> 1` is taken as `(lo + hi) / 2`, which differs only for lengths beyond 2^31.
- The line paths, focus circles, hover text and legend swatches and labels are drawing only. A legend row is modelled by its coin and offset.
- `d3.json` loading, the `+` coercions and `d3.timeParse`: records arrive typed, and a raw record carries an optional price. `hasOwnProperty` is left out because parsed JSON objects have only own keys.
- The JSON object's iteration order is an input: `prepareData` takes the coins as a sequence with distinct keys.
- jQuery UI's slider snaps and clamps values set through `slider('values', ...)` to its one-day step and its bounds. The model stores the values as given.
- Bootstrap-select raises its change event itself; the handlers take the select's new value as a parameter. Setting the value on an arc click raises no change event here.
- Mouse and brush event delivery, HTML initial widget values, and the browser time zone (dates are UTC midnights).
- `src/js/timeline.js` is not part of this model: it wraps `d3.timeDay.range`, `d3.extent`, `d3.area` and `d3.brushX`, and has no logic of its own.

## Findings

| source | as written | input that shows it | evidently intended | confidence | as-written member | corrected member |
|---|---|---|---|---|---|---|
| src/js/lineChart.js:193-198 | when a neighbour is missing, `d` is the sentinel `0`, and `d[yVariable].toFixed(2)` then throws. This aborts the `forEach`, so the rest of the selected coins keep stale labels | a selected coin with a single record in the window (or hovering past its last record), followed by another selected coin | skip a coin that has no sample and label the rest | not executed | LineChart.HoverAsWritten | LineChart.Hover |
| src/js/main.js:144-149 | the `slide` callback calls `updateCharts`, which reads `slider("values")`. jQuery UI commits the moved handle only after `slide` returns, so the charts show the previous position while the labels show the new one | moving the left handle one day in from the default range | refresh the charts with `ui.values` | not executed | PageController.Controller.OnDateSliderChangedAsWritten | PageController.Controller.OnDateSliderChanged |
