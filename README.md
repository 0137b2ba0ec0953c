# GraphView viewport, windowing and axis-label engine

A Dafny model of the non-drawing core of `GraphView`, the Android chart view.
It covers four parts:

- **The viewport.** This is the visible X window `[viewportStart, viewportStart + viewportSize]` and the initial X bounds. It also covers the operations that move the window: `setViewPort`, `onMoveGesture`, `scrollToEnd`, the pinch-scale clamp of `onScale`, the two-finger zoom of `ACTION_POINTER_UP` and the double-tap reset of the click listener.
- **Data windowing.** `_values` slices one series to the viewport. It makes a single forward scan that keeps the last point before the window, every point inside it and the first point after it.
- **Label arithmetic.**
  - `calculateNumLabels` picks how many labels split a span evenly.
  - `getMaxY` rounds the top of the Y axis to a "nice" value.
  - `generateVerlabels` and `generateHorlabels` spread the labels over an axis.
  - `formatHorLabels` snaps the viewport of a time axis to days, hours, quarter hours or five minutes, and moves the start forward until the snapped span has a label count.
- **Cache bookkeeping.** The generated label arrays and measured label sizes are dropped whenever the window or the series change, and kept when the labels are static.

Modules, in dependency order:

| module | file | contents |
|---|---|---|
| `JavaNumerics` | `java_numerics.dfy` | Java's truncating `/`, the `(long)` and saturating `(int)` casts, 32-bit wrap-around, the NaN of `0.0 / 0` |
| `UtcCalendar` | `utc_calendar.dfy` | the `Calendar` fields the branches read (hour of day, minute of hour, day of year) on UTC epoch milliseconds, with a proleptic Gregorian year table |
| `AxisLabels` | `axis_labels.dfy` | `calculateNumLabels`, the rounding of `getMaxY`, the degenerate-range fix |
| `Windowing` | `windowing.dfy` | the scan of `_values` and its characterisation on sorted data |
| `TimeBuckets` | `time_buckets.dfy` | the snapping, retry loops and label counts of `formatHorLabels` |
| `Graph` | `graph_view.dfy` | the `GraphView` class: its fields, mutators, caches, label generation and touch handling |

Where the Java code does its work step by step, the model is imperative: a class whose methods assign its fields, loops with invariants, and arrays filled by index. Each such method is tied by its postcondition to a function, and the lemmas are about that function. Java exceptions are the `Outcome` values a method returns. The state a method leaves behind when it throws is stated as well. For example, `onMoveGesture` assigns the viewport fields before `setViewPort` refuses a reversed window.

## Model

| member | source | states |
|---|---|---|
| `JavaNumerics.JavaDiv` | GraphView.java:1005-1006 | Java's `long` division truncates: it is the floor quotient for a dividend from 0 up, and below 0 the floor quotient plus one unless the divisor divides it |
| `JavaNumerics.NegativeQuotient` | GraphView.java:1005-1006 | negating, dividing and negating back gives the truncated quotient of a negative dividend |
| `JavaNumerics.JavaDivBounds` | GraphView.java:1005-1006 | Java's `long` quotient lies between the floor and the ceiling bounds of the real quotient, by the sign of the dividend |
| `JavaNumerics.JavaDivStep` | GraphView.java:1008-1012 | moving a dividend forward by at most one divisor moves the truncated quotient by zero or one, so one retry pass moves the start by at most one bucket |
| `JavaNumerics.Wrap32` | GraphView.java:851-853 | 32-bit `int` arithmetic: the result lies in the `int` range, is congruent to the exact value modulo 2^32, and equals it when it fits |
| `JavaNumerics.CountRoundTrip` | GraphView.java:851-853 | `count - 1` and then `+ 1`, both in `int`, give the count back, and `count - 1` does not wrap unless the count is `Integer.MIN_VALUE` |
| `JavaNumerics.WrapEdges` | GraphView.java:865-869 | one past `Integer.MAX_VALUE` wraps to `Integer.MIN_VALUE` and one below the minimum wraps to the maximum |
| `JavaNumerics.Truncate` | GraphView.java:942-944 | the `(long)` cast of a double is its floor from zero up and its ceiling below zero |
| `JavaNumerics.ToInt32` | GraphView.java:1167-1187 | the `(int)` cast stays in the `int` range, saturates at both ends, and truncates in between |
| `JavaNumerics.LongOf` | GraphView.java:821-829 | the `(long)` cast of a double is 0 for NaN, the largest integer not above a value from 0 up, and the smallest not below a negative one |
| `JavaNumerics.IntOf` | GraphView.java:832 | the `(int)` cast of a double stays in the `int` range and is 0 for NaN |
| `JavaNumerics.Spread` | GraphView.java:857-859 | `min + (max - min) * i / n` is `min` at `i == 0` and `max` at `i == n`, and is NaN exactly when `n == 0` |
| `UtcCalendar.YearOf` | GraphView.java:960-961 | every day number lies in exactly one year of the proleptic Gregorian table |
| `UtcCalendar.DayOfYear` | GraphView.java:960-961 | `DAY_OF_YEAR` of epoch milliseconds lies in 1 to the length of its year |
| `UtcCalendar.YearOfUnique` | GraphView.java:960-961 | a year whose range holds a day is the year of that day |
| `UtcCalendar.DayInYear` | GraphView.java:960-961 | `DAY_OF_YEAR` lies in 1 to the length of its year |
| `UtcCalendar.DaysOf1970` | GraphView.java:960-961 | the first 365 days after the epoch are days 1 to 365 of their year |
| `UtcCalendar.DayInYearNext` | GraphView.java:981-986 | the next day's `DAY_OF_YEAR` is one more, or 1 after a year's last day (day 365 or later); the day after a year's first is its second |
| `UtcCalendar.DayOfYearNext` | GraphView.java:981-986 | the same step for `DAY_OF_YEAR` of epoch milliseconds moved on by a day |
| `AxisLabels.SearchDown` | GraphView.java:838-847 | the loop from `l` down to 3 returns 0 or a count in 3..l that splits the span evenly, and never 0 when three labels fit |
| `AxisLabels.SearchDownLargest` | GraphView.java:838-847 | no count above the one returned, up to `l`, splits the span evenly |
| `AxisLabels.NumLabels` | GraphView.java:838-847 | `calculateNumLabels` is 0 or a count in 3..8 with `(n - m) % (l - 1) == 0`, and never 0 for an even span |
| `AxisLabels.NumLabelsLargest` | GraphView.java:838-847 | the count is the largest in 3..8 that splits the span |
| `AxisLabels.NoLabelsExactly` | GraphView.java:838-847 | the count is 0 exactly when the span is odd and a multiple of none of 3, 5 and 7 |
| `AxisLabels.OneMoreBucketHasLabels` | GraphView.java:1008-1012 | after a span without labels, moving the first bucket on by one gives a span with labels |
| `AxisLabels.LeadingDigits` | GraphView.java:1177-1181 | the `while (tval > 10)` loop: its leading value is at most 10 and is `tval / 10^(digits counted)`, and every division it made was of a value above 10 |
| `AxisLabels.RoundingExponent` | GraphView.java:1182-1185 | `powToDiv` is the digit count less two when the leading value is below 4 and less one otherwise |
| `AxisLabels.NextMultipleAbove` | GraphView.java:1186-1187 | `((int) (n / u + 1)) * u` is a multiple of `u` strictly above `n` and at most `u` above it |
| `AxisLabels.InnerCast` | GraphView.java:1186-1187 | the inner `(int)` cast of `getMaxY` never saturates: it is the quotient plus one |
| `AxisLabels.NiceMaxY` | GraphView.java:1167-1191 | below 5 the top is 5, from 5 to 10 it is kept, and from 10 on it is the next multiple of `10^powToDiv` above its `(int)` cast, saturated; it is always at least 5 |
| `AxisLabels.NormalizeYRange` | GraphView.java:870-882 | a proper range is kept; `0 == 0` becomes [0, 1]; a single value `v` becomes a range centred on `v` and `v / 10` wide |
| `AxisLabels.NormalizedRangeOrder` | GraphView.java:878-881 | the widened range is in order exactly when the single value is not negative |
| `Windowing.Scan` | GraphView.java:652-668 | the scan adds at most one point per point read, and a scan started with a point ends with at least one |
| `Windowing.WindowOf` | GraphView.java:643-674 | with viewport start and size both 0 the window is the whole series; otherwise it is no longer than the series and not empty for a non-empty one |
| `Windowing.LastBelowSpec` | GraphView.java:661-667 | the overwritten slot 0 is empty exactly when no point is before the window, and otherwise holds the last such point |
| `Windowing.InsideSpec` | GraphView.java:653-660 | the kept points are exactly the points of the series inside the window |
| `Windowing.FirstAboveSpec` | GraphView.java:654-657 | the point after the window is missing exactly when no point is past it, and otherwise is the first such point |
| `Windowing.ScanSorted` | GraphView.java:652-668 | on X-sorted data the scan yields the last point before the window, then the points inside, then the first point past it |
| `Windowing.WindowOfSorted` | GraphView.java:643-674 | `_values` of a sorted series with a viewport set is the last point before, the points inside and the first point after, in that order |
| `Windowing.WindowFromSeries` | GraphView.java:643-674 | the window is no longer than the series and every point in it comes from the series |
| `Windowing.WindowEdges` | GraphView.java:643-674 | only the first point of the window can lie before the viewport and only the last past it |
| `Windowing.InsideShorter` | GraphView.java:643-674 | with points on both sides of the window, at least two points of the series are outside it |
| `Windowing.InsideShorterOne` | GraphView.java:643-674 | with a point on either side of the window, at least one point of the series is outside it |
| `TimeBuckets.BranchFor` | GraphView.java:943-1083 | the branch of a span has a bucket at most half the span, and is a day branch exactly from three days of span up |
| `TimeBuckets.Snap` | GraphView.java:946-1100 | snapping moves a time by less than one bucket of its branch |
| `TimeBuckets.Index` | GraphView.java:960-961 | the day branches count in days of the year, 1 to 366 |
| `TimeBuckets.MovedStart` | GraphView.java:979-1113 | the retry loops only move the start forward, and the thirteen-day branch has none |
| `TimeBuckets.PlanFor` | GraphView.java:934-1118 | a span below ten minutes is left alone; otherwise the plan uses the branch of the span, the snapped end, and a label count of 0 or 3 to 8 |
| `TimeBuckets.SnapToDay` | GraphView.java:946-958 | the day branches snap to a whole day, milliseconds aside: back to the day's start up to 12 o'clock, on to the next day after it |
| `TimeBuckets.SnapToHour` | GraphView.java:995-1002 | the hour branch snaps to a whole hour: back up to minute 20, on after it |
| `TimeBuckets.RoundOff` | GraphView.java:1022-1034 | the minute correction lands on the grid: back by the remainder below the half-way minute, on to the next boundary from it |
| `TimeBuckets.SnapToMinutes` | GraphView.java:1020-1100 | the minute branches snap to a quarter hour (split at 7) or five minutes (split at 3), milliseconds aside, moving the time by less than half a unit back or up to the rest of it forward |
| `TimeBuckets.StepsFrom` | GraphView.java:1005-1012 | the number of passes of a bucket retry loop: after it the span has labels |
| `TimeBuckets.StepsFromFirst` | GraphView.java:1008-1012 | every earlier pass had a span without labels, so the loop stops at the first start with labels |
| `TimeBuckets.StepsFromBound` | GraphView.java:1041-1046 | from a start at or after the epoch the loop takes fewer than `width / step + 1` passes |
| `TimeBuckets.RetryAtMostOnce` | GraphView.java:1008-1012 | a loop that steps a whole bucket runs at most once |
| `TimeBuckets.SettleBuckets` | GraphView.java:1005-1013 | the `while (calcNumLabels == 0)` loop of the hour and minute branches ends on the start `StepsFrom` passes on, with its non-zero label count |
| `TimeBuckets.DaysFrom` | GraphView.java:979-986 | the day loop takes at most two passes, ends with labels, and each pass before the last had none |
| `TimeBuckets.DayRetryEnds` | GraphView.java:981-986 | two days without labels in a row, which only a year wrap allows, are followed by a day with labels |
| `TimeBuckets.SettleDays` | GraphView.java:979-987 | the day loop of the three-day branch ends `DaysFrom` days on, with a non-zero label count |
| `TimeBuckets.RetryStep` | GraphView.java:1072-1077 | a retry pass moves the start by a positive divisor of the bucket width: five minutes in the narrow quarter-hour branch, a whole bucket elsewhere |
| `TimeBuckets.MovedStartHasLabels` | GraphView.java:979-1113 | every branch with a retry loop ends on a start whose span to the end has labels |
| `TimeBuckets.PlanLabels` | GraphView.java:934-1118 | every branch but the thirteen-day one ends with 3 to 8 labels that split the snapped span evenly; the thirteen-day branch does too when it has labels |
| `TimeBuckets.ThirteenDaysWithoutLabels` | GraphView.java:943-965 | the thirteen-day branch has no retry loop: a window of thirteen days from the epoch ends with a label count of 0 |
| `TimeBuckets.SnappedStartOnGrid` | GraphView.java:1020-1113 | the moved start stays on the grid of its retry step, milliseconds aside |
| `TimeBuckets.SnapOnGrid` | GraphView.java:943-1100 | every branch snaps onto the grid of its bucket width, milliseconds aside |
| `TimeBuckets.RetriesAreShort` | GraphView.java:979-1113 | from a start at or after the epoch the retries move the snapped start forward only: not at all in the thirteen-day branch, by at most two days in the three-day branch, and by less than a bucket and a step elsewhere |
| `TimeBuckets.SnapNotBelowZero` | GraphView.java:943-1100 | snapping a time at or after the epoch stays at or after it |
| `Graph.FirstIndexFinds` | GraphView.java:1306-1310 | `List.remove` finds the first series with the identity: none before it, the one at it |
| `Graph.RemoveFirstSpec` | GraphView.java:1306-1310 | removal takes out the first occurrence and keeps the rest in order, and leaves a list without one unchanged |
| `Graph.LargestYIsMaximum` | GraphView.java:1155-1164 | the largest Y is at least the start value, no Y exceeds it, and it is the start value or one of the Y values |
| `Graph.LargestIn` | GraphView.java:1157-1163 | the inner loop of `getMaxY` computes the largest Y of one window |
| `Graph.ScaledViewport` | GraphView.java:1445-1472 | the scaled window starts at or after `initialStart` and ends at or before `initialEnd`. It is the window scaled about its centre (clamped to `initialStart`, a zero size becoming `initialEnd`) when that fits. Otherwise it is shifted back to end at `initialEnd` when it then starts after `initialStart`, and is reset to exactly the initial bounds when not |
| `Graph.ScaleResetsToInitialBounds` | GraphView.java:1464-1468 | a window scaled past both initial bounds is reset to exactly the initial bounds |
| `Graph.ZoomTarget` | GraphView.java:331-352 | the window between two fingers is ordered, lies inside the old window, and is as wide as the fingers' distance as a fraction of the view |
| `Graph.ApplyMoves` | GraphView.java:310-323 | `ACTION_MOVE` keeps the set of recorded pointers, and a pointer the event does not name keeps its position |
| `Graph.FormatLabel` | GraphView.java:802-836 | the custom formatter's text wins; otherwise an X value is a date from three days of range, a time of day below one day and a date and time in between, and a Y value is its `(int)` cast |
| `Graph.SpreadLabels` | GraphView.java:849-889 | an axis with `n` steps has `n + 1` labels |
| `Graph.PlanApplied` | GraphView.java:1105-1117 | below ten minutes only the vertical count becomes 6; a snapped window in order becomes the viewport with the planned count and 6 vertical labels; a reversed one is refused with the viewport and vertical count unchanged |
| `Graph.SpreadLabelsEnds` | GraphView.java:857-859 | with two labels or more, the first shows the axis minimum and the last its maximum |
| `Graph.SingleLabelIsNaN` | GraphView.java:857-859 | a single label shows `0.0 / 0`, NaN |
| `Graph.ReversedTwice` | GraphView.java:884-887 | the top-first order of the vertical labels is a reversal: reversing it again gives the bottom-first order |
| `Graph.GraphView.constructor` | GraphView.java:551-625 | a new view has no viewport, no series, no cached labels, no measured sizes and the style's label counts |
| `Graph.GraphView.SetViewPort` | GraphView.java:1522-1529 | a negative size is refused and the viewport is unchanged; otherwise the viewport is exactly `(start, size)`, with no clamping |
| `Graph.GraphView.SetViewportStart` | GraphView.java:635-637 | the viewport start is set |
| `Graph.GraphView.SetViewportSize` | GraphView.java:639-641 | the viewport size is set |
| `Graph.GraphView.MaxX` | GraphView.java:1120-1143 | `getMaxX` is the viewport's end when a viewport is set and not ignored, and otherwise the initial end |
| `Graph.GraphView.MinX` | GraphView.java:1203-1227 | `getMinX` is the viewport's start when a viewport is set and not ignored, and otherwise the initial start |
| `Graph.GraphView.MinY` | GraphView.java:1235-1253 | `getMinY` is 0 whatever the data |
| `Graph.GraphView.SetInitialXBounds` | GraphView.java:687-690 | the initial bounds are set |
| `Graph.GraphView.OnMoveGesture` | GraphView.java:255-271 | without a viewport nothing changes; with one the window becomes `[vpStart, vpEnd]`, and it is refused and keeps the caches when reversed, while the fields keep the reversed window |
| `Graph.GraphView.ScrollToEnd` | GraphView.java:1331-1350 | refused unless scrollable; otherwise the window keeps its size, ends at the initial end and drops the generated labels |
| `Graph.GraphView.SetScalable` | GraphView.java:1437-1441 | turning scaling on the first time installs the detector and makes the view scrollable |
| `Graph.GraphView.SetScrollable` | GraphView.java:1486-1488 | the flag is set |
| `Graph.GraphView.OnScale` | GraphView.java:1444-1474 | the viewport becomes `ScaledViewport` of the old one (scaled, shifted back or reset to the initial bounds), stays within the initial bounds, and everything cached is redrawn |
| `Graph.GraphView.RedrawAll` | GraphView.java:1271-1285 | generated labels and measured sizes are dropped; static labels stay |
| `Graph.GraphView.RecordTextMetrics` | GraphView.java:166-176 | the measured label sizes are recorded |
| `Graph.GraphView.SetHorizontalLabels` | GraphView.java:1384-1387 | given labels become static and cached as text; `null` returns to generated labels |
| `Graph.GraphView.SetVerticalLabels` | GraphView.java:1509-1512 | the same for the vertical labels |
| `Graph.GraphView.AddSeries` | GraphView.java:681-685 | the series is appended and everything cached is redrawn |
| `Graph.GraphView.RemoveSeries` | GraphView.java:1306-1310 | the first occurrence of the series goes, the rest stay in order, and everything cached is redrawn |
| `Graph.GraphView.RemoveSeriesAt` | GraphView.java:1317-1323 | an index outside the list is an IndexOutOfBounds error with nothing changed; otherwise the list loses one series, the first with the identity of the one at the index |
| `Graph.GraphView.RemoveAllSeries` | GraphView.java:1290-1298 | the list is emptied and everything cached is redrawn |
| `Graph.GraphView.SetManualYAxisBounds` | GraphView.java:1426-1430 | the bounds are stored and the manual axis is switched on |
| `Graph.GraphView.SetManualYAxis` | GraphView.java:1416-1418 | the flag is set |
| `Graph.GraphView.Values` | GraphView.java:643-674 | the scan of `_values` yields the `WindowOf` slice, and the whole series when both the viewport start and size are 0 |
| `Graph.GraphView.LargestInWindows` | GraphView.java:1155-1164 | the running maximum over the windows starts at `Integer.MIN_VALUE` and never drops below it |
| `Graph.GraphView.LargestInWindowsIsMaximum` | GraphView.java:1155-1164 | no Y in the windows of the series read so far exceeds the running maximum, which is `Integer.MIN_VALUE` or one of those Ys |
| `Graph.GraphView.RawMaxY` | GraphView.java:1150-1165 | the manual maximum when the axis is manual; otherwise the data's maximum, at least `Integer.MIN_VALUE` and equal to it without series |
| `Graph.GraphView.MaxY` | GraphView.java:1150-1191 | `getMaxY` is `NiceMaxY` of the manual maximum or of the largest Y over all windows, and is at least 5 |
| `Graph.GraphView.SnapWindow` | GraphView.java:934-1115 | the snapping of `formatHorLabels` is the plan `PlanFor` of the window, with a label count of at most 8 |
| `Graph.GraphView.FormatHorLabels` | GraphView.java:934-1118 | the viewport and label counts become what `PlanApplied` gives: untouched below ten minutes, otherwise the snapped window with the planned count and 6 vertical labels, or refused for a reversed snapped window |
| `Graph.GraphView.ApplyPlan` | GraphView.java:962-964 | the thirteen-day branch sets 7 labels before the viewport, the other branches their count; after it the counts are the planned one and 6 |
| `Graph.GraphView.FillHorlabels` | GraphView.java:857-859 | the loop fills slot `i` with the X value `i / n` of the way across |
| `Graph.GraphView.GenerateHorlabels` | GraphView.java:849-862 | after `formatHorLabels`, as many labels as the horizontal count, spread from the new viewport's start to its end; a negative count is a negative array size |
| `Graph.GraphView.SpreadHorlabels` | GraphView.java:851-861 | a negative array size exactly when the count is negative; otherwise the spread labels |
| `Graph.GraphView.VerticalSteps` | GraphView.java:865-868 | the style's count less one when it is positive; otherwise the graph height over three label heights, where a missing height is a null dereference and a zero height divides by zero, giving `Integer.MAX_VALUE`, `Integer.MIN_VALUE` or 0 by the sign of the graph height |
| `Graph.GraphView.FillVerlabels` | GraphView.java:884-887 | slot `n - i` receives the value `i / n` of the way up, so the labels are the spread reversed, highest first |
| `Graph.GraphView.GenerateVerlabels` | GraphView.java:864-890 | a missing label height is a null dereference; a negative array size exactly when the step count is `Integer.MAX_VALUE` or below -1; otherwise the labels from 0 up to `getMaxY`, highest first |
| `Graph.GraphView.PointerDown` | GraphView.java:291-309 | a pointer is recorded only while fewer than two are, so no more than two ever are |
| `Graph.GraphView.PointerMove` | GraphView.java:310-323 | the recorded pointers take their new positions and no pointer is added |
| `Graph.GraphView.PointerRelease` | GraphView.java:363-366 | the recorded pointers are forgotten |
| `Graph.GraphView.PinchWindow` | GraphView.java:331-352 | the window between the two pointers, mapped into the viewport, is `ZoomTarget` |
| `Graph.GraphView.Pinch` | GraphView.java:331-359 | the zoom meets `PinchApplied`. A reversed target window, from a negative viewport size, is refused with the viewport and caches unchanged. Without series 0 it is an index error after the viewport moved. With fewer than 8 points of series 0 in the target the old viewport is restored, and refused again for a negative old size. Otherwise `onMoveGesture` confirms the viewport: caches dropped unless static for a non-zero size, kept for size 0 |
| `Graph.GraphView.PointerUp` | GraphView.java:325-361 | without two pointers they are forgotten and the viewport and caches stay; with ids other than 0 and 1 it is a null dereference with nothing changed; otherwise the zoom is `PinchApplied`, and the pointers are forgotten exactly when it succeeds |
| `Graph.GraphView.OnClick` | GraphView.java:108-125 | the double tap is armed afterwards. A first click changes nothing else. A second forgets the pointers. Without a viewport it then leaves the viewport and caches alone. With one it moves the viewport fields to the initial bounds: this succeeds and drops the non-static caches exactly when the bounds are in order, and is otherwise refused with the caches kept |
| `Graph.GraphView.ClickTimerFired` | GraphView.java:117-123 | the delayed task disarms the double tap |
| `Graph.ThreeHeightsZeroOnlyForZero` | GraphView.java:867 | three times an `int` label height, wrapped, is 0 exactly for a zero height: the divisor is zero only then |
| `Graph.DegenerateRangeUnreachable` | GraphView.java:870-882 | with `getMinY` 0 and `getMaxY` at least 5 the range fix of `generateVerlabels` never applies |

## Left out

- Drawing: `onDraw`, the label and legend drawing, `LineGraphView.drawSeries` and every Canvas, Paint and layout call. Text measurement and screen density become the parameters of `RecordTextMetrics`.
- `SimpleDateFormat` output: a label keeps the value and the format chosen (`DateOnly`, `DateAndTime`, `TimeOfDay`, `Whole`), not the rendered string. Number formatters are never read in this code.
- Time zones, daylight saving and the Julian calendar before 1582: the calendar is UTC on the proleptic Gregorian calendar.
- Floating point: doubles and floats are reals, with the NaN of `0.0 / 0` as the only special value; the float division by a zero label height is modelled only through its `(int)` cast. Rounding, other infinities and float precision of the scale factor and of the label fractions are not modelled.
- `long` overflow of epoch milliseconds: times are unbounded integers. 32-bit `int` wrap-around is modelled where label counts are computed.
- The `Handler.postDelayed` double-tap timer becomes `ClickTimerFired`, a method the environment calls. `GestureDetector` plumbing, `invalidate()` and `requestDisallowInterceptTouchEvent` are left out.
- `synchronized` blocks: the model is sequential.
- The series' back-references (`addGraphView`/`removeGraphView`) and the series' own data operations are not modelled; a series is its identity and its sorted data.
- `getEventData` and `clearEventData` are not modelled.
- `getMaxX`, `getMinX` and `getMinY` contain loops over the series whose results are never used. They are left out, since the functions return the viewport ends, the initial bounds or 0 either way.
- The custom label formatter is private and nothing in `GraphView.java` assigns it: the javadoc at GraphView.java:1352-1356 announces a setter that is not there. In the source it is therefore always `null`. The model takes it as a constructor parameter and keeps it constant, so that the formatter branch of `formatLabel` is stated as well.
- The `GraphViewStyle` is only its two label counts.
- The hour branch's retry loop adds one to `Calendar.HOUR`. It is modelled as one hour forward, which is what it does in UTC.
- Windowing.WindowOfSorted: characterises `_values` only for series sorted by X and a viewport of non-negative size. On other input the model runs the same scan (`Scan`) but states nothing beyond `Values` returning it.
