/** `formatHorLabels`: the viewport's ends are snapped to round times (days,
    hours, quarter hours or five minutes, by the width of the viewport), the
    start is moved forward until the snapped span splits evenly into labels,
    and the label count is chosen for that span. */
module TimeBuckets {
  import opened JavaNumerics
  import opened UtcCalendar
  import opened AxisLabels

  /** The day branches: back to the start of the day up to 12 o'clock, on to
      the start of the next day after it. `Calendar.set` leaves the
      milliseconds alone, so they are kept. */
  function SnapToDay(t: int): (s: int)
    ensures (s - MillisOfSecond(t)) % DAY == 0
    ensures HourOfDay(t) <= 12 ==> s <= t < s + 13 * HOUR
    ensures HourOfDay(t) > 12 ==> t < s <= t + 11 * HOUR
  {
    DayFields(t);
    HourFields(t);
    MinuteFields(t);
    var k := t / DAY + (if HourOfDay(t) > 12 then 1 else 0);
    MultipleMod(k, DAY);
    DayStart(t) + (if HourOfDay(t) > 12 then DAY else 0) + MillisOfSecond(t)
  }

  /** The hour branch: back to the full hour up to minute 20, on to the next
      full hour after it; the milliseconds are kept. */
  function SnapToHour(t: int): (s: int)
    ensures (s - MillisOfSecond(t)) % HOUR == 0
    ensures MinuteOfHour(t) <= 20 ==> s <= t < s + 21 * MINUTE
    ensures MinuteOfHour(t) > 20 ==> t < s <= t + 39 * MINUTE
  {
    HourFields(t);
    MinuteFields(t);
    var k := t / HOUR + (if MinuteOfHour(t) > 20 then 1 else 0);
    MultipleMod(k, HOUR);
    HourStart(t) + (if MinuteOfHour(t) > 20 then HOUR else 0) + MillisOfSecond(t)
  }

  /** The grids of the minute branches: quarter hours split at minute 7,
      five minutes split at minute 3. */
  predicate MinuteGrid(unit: int, half: int) {
    (unit == 15 && half == 7) || (unit == 5 && half == 3)
  }

  /** The `roundoff` correction added to the minute: back by the remainder
      when it is under `half`, on to the next boundary otherwise. */
  function RoundOff(minute: int, unit: int, half: int): (d: int)
    requires MinuteGrid(unit, half) && minute >= 0
    ensures (minute + d) % unit == 0
    ensures minute % unit < half ==> -half < d <= 0
    ensures minute % unit >= half ==> 0 < d <= unit - half
  {
    var r := minute % unit;
    MultipleMod(minute / unit, unit);
    MultipleMod(minute / unit + 1, unit);
    if r < half then -r else unit - r
  }

  /** The minute branches: the minute is moved by `RoundOff`, the seconds
      are cleared and the milliseconds kept. */
  function SnapToMinutes(t: int, unit: int, half: int): (s: int)
    requires MinuteGrid(unit, half)
    ensures (s - MillisOfSecond(t)) % (unit * MINUTE) == 0
    ensures MinuteOfHour(t) % unit < half ==> s <= t < s + half * MINUTE
    ensures MinuteOfHour(t) % unit >= half ==> t < s <= t + (unit - half) * MINUTE
  {
    HourFields(t);
    MinuteFields(t);
    var m := MinuteOfHour(t);
    MinutesOnGrid(t / HOUR, m, unit, half);
    HourStart(t) + (m + RoundOff(m, unit, half)) * MINUTE + MillisOfSecond(t)
  }

  lemma MinutesOnGrid(h: int, m: int, unit: int, half: int)
    requires MinuteGrid(unit, half) && 0 <= m < 60
    ensures (h * HOUR + (m + RoundOff(m, unit, half)) * MINUTE) % (unit * MINUTE) == 0
  {
    var j := (m + RoundOff(m, unit, half)) / unit;
    assert m + RoundOff(m, unit, half) == j * unit;
    var k := h * (60 / unit) + j;
    if unit == 5 {
      assert h * HOUR + (m + RoundOff(m, unit, half)) * MINUTE == k * (5 * MINUTE);
    } else {
      assert h * HOUR + (m + RoundOff(m, unit, half)) * MINUTE == k * (15 * MINUTE);
    }
    MultipleMod(k, unit * MINUTE);
  }

  /** `t` moved on by `j` steps of `step` milliseconds. */
  function Shifted(t: int, j: int, step: int): int {
    t + j * step
  }

  lemma ShiftedStep(t: int, step: int, k: int)
    ensures forall j :: 1 <= j <= k + 1 ==> Shifted(t, j, step) == Shifted(t + step, j - 1, step)
  {
    forall j | 1 <= j <= k + 1 ensures Shifted(t, j, step) == Shifted(t + step, j - 1, step) {
      Distribute(j, -1, step);
    }
  }

  /** The label count for the bucket of width `width` holding `t`, against
      the end bucket `n`: `calculateNumLabels(t / width, n)` with Java's
      truncating division. */
  function LabelsAt(t: int, width: int, n: int): int
    requires width > 0
  {
    NumLabels(JavaDiv(t, width), n)
  }

  /** The number of passes of a bucket retry loop, from a start still in
      the bucket `m0` (or just past it) whose span had no label count. Each
      pass moves the start on by `step`, at most one bucket. */
  function StepsWithin(t: int, n: int, width: int, step: int, m0: int): (k: nat)
    requires 0 < step <= width
    requires NumLabels(m0, n) == 0
    requires m0 <= JavaDiv(t, width) <= m0 + 1
    ensures LabelsAt(Shifted(t, k, step), width, n) != 0
    ensures forall j :: 0 <= j < k ==> LabelsAt(Shifted(t, j, step), width, n) == 0
    ensures k > 0 ==> Shifted(t, k - 1, step) < (m0 + 1) * width
    decreases (m0 + 1) * width - t
  {
    assert Shifted(t, 0, step) == t;
    if JavaDiv(t, width) == m0 + 1 then
      OneMoreBucketHasLabels(m0, n);
      0
    else
      Distribute(m0, 1, width);
      JavaDivBounds(t, width);
      JavaDivStep(t, step, width);
      var k := StepsWithin(t + step, n, width, step, m0);
      ShiftedStep(t, step, k);
      assert Shifted(t, k + 1, step) == Shifted(t + step, k, step);
      assert k > 0 ==> Shifted(t, k, step) == Shifted(t + step, k - 1, step);
      k + 1
  }

  /** The number of passes of the bucket retry loop from `t`: the first
      count of steps after which the span has labels. */
  function StepsFrom(t: int, n: int, width: int, step: int): (k: nat)
    requires 0 < step <= width
    ensures LabelsAt(Shifted(t, k, step), width, n) != 0
    ensures k > 1 ==> Shifted(t, k - 1, step) < (JavaDiv(t, width) + 1) * width
  {
    if LabelsAt(t, width, n) != 0 then 0
    else
      JavaDivStep(t, step, width);
      var k := StepsWithin(t + step, n, width, step, JavaDiv(t, width));
      ShiftedStep(t, step, k);
      k + 1
  }

  /** The retry loop stops at the first start whose span has labels. */
  lemma StepsFromFirst(t: int, n: int, width: int, step: int)
    requires 0 < step <= width
    ensures forall j :: 0 <= j < StepsFrom(t, n, width, step) ==> LabelsAt(Shifted(t, j, step), width, n) == 0
  {
    if LabelsAt(t, width, n) == 0 {
      JavaDivStep(t, step, width);
      var k := StepsWithin(t + step, n, width, step, JavaDiv(t, width));
      ShiftedStep(t, step, k);
      assert Shifted(t, 0, step) == t;
    }
  }

  /** From a start at or after the epoch the loop stays within one bucket
      and the next: fewer than `width / step + 1` passes. */
  lemma {:induction false} StepsFromBound(t: int, n: int, width: int, step: int)
    requires 0 < step <= width && t >= 0
    ensures StepsFrom(t, n, width, step) * step < width + step
  {
    var k := StepsFrom(t, n, width, step);
    if k > 1 {
      JavaDivBounds(t, width);
      Distribute(JavaDiv(t, width), 1, width);
      Distribute(k, -1, step);
    }
  }

  /** When a pass moves the start by a whole bucket, the loop runs at most
      once. */
  lemma RetryAtMostOnce(t: int, n: int, width: int)
    requires 0 < width && t >= 0
    ensures StepsFrom(t, n, width, width) <= 1
  {
    StepsFromBound(t, n, width, width);
    var k := StepsFrom(t, n, width, width);
    Distribute(1, 1, width);
    CancelFactor(k, 2, width);
  }

  /** The `while (calcNumLabels == 0)` loops of the hour and minute branches:
      the start moves on by `step` until the bucket span has labels. */
  method SettleBuckets(t2: int, n: int, width: int, step: int) returns (t: int, count: int)
    requires 0 < step <= width
    ensures t == Shifted(t2, StepsFrom(t2, n, width, step), step)
    ensures count == LabelsAt(t, width, n) && count != 0
  {
    ghost var k := StepsFrom(t2, n, width, step);
    ghost var i := 0;
    t := t2;
    count := LabelsAt(t, width, n);
    while count == 0
      invariant 0 <= i <= k
      invariant t == Shifted(t2, i, step)
      invariant count == LabelsAt(t, width, n)
      decreases k - i
    {
      StillRetrying(t2, n, width, step, i);
      ShiftedNext(t2, i, step);
      t := t + step;
      count := LabelsAt(t, width, n);
      i := i + 1;
    }
    FirstWithLabels(t2, n, width, step, i);
  }

  lemma ShiftedNext(t: int, i: int, step: int)
    ensures Shifted(t, i + 1, step) == Shifted(t, i, step) + step
  {
    Distribute(i, 1, step);
  }

  /** A start with labels, at or before the last pass, is the last pass. */
  lemma FirstWithLabels(t2: int, n: int, width: int, step: int, i: int)
    requires 0 < step <= width && 0 <= i <= StepsFrom(t2, n, width, step)
    requires LabelsAt(Shifted(t2, i, step), width, n) != 0
    ensures i == StepsFrom(t2, n, width, step)
  {
    StepsFromFirst(t2, n, width, step);
  }

  /** A start whose span has no labels is one the loop has not yet passed. */
  lemma StillRetrying(t2: int, n: int, width: int, step: int, i: int)
    requires 0 < step <= width && 0 <= i <= StepsFrom(t2, n, width, step)
    requires LabelsAt(Shifted(t2, i, step), width, n) == 0
    ensures i < StepsFrom(t2, n, width, step)
  {}

  /** The label count for the day holding `t` against the end day `n`. */
  function LabelsOnDay(t: int, n: int): int {
    NumLabels(DayOfYear(t), n)
  }

  /** The number of passes of the day retry loop: at most two, since one
      more day makes the span even unless the year wraps, and the day after
      a year's first day is its second. */
  function DaysFrom(t: int, n: int): (k: nat)
    ensures k <= 2
    ensures LabelsOnDay(t + k * DAY, n) != 0
    ensures k >= 1 ==> LabelsOnDay(t, n) == 0
    ensures k == 2 ==> LabelsOnDay(t + DAY, n) == 0
  {
    if LabelsOnDay(t, n) != 0 then 0
    else if LabelsOnDay(t + DAY, n) != 0 then 1
    else
      DayRetryEnds(t, n);
      2
  }

  /** A day-of-year span without labels is odd; one day on it is even and
      has labels unless the year wrapped, and then the day after is the
      second of the year, whose span is even again. */
  lemma DayRetryEnds(t: int, n: int)
    ensures LabelsOnDay(t, n) == 0 && LabelsOnDay(t + DAY, n) == 0 ==> LabelsOnDay(t + 2 * DAY, n) != 0
  {
    if LabelsOnDay(t, n) == 0 && LabelsOnDay(t + DAY, n) == 0 {
      DayOfYearNext(t);
      DayOfYearNext(t + DAY);
      assert t + DAY + DAY == t + 2 * DAY;
      OneMoreBucketHasLabels(DayOfYear(t), n);
      assert DayOfYear(t + DAY) == 1;
      OneMoreBucketHasLabels(1, n);
    }
  }

  /** The `while (calcNumLabels == 0)` loop of the three-day branch: the
      start moves on by a day until the day-of-year span has labels. */
  method SettleDays(t2: int, n: int) returns (t: int, count: int)
    ensures t == t2 + DaysFrom(t2, n) * DAY
    ensures count == LabelsOnDay(t, n) && count != 0
  {
    ghost var k := DaysFrom(t2, n);
    ghost var i := 0;
    t := t2;
    count := LabelsOnDay(t, n);
    while count == 0
      invariant 0 <= i <= k
      invariant t == t2 + i * DAY
      invariant count == LabelsOnDay(t, n)
      decreases k - i
    {
      DaysStillRetrying(t2, n, i);
      t := t + DAY;
      count := LabelsOnDay(t, n);
      i := i + 1;
    }
    DaysFirstWithLabels(t2, n, i);
  }

  /** A day without labels is one the day loop has not yet passed. */
  lemma DaysStillRetrying(t2: int, n: int, i: int)
    requires 0 <= i <= DaysFrom(t2, n) && LabelsOnDay(t2 + i * DAY, n) == 0
    ensures i < DaysFrom(t2, n)
  {
    if i == 0 {
      assert LabelsOnDay(t2, n) == 0;
    } else if i == 1 {
      assert LabelsOnDay(t2 + DAY, n) == 0;
    }
  }

  /** The day loop stops at the first day with labels. */
  lemma DaysFirstWithLabels(t2: int, n: int, i: int)
    requires 0 <= i <= DaysFrom(t2, n) && LabelsOnDay(t2 + i * DAY, n) != 0
    ensures i == DaysFrom(t2, n)
  {
    if i == 0 {
      assert LabelsOnDay(t2, n) != 0;
    } else if i == 1 {
      assert LabelsOnDay(t2 + DAY, n) != 0;
    }
  }

  /** The branches of `formatHorLabels`, by the width of the viewport. */
  datatype Branch = ThirteenDays | ThreeDays | Hours | QuarterHoursWide | QuarterHours | FiveMinutes

  /** The branch for a viewport of width `span`, at least ten minutes. */
  function BranchFor(span: real): (b: Branch)
    requires span >= (10 * MINUTE) as real
    ensures 2.0 * Width(b) as real <= span
    ensures Width(b) >= DAY <==> span >= (3 * DAY) as real
  {
    if span >= (13 * DAY) as real then ThirteenDays
    else if span >= (3 * DAY) as real then ThreeDays
    else if span >= (140 * MINUTE) as real then Hours
    else if span >= (2 * HOUR) as real then QuarterHoursWide
    else if span >= (45 * MINUTE) as real then QuarterHours
    else FiveMinutes
  }

  /** The width of the buckets a branch counts labels over. */
  function Width(b: Branch): int {
    match b
    case ThirteenDays => DAY
    case ThreeDays => DAY
    case Hours => HOUR
    case QuarterHoursWide => 15 * MINUTE
    case QuarterHours => 15 * MINUTE
    case FiveMinutes => 5 * MINUTE
  }

  /** How far one pass of a branch's retry loop moves the start: the bucket
      width, except five minutes in the narrow quarter-hour branch. */
  function RetryStep(b: Branch): (s: int)
    ensures 0 < s <= Width(b) && Width(b) % s == 0
  {
    if b == QuarterHours then 5 * MINUTE else Width(b)
  }

  /** The snapping of a branch: it moves the time by less than one bucket. */
  function Snap(b: Branch, t: int): (s: int)
    ensures t - Width(b) < s < t + Width(b)
  {
    match b
    case ThirteenDays => SnapToDay(t)
    case ThreeDays => SnapToDay(t)
    case Hours => SnapToHour(t)
    case QuarterHoursWide => SnapToMinutes(t, 15, 7)
    case QuarterHours => SnapToMinutes(t, 15, 7)
    case FiveMinutes => SnapToMinutes(t, 5, 3)
  }

  /** The index `calculateNumLabels` is given for a time in a branch: the
      day of the year, or the bucket number. */
  function Index(b: Branch, t: int): (i: int)
    ensures (b == ThirteenDays || b == ThreeDays) ==> 1 <= i <= 366
  {
    if b == ThirteenDays || b == ThreeDays then DayOfYear(t) else JavaDiv(t, Width(b))
  }

  /** What `formatHorLabels` does to the viewport and the label count: below
      ten minutes nothing; otherwise the snapped, possibly moved start, the
      snapped end and the count of labels for the span between them. */
  datatype Plan = Unsnapped | Snapped(branch: Branch, start: int, end: int, labels: int)

  /** The start after a branch's retry loop (the thirteen-day branch has
      none): the first start, in steps of `RetryStep`, whose span to `e`
      has labels. */
  function MovedStart(b: Branch, s: int, e: int): (m: int)
    ensures s <= m
    ensures b == ThirteenDays ==> m == s
  {
    match b
    case ThirteenDays => s
    case ThreeDays => s + DaysFrom(s, DayOfYear(e)) * DAY
    case _ =>
      var k := StepsFrom(s, JavaDiv(e, Width(b)), Width(b), RetryStep(b));
      MulMono(0, k, RetryStep(b));
      Shifted(s, k, RetryStep(b))
  }

  /** Every retry loop ends on a start whose span to `e` has labels. */
  lemma MovedStartHasLabels(b: Branch, s: int, e: int)
    requires b != ThirteenDays
    ensures NumLabels(Index(b, MovedStart(b, s, e)), Index(b, e)) != 0
  {
    if b != ThreeDays {
      var step := RetryStep(b);
      var k := StepsFrom(s, JavaDiv(e, Width(b)), Width(b), step);
      assert LabelsAt(Shifted(s, k, step), Width(b), JavaDiv(e, Width(b))) != 0;
    }
  }

  /** The plan for the window from `start` to `end`. */
  function PlanFor(start: real, end: real): (p: Plan)
    ensures p.Unsnapped? <==> end - start < (10 * MINUTE) as real
    ensures p.Snapped? ==> p.branch == BranchFor(end - start) && p.end == Snap(p.branch, Truncate(end))
    ensures p.Snapped? ==> p.labels == 0 || 3 <= p.labels <= 8
  {
    if end - start < (10 * MINUTE) as real then Unsnapped
    else
      var b := BranchFor(end - start);
      var e := Snap(b, Truncate(end));
      var s := MovedStart(b, Snap(b, Truncate(start)), e);
      Snapped(b, s, e, NumLabels(Index(b, s), Index(b, e)))
  }

  /** `p` is the plan for the window from `start` to `end`. */
  predicate IsPlanFor(p: Plan, start: real, end: real) {
    p == PlanFor(start, end)
  }

  /** The plan of a window of at least ten minutes, piece by piece. */
  lemma SnappedPlan(start: real, end: real, b: Branch, s0: int, s: int, e: int)
    requires end - start >= (10 * MINUTE) as real && b == BranchFor(end - start)
    requires e == Snap(b, Truncate(end)) && s0 == Snap(b, Truncate(start)) && s == MovedStart(b, s0, e)
    ensures IsPlanFor(Snapped(b, s, e, NumLabels(Index(b, s), Index(b, e))), start, end)
  {}

  /** Below ten minutes nothing is snapped. */
  lemma UnsnappedPlan(start: real, end: real)
    requires end - start < (10 * MINUTE) as real
    ensures IsPlanFor(Unsnapped, start, end)
  {}

  /** The three-day branch moves the start on by whole days. */
  lemma MovedByDays(s: int, e: int)
    ensures MovedStart(ThreeDays, s, e) == s + DaysFrom(s, DayOfYear(e)) * DAY
  {}

  /** The bucket branches move the start on by their retry steps. */
  lemma MovedBySteps(b: Branch, s: int, e: int)
    requires b != ThirteenDays && b != ThreeDays
    ensures MovedStart(b, s, e) == Shifted(s, StepsFrom(s, JavaDiv(e, Width(b)), Width(b), RetryStep(b)), RetryStep(b))
  {}

  /** Every branch but the thirteen-day one ends with 3 to 8 labels, which
      split the span from the start's index to the end's evenly; so does the
      thirteen-day branch whenever it has labels at all. */
  lemma PlanLabels(start: real, end: real)
    requires PlanFor(start, end).Snapped?
    ensures var p := PlanFor(start, end);
            (p.branch != ThirteenDays ==> 3 <= p.labels <= 8)
            && (p.labels != 0 ==>
                  3 <= p.labels <= 8 && SplitsEvenly(Index(p.branch, p.start), Index(p.branch, p.end), p.labels))
  {
    var b := BranchFor(end - start);
    var e := Snap(b, Truncate(end));
    var s := MovedStart(b, Snap(b, Truncate(start)), e);
    if b != ThirteenDays {
      MovedStartHasLabels(b, Snap(b, Truncate(start)), e);
    }
    assert PlanFor(start, end) == Snapped(b, s, e, NumLabels(Index(b, s), Index(b, e)));
  }

  /** The thirteen-day branch has no retry loop: a viewport of exactly
      thirteen days from the epoch spans days 1 to 14 of 1970, thirteen days,
      which no label count in 3..8 splits evenly, so it gets no labels. */
  lemma ThirteenDaysWithoutLabels()
    ensures PlanFor(0.0, (13 * DAY) as real) == Snapped(ThirteenDays, 0, 13 * DAY, 0)
  {
    var t := 13 * DAY;
    assert Truncate(t as real) == t && Truncate(0.0) == 0;
    assert SnapToDay(t) == t && SnapToDay(0) == 0;
    assert DayNumber(t) == 13 && DayNumber(0) == 0;
    DaysOf1970(0);
    DaysOf1970(13);
    assert Index(ThirteenDays, 0) == 1 && Index(ThirteenDays, t) == 14;
    assert !SplitsEvenly(1, 14, 8) && !SplitsEvenly(1, 14, 7) && !SplitsEvenly(1, 14, 6);
    assert !SplitsEvenly(1, 14, 5) && !SplitsEvenly(1, 14, 4) && !SplitsEvenly(1, 14, 3);
    assert NumLabels(1, 14) == 0;
    SnappedPlan(0.0, t as real, ThirteenDays, 0, 0, t);
  }

  /** `m` lies on the grid of `step` once the milliseconds `ms` are taken
      off. */
  predicate OnGrid(m: int, ms: int, step: int)
    requires step > 0
  {
    (m - ms) % step == 0
  }

  /** The start after the retries stays on the grid of the retry step,
      milliseconds aside. */
  lemma SnappedStartOnGrid(b: Branch, t: int, e: int)
    ensures OnGrid(MovedStart(b, Snap(b, t), e), MillisOfSecond(t), RetryStep(b))
  {
    SnapOnGrid(b, t);
    MovedStartOnGrid(b, Snap(b, t), e, MillisOfSecond(t));
  }

  /** Every snapping lands on the grid of its branch, milliseconds aside. */
  lemma SnapOnGrid(b: Branch, t: int)
    ensures OnGrid(Snap(b, t), MillisOfSecond(t), Width(b))
  {}

  lemma MovedStartOnGrid(b: Branch, s: int, e: int, ms: int)
    requires OnGrid(s, ms, Width(b))
    ensures OnGrid(MovedStart(b, s, e), ms, RetryStep(b))
  {
    var j, step := RetryCount(b, s, e), RetryStep(b);
    GridShift(s, ms, Width(b), step, j);
    var m := MovedStart(b, s, e);
    assert m - ms == s + j * step - ms;
  }

  /** How many steps the retry loop of a branch takes from `s`. */
  function RetryCount(b: Branch, s: int, e: int): (j: nat)
    ensures MovedStart(b, s, e) == s + j * RetryStep(b)
  {
    match b
    case ThirteenDays => 0
    case ThreeDays => DaysFrom(s, DayOfYear(e))
    case _ => StepsFrom(s, JavaDiv(e, Width(b)), Width(b), RetryStep(b))
  }

  lemma GridShift(s: int, ms: int, w: int, step: int, j: int)
    requires w > 0 && step > 0 && w % step == 0 && (s - ms) % w == 0
    ensures (s + j * step - ms) % step == 0
  {
    var q := (s - ms) / w;
    var r := w / step;
    assert s - ms == q * w;
    assert w == r * step;
    assert q * w == (q * r) * step;
    Distribute(q * r, j, step);
    MultipleMod(q * r + j, step);
  }

  /** From a start at or after the epoch the retries move the snapped start
      forward by less than a bucket and a step: one step of a whole bucket,
      up to three five-minute steps within a quarter hour, or up to two
      days. */
  lemma RetriesAreShort(start: real, end: real)
    requires PlanFor(start, end).Snapped? && start >= 0.0
    ensures var p := PlanFor(start, end);
            var s := Snap(p.branch, Truncate(start));
            s <= p.start
            && (p.branch == ThirteenDays ==> p.start == s)
            && (p.branch == ThreeDays ==> p.start <= s + 2 * DAY)
            && (p.branch != ThirteenDays && p.branch != ThreeDays ==>
                  p.start - s < Width(p.branch) + RetryStep(p.branch))
  {
    var p := PlanFor(start, end);
    var t2 := Truncate(start);
    SnapNotBelowZero(p.branch, t2);
    MovedStartBound(p.branch, Snap(p.branch, t2), p.end);
  }

  lemma MovedStartBound(b: Branch, s: int, e: int)
    requires s >= 0
    ensures s <= MovedStart(b, s, e)
    ensures b == ThirteenDays ==> MovedStart(b, s, e) == s
    ensures b == ThreeDays ==> MovedStart(b, s, e) <= s + 2 * DAY
    ensures b != ThirteenDays && b != ThreeDays ==> MovedStart(b, s, e) - s < Width(b) + RetryStep(b)
  {
    var j := RetryCount(b, s, e);
    MulMono(0, j, RetryStep(b));
    if b != ThirteenDays && b != ThreeDays {
      StepsFromBound(s, JavaDiv(e, Width(b)), Width(b), RetryStep(b));
    }
  }

  /** Snapping a time at or after the epoch stays at or after it. */
  lemma SnapNotBelowZero(b: Branch, t: int)
    requires t >= 0
    ensures Snap(b, t) >= 0
  {
    match b
    case ThirteenDays => assert DayStart(t) >= 0;
    case ThreeDays => assert DayStart(t) >= 0;
    case Hours => assert HourStart(t) >= 0;
    case QuarterHoursWide => MinutesNotBelowZero(t, 15, 7);
    case QuarterHours => MinutesNotBelowZero(t, 15, 7);
    case FiveMinutes => MinutesNotBelowZero(t, 5, 3);
  }

  lemma MinutesNotBelowZero(t: int, unit: int, half: int)
    requires MinuteGrid(unit, half) && t >= 0
    ensures SnapToMinutes(t, unit, half) >= 0
  {
    var m := MinuteOfHour(t);
    HourFields(t);
    assert m == (m / unit) * unit + m % unit;
    assert m + RoundOff(m, unit, half) >= 0;
    assert HourStart(t) >= 0;
  }
}
