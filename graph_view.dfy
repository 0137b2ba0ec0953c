/** `GraphView` without its drawing: the viewport and the initial X bounds,
    the series, the label caches, the axis styles' label counts and the touch
    state of its content view, with the operations that change them. */
module Graph {
  import opened JavaNumerics
  import opened UtcCalendar
  import opened AxisLabels
  import opened Windowing
  import opened TimeBuckets

  datatype Option<T> = None | Some(value: T)

  /** How a call ends: normally, or with the Java exception it throws. */
  datatype Outcome = Done | IllegalArgument | IndexOutOfBounds | IllegalState | NullPointer | NegativeArraySize

  /** A `GraphViewSeries`: its identity and its data, sorted by X. */
  datatype Series = Series(id: int, values: seq<DataPoint>)

  /** The position recorded for a pointer. */
  datatype EventData = EventData(x: real, y: real)

  /** A label: text (from the custom formatter or set as static labels), or
      the value the built-in formats render: a date, a date and time, a time
      of day (from epoch milliseconds), or a whole number. */
  datatype Label = Text(text: string) | DateOnly(millis: int) | DateAndTime(millis: int)
                 | TimeOfDay(millis: int) | Whole(n: int)

  /** Static labels as given. */
  function Texts(l: seq<string>): (r: seq<Label>)
    ensures |r| == |l| && forall i :: 0 <= i < |l| ==> r[i] == Text(l[i])
  {
    seq(|l|, i requires 0 <= i < |l| => Text(l[i]))
  }

  /** The index of the first series with the id, or the length of the list
      when there is none. */
  function FirstIndex(list: seq<Series>, id: int): (k: int)
    ensures 0 <= k <= |list|
  {
    if list == [] then 0
    else if list[0].id == id then 0
    else FirstIndex(list[1..], id) + 1
  }

  /** No series before the index has the id, and the one at it does. */
  lemma {:induction false} FirstIndexFinds(list: seq<Series>, id: int)
    ensures forall j :: 0 <= j < FirstIndex(list, id) ==> list[j].id != id
    ensures FirstIndex(list, id) < |list| ==> list[FirstIndex(list, id)].id == id
    decreases |list|
  {
    if list != [] && list[0].id != id {
      FirstIndexFinds(list[1..], id);
      assert forall j :: 1 <= j < |list| ==> list[j] == list[1..][j - 1];
    }
  }

  /** `List.remove(Object)` on the series list, equality being identity. */
  function RemoveFirst(list: seq<Series>, id: int): seq<Series>
  {
    if list == [] then []
    else if list[0].id == id then list[1..]
    else [list[0]] + RemoveFirst(list[1..], id)
  }

  /** `list` without its element at `k`; unchanged when `k` is past the end. */
  function Without<T>(list: seq<T>, k: nat): (r: seq<T>)
    ensures k < |list| ==> |r| == |list| - 1
  {
    if k < |list| then list[..k] + list[k + 1..] else list
  }

  /** Removing an element after the first is removing it from the tail. */
  lemma ConsWithout<T>(list: seq<T>, k: nat)
    requires list != []
    ensures Without(list, k + 1) == [list[0]] + Without(list[1..], k)
  {
    if k + 1 < |list| {
      assert [list[0]] + list[1..][..k] == list[..k + 1];
      assert list[1..][k + 1..] == list[k + 2..];
    } else {
      assert [list[0]] + list[1..] == list;
    }
  }

  /** The first occurrence goes and the rest stays in order; without one the
      list is unchanged. */
  lemma {:induction false} RemoveFirstSpec(list: seq<Series>, id: int)
    ensures RemoveFirst(list, id) == Without(list, FirstIndex(list, id))
    decreases |list|
  {
    if list == [] {
      assert Without(list, 0) == [];
    } else if list[0].id == id {
      assert Without(list, 0) == list[..0] + list[1..] == list[1..];
    } else {
      var k := FirstIndex(list[1..], id);
      RemoveFirstSpec(list[1..], id);
      assert FirstIndex(list, id) == k + 1;
      calc {
        RemoveFirst(list, id);
        [list[0]] + RemoveFirst(list[1..], id);
        [list[0]] + Without(list[1..], k);
        { ConsWithout(list, k); }
        Without(list, k + 1);
      }
    }
  }

  /** The largest Y of `s`, starting from `acc`, as `getMaxY`'s inner loop
      keeps it. */
  function LargestY(s: seq<DataPoint>, acc: real): real
    decreases |s|
  {
    if s == [] then acc
    else
      var m := LargestY(s[..|s| - 1], acc);
      if s[|s| - 1].y > m then s[|s| - 1].y else m
  }

  /** `LargestY` is the maximum of `acc` and the Y values of `s`: no value
      exceeds it and it is one of them. */
  lemma {:induction false} LargestYIsMaximum(s: seq<DataPoint>, acc: real)
    ensures LargestY(s, acc) >= acc
    ensures forall i :: 0 <= i < |s| ==> s[i].y <= LargestY(s, acc)
    ensures LargestY(s, acc) == acc || exists i :: 0 <= i < |s| && LargestY(s, acc) == s[i].y
    decreases |s|
  {
    if s != [] {
      var t := s[..|s| - 1];
      LargestYIsMaximum(t, acc);
      assert forall i :: 0 <= i < |t| ==> t[i] == s[i];
    }
  }

  /** The inner loop of `getMaxY` over the values of one series. */
  method LargestIn(values: seq<DataPoint>, acc: real) returns (largest: real)
    ensures largest == LargestY(values, acc)
  {
    largest := acc;
    var i := 0;
    while i < |values|
      invariant 0 <= i <= |values|
      invariant largest == LargestY(values[..i], acc)
    {
      assert values[..i + 1][..i] == values[..i];
      if values[i].y > largest {
        largest := values[i].y;
      }
      i := i + 1;
    }
    assert values[..i] == values;
  }

  /** The pinch-zoom of `onScale`: the window is scaled about its centre,
      its start pushed up to `minX` (giving `s2`) and a zero size replaced by
      `maxX` (giving `z2`). A window that then ends by `maxX` is kept; one
      running past `maxX` is moved back to end there with its size kept or,
      if that would start at or before `minX`, reset to [minX, maxX]. */
  function ScaledViewport(start: real, size: real, factor: real, minX: real, maxX: real): (r: (real, real))
    requires factor > 0.0
    ensures r.0 >= minX
    ensures r.0 + r.1 <= maxX
    ensures var c, z := start + size / 2.0, size / factor;
            var s2, z2 := (if c - z / 2.0 < minX then minX else c - z / 2.0), (if z == 0.0 then maxX else z);
            s2 + z2 <= maxX ==> r == (s2, z2)
    ensures var c, z := start + size / 2.0, size / factor;
            var s2, z2 := (if c - z / 2.0 < minX then minX else c - z / 2.0), (if z == 0.0 then maxX else z);
            s2 + z2 > maxX && maxX - z2 > minX ==> r == (maxX - z2, z2)
    ensures var c, z := start + size / 2.0, size / factor;
            var s2, z2 := (if c - z / 2.0 < minX then minX else c - z / 2.0), (if z == 0.0 then maxX else z);
            s2 + z2 > maxX && maxX - z2 <= minX ==> r == (minX, maxX - minX)
  {
    var center := start + size / 2.0;
    var size1 := size / factor;
    var start1 := center - size1 / 2.0;
    var start2 := if start1 < minX then minX else start1;
    var size2 := if size1 == 0.0 then maxX else size1;
    var overlap := start2 + size2 - maxX;
    if overlap > 0.0 then
      if start2 - overlap > minX then (start2 - overlap, size2)
      else (minX, maxX - minX)
    else (start2, size2)
  }

  /** A window zoomed out past both initial bounds is reset to them. */
  lemma ScaleResetsToInitialBounds()
    ensures ScaledViewport(-10.0, 100.0, 0.5, 0.0, 100.0) == (0.0, 100.0)
  {}

  /** The window between two fingers on `ACTION_POINTER_UP`: the positions,
      left one first, as fractions of the view width, mapped into the window
      [start, start + size]. */
  function ZoomTarget(start: real, size: real, x0: real, x1: real, width: real): (r: (real, real))
    requires width > 0.0
    ensures size >= 0.0 ==> r.0 <= r.1
    ensures size >= 0.0 && 0.0 <= x0 <= width && 0.0 <= x1 <= width ==> start <= r.0 && r.1 <= start + size
    ensures r.1 - r.0 == (if x0 < x1 then x1 - x0 else x0 - x1) / width * size
  {
    var (a, b) := Ordered(x0, x1);
    FractionsOfWindow(size, a, b, width);
    (Fraction(start, size, a, width), Fraction(start, size, b, width))
  }

  /** Two pointer positions, left one first. */
  function Ordered(x0: real, x1: real): (real, real) {
    if x0 < x1 then (x0, x1) else (x1, x0)
  }

  /** The point `x / width` of the way into the window [start, start + size]. */
  function Fraction(start: real, size: real, x: real, width: real): real
    requires width > 0.0
  {
    start + (x / width) * size
  }

  lemma FractionsOfWindow(size: real, a: real, b: real, width: real)
    requires width > 0.0 && a <= b
    ensures (b / width) * size - (a / width) * size == (b - a) / width * size
    ensures size >= 0.0 ==> (a / width) * size <= (b / width) * size
    ensures size >= 0.0 && 0.0 <= a && b <= width ==> 0.0 <= (a / width) * size && (b / width) * size <= size
  {
    assert (b / width) * size - (a / width) * size == (b / width - a / width) * size;
    if size >= 0.0 {
      assert a / width <= b / width;
    }
    if size >= 0.0 && 0.0 <= a && b <= width {
      assert 0.0 <= a / width && b / width <= 1.0;
    }
  }

  /** `ACTION_MOVE`: each pointer of the event already tracked gets its new
      position, in event order. */
  function ApplyMoves(m: map<int, EventData>, moves: seq<(int, EventData)>): (r: map<int, EventData>)
    ensures r.Keys == m.Keys
    ensures forall k :: k in m && (forall j :: 0 <= j < |moves| ==> moves[j].0 != k) ==> r[k] == m[k]
    decreases |moves|
  {
    if moves == [] then m
    else ApplyMoves(if moves[0].0 in m then m[moves[0].0 := moves[0].1] else m, moves[1..])
  }

  /** A custom label formatter; a result of `None` stands for `null`. */
  type LabelFormatter = (Double, bool) -> Option<string>

  /** `formatLabel` for a value of the axis shown from `lowest` to `highest`
      (the viewport for X, the Y range for Y): the custom formatter's text
      when it gives one; otherwise an X value is shown as a date from three
      days of range on, a date and time from one day on, a time of day below
      that, and a Y value as its `(int)` cast. */
  function FormatLabel(formatter: Option<LabelFormatter>, lowest: real, highest: real, value: Double, isValueX: bool): (l: Label)
    ensures formatter.Some? && formatter.value(value, isValueX).Some? ==>
      l == Text(formatter.value(value, isValueX).value)
    ensures (formatter.None? || formatter.value(value, isValueX).None?) && isValueX ==>
      (l.DateOnly? || l.DateAndTime? || l.TimeOfDay?) && l.millis == LongOf(value)
      && (l.DateOnly? <==> highest - lowest >= (3 * DAY) as real)
      && (l.TimeOfDay? <==> highest - lowest < DAY as real)
    ensures (formatter.None? || formatter.value(value, isValueX).None?) && !isValueX ==>
      l == Whole(IntOf(value))
  {
    if formatter.Some? && formatter.value(value, isValueX).Some? then
      Text(formatter.value(value, isValueX).value)
    else if isValueX then
      var span := highest - lowest;
      if span >= (3 * DAY) as real then DateOnly(LongOf(value))
      else if span >= DAY as real && span <= (3 * DAY) as real then DateAndTime(LongOf(value))
      else TimeOfDay(LongOf(value))
    else Whole(IntOf(value))
  }

  /** The `n + 1` labels of an axis from `min` to `max`: label `i` shows
      the value `i / n` of the way. */
  function SpreadLabels(formatter: Option<LabelFormatter>, min: real, max: real, n: int, isValueX: bool): (r: seq<Label>)
    requires n >= -1
    ensures |r| == n + 1
  {
    seq(n + 1, i requires 0 <= i <= n => FormatLabel(formatter, min, max, Spread(min, max, i, n), isValueX))
  }

  /** With two labels or more the first shows `min` and the last `max`. */
  lemma SpreadLabelsEnds(formatter: Option<LabelFormatter>, min: real, max: real, n: int, isValueX: bool)
    requires n >= 1
    ensures var r := SpreadLabels(formatter, min, max, n, isValueX);
            r[0] == FormatLabel(formatter, min, max, Finite(min), isValueX)
            && r[n] == FormatLabel(formatter, min, max, Finite(max), isValueX)
  {
    var r := SpreadLabels(formatter, min, max, n, isValueX);
    assert r[0] == FormatLabel(formatter, min, max, Spread(min, max, 0, n), isValueX);
    assert r[n] == FormatLabel(formatter, min, max, Spread(min, max, n, n), isValueX);
  }

  /** A single label has no step to divide by: it shows `0.0 / 0`, NaN. */
  lemma SingleLabelIsNaN(formatter: Option<LabelFormatter>, min: real, max: real, isValueX: bool)
    ensures SpreadLabels(formatter, min, max, 0, isValueX) == [FormatLabel(formatter, min, max, NaN, isValueX)]
  {
    var r := SpreadLabels(formatter, min, max, 0, isValueX);
    assert r[0] == FormatLabel(formatter, min, max, Spread(min, max, 0, 0), isValueX);
  }

  /** A sequence back to front. */
  function Reversed<T>(s: seq<T>): (r: seq<T>)
    ensures |r| == |s|
  {
    seq(|s|, i requires 0 <= i < |s| => s[|s| - 1 - i])
  }

  /** Reversing twice gives the sequence back. */
  lemma ReversedTwice<T>(s: seq<T>)
    ensures Reversed(Reversed(s)) == s
  {
    var r := Reversed(Reversed(s));
    forall i | 0 <= i < |s| ensures r[i] == s[i] {
      assert Reversed(s)[|s| - 1 - i] == s[i];
    }
  }

  /** The viewport and the two label counts of the style. */
  datatype Axes = Axes(start: real, size: real, horizontal: int, vertical: int)

  /** The effect of `formatHorLabels` on the viewport and the label counts,
      by the plan `p` for the viewport of `a`: nothing below ten minutes but
      the vertical count 6; otherwise the snapped window and its label count,
      unless the snapped window is reversed and `setViewPort` refuses it (the
      thirteen-day branch has then set the count to 7 only). */
  function PlanApplied(p: Plan, a: Axes): (r: (Outcome, Axes))
    ensures r.0 == Done || r.0 == IllegalArgument
    ensures r.0 == Done ==> r.1.vertical == 6
    ensures p.Snapped? && r.0 == Done ==>
      r.1.size >= 0.0 && r.1.start == p.start as real && r.1.start + r.1.size == p.end as real && r.1.horizontal == p.labels
    ensures r.0 == IllegalArgument ==>
      p.Snapped? && p.end < p.start && r.1.start == a.start && r.1.size == a.size && r.1.vertical == a.vertical
    ensures p.Unsnapped? ==> r.1.start == a.start && r.1.size == a.size && r.1.horizontal == a.horizontal
  {
    match p
    case Unsnapped => (Done, a.(vertical := 6))
    case Snapped(b, s, e, l) =>
      if s <= e then (Done, Axes(s as real, (e - s) as real, l, 6))
      else (IllegalArgument, a.(horizontal := if b == ThirteenDays then 7 else l))
  }

  class GraphView {
    var viewportStart: real
    var viewportSize: real
    var initialStart: real
    var initialEnd: real
    var graphSeries: seq<Series>
    var horlabels: Option<seq<Label>>
    var verlabels: Option<seq<Label>>
    var staticHorizontalLabels: bool
    var staticVerticalLabels: bool
    var labelTextHeight: Option<int>
    var horLabelTextWidth: Option<int>
    var verLabelTextWidth: Option<int>
    var scrollable: bool
    var scalable: bool
    var scaleDetectorCreated: bool
    var manualYAxis: bool
    var manualMaxYValue: real
    var manualMinYValue: real
    /** The label counts of the `GraphViewStyle`. */
    var numHorizontalLabels: int
    var numVerticalLabels: int
    /** The touch state of the content view. */
    var eventDataMap: map<int, EventData>
    var viewPStart: real
    var viewPEnd: real
    var clickedOnce: bool
    /** The custom label formatter: a result of `None` stands for `null`.
        Nothing in `GraphView` assigns the field, so it is `None` for every
        view that class builds; the model takes it as a parameter so that the
        formatter branch of `formatLabel` is stated too. */
    const customLabelFormatter: Option<LabelFormatter>

    /** The label counts and a measured label height are 32-bit values. */
    predicate Valid()
      reads this
    {
      IntMin <= numHorizontalLabels <= IntMax && IntMin <= numVerticalLabels <= IntMax
      && (labelTextHeight.Some? ==> IntMin <= labelTextHeight.value <= IntMax)
    }

    constructor (formatter: Option<LabelFormatter>, horizontalLabels: int, verticalLabels: int)
      requires IntMin <= horizontalLabels <= IntMax && IntMin <= verticalLabels <= IntMax
      ensures Valid()
      ensures viewportStart == 0.0 && viewportSize == 0.0 && initialStart == 0.0 && initialEnd == 0.0
      ensures graphSeries == [] && horlabels == None && verlabels == None
      ensures !staticHorizontalLabels && !staticVerticalLabels
      ensures labelTextHeight == None && horLabelTextWidth == None && verLabelTextWidth == None
      ensures !scrollable && !scalable && !scaleDetectorCreated && !manualYAxis
      ensures numHorizontalLabels == horizontalLabels && numVerticalLabels == verticalLabels
      ensures eventDataMap == map[] && !clickedOnce
      ensures customLabelFormatter == formatter
    {
      viewportStart, viewportSize, initialStart, initialEnd := 0.0, 0.0, 0.0, 0.0;
      graphSeries := [];
      horlabels, verlabels := None, None;
      staticHorizontalLabels, staticVerticalLabels := false, false;
      labelTextHeight, horLabelTextWidth, verLabelTextWidth := None, None, None;
      scrollable, scalable, scaleDetectorCreated := false, false, false;
      manualYAxis, manualMaxYValue, manualMinYValue := false, 0.0, 0.0;
      numHorizontalLabels, numVerticalLabels := horizontalLabels, verticalLabels;
      eventDataMap := map[];
      viewPStart, viewPEnd := 0.0, 0.0;
      clickedOnce := false;
      customLabelFormatter := formatter;
    }

    /** Cached labels are dropped unless they are static. */
    twostate predicate LabelsInvalidated()
      reads this
    {
      horlabels == (if staticHorizontalLabels then old(horlabels) else None)
      && verlabels == (if staticVerticalLabels then old(verlabels) else None)
    }

    // ---------------------------------------------------------------
    // Viewport

    /** `setViewPort`: a negative size is refused and nothing changes;
        otherwise the viewport is exactly the one given. */
    method SetViewPort(start: real, size: real) returns (o: Outcome)
      modifies this`viewportStart, this`viewportSize
      ensures size < 0.0 ==> o == IllegalArgument && viewportStart == old(viewportStart) && viewportSize == old(viewportSize)
      ensures size >= 0.0 ==> o == Done && viewportStart == start && viewportSize == size
    {
      if size < 0.0 {
        return IllegalArgument;
      }
      viewportStart, viewportSize := start, size;
      o := Done;
    }

    method SetViewportStart(start: real)
      modifies this`viewportStart
      ensures viewportStart == start
    {
      viewportStart := start;
    }

    method SetViewportSize(size: real)
      modifies this`viewportSize
      ensures viewportSize == size
    {
      viewportSize := size;
    }

    method SetInitialXBounds(start: real, end: real)
      modifies this`initialStart, this`initialEnd
      ensures initialStart == start && initialEnd == end
    {
      initialStart, initialEnd := start, end;
    }

    /** `onMoveGesture`: with a viewport set (non-zero size) the window
        becomes [vpStart, vpEnd] and the cached labels go; the fields are
        assigned before `setViewPort` refuses a reversed window, so they keep
        it then, and the caches stay. With no viewport nothing changes. */
    method OnMoveGesture(vpStart: real, vpEnd: real) returns (o: Outcome)
      modifies this`viewportStart, this`viewportSize, this`horlabels, this`verlabels
      ensures old(viewportSize) == 0.0 ==>
        o == Done && viewportStart == old(viewportStart) && viewportSize == 0.0
        && horlabels == old(horlabels) && verlabels == old(verlabels)
      ensures old(viewportSize) != 0.0 ==>
        viewportStart == vpStart && viewportStart + viewportSize == vpEnd
        && (o == Done <==> vpStart <= vpEnd) && (o == Done || o == IllegalArgument)
        && (if o == Done then LabelsInvalidated() else horlabels == old(horlabels) && verlabels == old(verlabels))
    {
      o := Done;
      if viewportSize != 0.0 {
        viewportStart := vpStart;
        viewportSize := vpEnd - vpStart;
        o := SetViewPort(viewportStart, viewportSize);
        if o != Done {
          return;
        }
        if !staticHorizontalLabels {
          horlabels := None;
        }
        if !staticVerticalLabels {
          verlabels := None;
        }
      }
    }

    /** `getMaxX`: the end of the viewport when one is set and asked for,
        otherwise the initial end (not the end of the data). */
    function MaxX(ignoreViewport: bool): (r: real)
      reads this
      ensures ignoreViewport || viewportSize == 0.0 ==> r == initialEnd
      ensures !ignoreViewport && viewportSize != 0.0 ==> r == viewportStart + viewportSize
    {
      if !ignoreViewport && viewportSize != 0.0 then viewportStart + viewportSize else initialEnd
    }

    /** `getMinX`: the start of the viewport when one is set and asked for,
        otherwise the initial start. */
    function MinX(ignoreViewport: bool): (r: real)
      reads this
      ensures ignoreViewport || viewportSize == 0.0 ==> r == initialStart
      ensures !ignoreViewport && viewportSize != 0.0 ==> r == viewportStart
    {
      if !ignoreViewport && viewportSize != 0.0 then viewportStart else initialStart
    }

    /** `scrollToEnd`: refused unless scrollable; otherwise the window keeps
        its size and ends at the initial end, and the cached labels go (the
        measured sizes stay). */
    method ScrollToEnd() returns (o: Outcome)
      modifies this`viewportStart, this`horlabels, this`verlabels
      ensures !scrollable ==> o == IllegalState && unchanged(this)
      ensures scrollable ==> o == Done && viewportStart + viewportSize == initialEnd && LabelsInvalidated()
    {
      if !scrollable {
        return IllegalState;
      }
      var max := MaxX(true);
      viewportStart := max - viewportSize;
      if !staticVerticalLabels {
        verlabels := None;
      }
      if !staticHorizontalLabels {
        horlabels := None;
      }
      o := Done;
    }

    /** `setScalable`: turning it on the first time installs the scale
        detector and makes the view scrollable. */
    method SetScalable(b: bool)
      modifies this`scalable, this`scrollable, this`scaleDetectorCreated
      ensures scalable == b
      ensures scaleDetectorCreated == (old(scaleDetectorCreated) || b)
      ensures scrollable == (old(scrollable) || (b && !old(scaleDetectorCreated)))
    {
      scalable := b;
      if b && !scaleDetectorCreated {
        scrollable := true;
        scaleDetectorCreated := true;
      }
    }

    method SetScrollable(b: bool)
      modifies this`scrollable
      ensures scrollable == b
    {
      scrollable := b;
    }

    /** The `onScale` listener: the viewport becomes the scaled window,
        clamped to the initial bounds, and everything cached is redrawn. */
    method OnScale(factor: real)
      requires factor > 0.0
      modifies this`viewportStart, this`viewportSize, this`horlabels, this`verlabels
      modifies this`labelTextHeight, this`horLabelTextWidth, this`verLabelTextWidth
      ensures (viewportStart, viewportSize)
           == ScaledViewport(old(viewportStart), old(viewportSize), factor, initialStart, initialEnd)
      ensures viewportStart >= initialStart && viewportStart + viewportSize <= initialEnd
      ensures Redrawn()
    {
      var center := viewportStart + viewportSize / 2.0;
      viewportSize := viewportSize / factor;
      viewportStart := center - viewportSize / 2.0;
      var minX := MinX(true);
      if viewportStart < minX {
        viewportStart := minX;
      }
      var maxX := MaxX(true);
      if viewportSize == 0.0 {
        viewportSize := maxX;
      }
      var overlap := viewportStart + viewportSize - maxX;
      if overlap > 0.0 {
        if viewportStart - overlap > minX {
          viewportStart := viewportStart - overlap;
        } else {
          viewportStart := minX;
          viewportSize := maxX - viewportStart;
        }
      }
      RedrawAll();
    }

    // ---------------------------------------------------------------
    // Caches and series

    /** After `redrawAll`: labels dropped unless static, sizes unmeasured. */
    twostate predicate Redrawn()
      reads this
    {
      LabelsInvalidated()
      && labelTextHeight == None && horLabelTextWidth == None && verLabelTextWidth == None
    }

    /** `redrawAll`: static labels survive, generated ones and all measured
        sizes are dropped. */
    method RedrawAll()
      modifies this`horlabels, this`verlabels, this`labelTextHeight, this`horLabelTextWidth, this`verLabelTextWidth
      ensures Redrawn()
    {
      if !staticVerticalLabels {
        verlabels := None;
      }
      if !staticHorizontalLabels {
        horlabels := None;
      }
      labelTextHeight, horLabelTextWidth, verLabelTextWidth := None, None, None;
    }

    /** The label sizes measured while drawing. */
    method RecordTextMetrics(height: int, horWidth: int, verWidth: int)
      requires Valid() && IntMin <= height <= IntMax
      modifies this`labelTextHeight, this`horLabelTextWidth, this`verLabelTextWidth
      ensures labelTextHeight == Some(height) && horLabelTextWidth == Some(horWidth)
      ensures verLabelTextWidth == Some(verWidth) && Valid()
    {
      labelTextHeight, horLabelTextWidth, verLabelTextWidth := Some(height), Some(horWidth), Some(verWidth);
    }

    /** `setHorizontalLabels`: labels given become static, `null` returns to
        generated labels. */
    method SetHorizontalLabels(labels: Option<seq<string>>)
      modifies this`horlabels, this`staticHorizontalLabels
      ensures staticHorizontalLabels == labels.Some?
      ensures horlabels == if labels.Some? then Some(Texts(labels.value)) else None
    {
      staticHorizontalLabels := labels.Some?;
      horlabels := if labels.Some? then Some(Texts(labels.value)) else None;
    }

    /** `setVerticalLabels`, likewise. */
    method SetVerticalLabels(labels: Option<seq<string>>)
      modifies this`verlabels, this`staticVerticalLabels
      ensures staticVerticalLabels == labels.Some?
      ensures verlabels == if labels.Some? then Some(Texts(labels.value)) else None
    {
      staticVerticalLabels := labels.Some?;
      verlabels := if labels.Some? then Some(Texts(labels.value)) else None;
    }

    method AddSeries(s: Series)
      modifies this`graphSeries, this`horlabels, this`verlabels
      modifies this`labelTextHeight, this`horLabelTextWidth, this`verLabelTextWidth
      ensures graphSeries == old(graphSeries) + [s] && Redrawn()
    {
      graphSeries := graphSeries + [s];
      RedrawAll();
    }

    /** `removeSeries(GraphViewSeries)`: the first occurrence goes. */
    method RemoveSeries(s: Series)
      modifies this`graphSeries, this`horlabels, this`verlabels
      modifies this`labelTextHeight, this`horLabelTextWidth, this`verLabelTextWidth
      ensures graphSeries == RemoveFirst(old(graphSeries), s.id) && Redrawn()
      ensures graphSeries == Without(old(graphSeries), FirstIndex(old(graphSeries), s.id))
    {
      RemoveFirstSpec(graphSeries, s.id);
      graphSeries := RemoveFirst(graphSeries, s.id);
      RedrawAll();
    }

    /** `removeSeries(int)`: an index outside the list is refused; otherwise
        the series there is removed by identity, so its first occurrence
        goes (an earlier one when the same series was added twice). */
    method RemoveSeriesAt(index: int) returns (o: Outcome)
      modifies this`graphSeries, this`horlabels, this`verlabels
      modifies this`labelTextHeight, this`horLabelTextWidth, this`verLabelTextWidth
      ensures !(0 <= index < old(|graphSeries|)) ==> o == IndexOutOfBounds && unchanged(this)
      ensures 0 <= index < old(|graphSeries|) ==>
        o == Done && graphSeries == RemoveFirst(old(graphSeries), old(graphSeries[index]).id)
        && |graphSeries| == old(|graphSeries|) - 1 && Redrawn()
    {
      if index < 0 || index >= |graphSeries| {
        return IndexOutOfBounds;
      }
      FirstIndexFinds(graphSeries, graphSeries[index].id);
      RemoveFirstSpec(graphSeries, graphSeries[index].id);
      RemoveSeries(graphSeries[index]);
      o := Done;
    }

    /** `removeAllSeries`. */
    method RemoveAllSeries()
      modifies this`graphSeries, this`horlabels, this`verlabels
      modifies this`labelTextHeight, this`horLabelTextWidth, this`verLabelTextWidth
      ensures graphSeries == [] && Redrawn()
    {
      graphSeries := [];
      RedrawAll();
    }

    /** `setManualYAxisBounds`: the bounds are stored and the manual axis is
        switched on. */
    method SetManualYAxisBounds(max: real, min: real)
      modifies this`manualMaxYValue, this`manualMinYValue, this`manualYAxis
      ensures manualMaxYValue == max && manualMinYValue == min && manualYAxis
    {
      manualMaxYValue, manualMinYValue, manualYAxis := max, min, true;
    }

    method SetManualYAxis(b: bool)
      modifies this`manualYAxis
      ensures manualYAxis == b
    {
      manualYAxis := b;
    }

    // ---------------------------------------------------------------
    // Data windows and the Y axis

    /** The slice of series `idx` for the current viewport. */
    function Window(idx: int): seq<DataPoint>
      reads this
      requires 0 <= idx < |graphSeries|
    {
      WindowOf(graphSeries[idx].values, viewportStart, viewportSize)
    }

    /** `_values(idx)`: one forward scan, appending points from the viewport
        start on and stopping after the first one past its end, while points
        before it overwrite slot 0. */
    method Values(idx: int) returns (r: seq<DataPoint>)
      requires 0 <= idx < |graphSeries|
      ensures r == Window(idx)
    {
      var values := graphSeries[idx].values;
      if viewportStart == 0.0 && viewportSize == 0.0 {
        return values;
      }
      var lo, hi := viewportStart, viewportStart + viewportSize;
      var listData: seq<DataPoint> := [];
      var i := 0;
      while i < |values|
        invariant 0 <= i <= |values|
        invariant Scan(listData, values[i..], lo, hi) == Scan([], values, lo, hi)
      {
        assert values[i..][0] == values[i] && values[i..][1..] == values[i + 1..];
        ghost var before := if listData == [] then [values[i]] else [values[i]] + listData[1..];
        if values[i].x as real >= lo {
          if values[i].x as real > hi {
            listData := listData + [values[i]];
            break;
          } else {
            listData := listData + [values[i]];
          }
        } else {
          if listData == [] {
            listData := listData + [values[i]];
          }
          listData := [values[i]] + listData[1..];
          assert listData == before;
        }
        i := i + 1;
      }
      assert i == |values| ==> values[i..] == [];
      r := listData;
    }

    /** The largest Y over the windows of the first `k` series, starting from
        `Integer.MIN_VALUE`. */
    function LargestInWindows(k: int): (r: real)
      reads this
      requires 0 <= k <= |graphSeries|
      ensures r >= IntMin as real
    {
      if k == 0 then IntMin as real
      else
        var below := LargestInWindows(k - 1);
        LargestYIsMaximum(Window(k - 1), below);
        LargestY(Window(k - 1), below)
    }

    /** `LargestInWindows` is the maximum over the windows of the first `k`
        series: no Y in them exceeds it, and it is one of those Ys unless it
        is still `Integer.MIN_VALUE`. */
    lemma {:induction false} LargestInWindowsIsMaximum(k: int)
      requires 0 <= k <= |graphSeries|
      ensures forall j, i :: 0 <= j < k && 0 <= i < |Window(j)| ==> Window(j)[i].y <= LargestInWindows(k)
      ensures LargestInWindows(k) == IntMin as real
        || exists j, i :: 0 <= j < k && 0 <= i < |Window(j)| && LargestInWindows(k) == Window(j)[i].y
    {
      if k > 0 {
        LargestInWindowsIsMaximum(k - 1);
        LargestYIsMaximum(Window(k - 1), LargestInWindows(k - 1));
      }
    }

    /** The maximum `getMaxY` rounds: the manual one, or the data's. */
    function RawMaxY(): (r: real)
      reads this
      ensures manualYAxis ==> r == manualMaxYValue
      ensures !manualYAxis ==> r >= IntMin as real && (|graphSeries| == 0 ==> r == IntMin as real)
    {
      if manualYAxis then manualMaxYValue else LargestInWindows(|graphSeries|)
    }

    /** `getMaxY`: the largest Y in the windows of all series (or the manual
        maximum), rounded as `NiceMaxY` does. */
    method MaxY() returns (r: real)
      ensures r == NiceMaxY(RawMaxY())
      ensures r >= 5.0
    {
      var largest: real;
      if manualYAxis {
        largest := manualMaxYValue;
      } else {
        largest := IntMin as real;
        var i := 0;
        while i < |graphSeries|
          invariant 0 <= i <= |graphSeries|
          invariant largest == LargestInWindows(i)
        {
          var values := Values(i);
          largest := LargestIn(values, largest);
          i := i + 1;
        }
      }
      r := NiceMaxY(largest);
    }

    /** `getMinY`: always 0, whatever the data or the manual minimum. */
    function MinY(): (r: real)
      ensures r == 0.0
    {
      0.0
    }

    // ---------------------------------------------------------------
    // Labels

    /** The viewport and the label counts, which `formatHorLabels` changes. */
    function AxesState(): Axes
      reads this
    {
      Axes(viewportStart, viewportSize, numHorizontalLabels, numVerticalLabels)
    }

    /** The snapping of `formatHorLabels` for the window [curStart, curEnd]:
        the branch chosen by its span, the snapped end, the snapped start
        moved on by the retry loops, and the label count between them. */
    method SnapWindow(curStart: real, curEnd: real) returns (p: Plan)
      ensures IsPlanFor(p, curStart, curEnd)
      ensures p.Snapped? ==> 0 <= p.labels <= 8
    {
      var span := curEnd - curStart;
      var t1, t2 := Truncate(curEnd), Truncate(curStart);
      if span >= (13 * DAY) as real {
        var e, s := SnapToDay(t1), SnapToDay(t2);
        p := Snapped(ThirteenDays, s, e, NumLabels(DayOfYear(s), DayOfYear(e)));
        SnappedPlan(curStart, curEnd, ThirteenDays, s, s, e);
      } else if span >= (3 * DAY) as real {
        var e, s0 := SnapToDay(t1), SnapToDay(t2);
        var s, count := SettleDays(s0, DayOfYear(e));
        p := Snapped(ThreeDays, s, e, count);
        MovedByDays(s0, e);
        SnappedPlan(curStart, curEnd, ThreeDays, s0, s, e);
      } else if span >= (10 * MINUTE) as real {
        // the hour, quarter-hour and five-minute branches differ only in
        // their snapping, their bucket width and their retry step
        var b := BranchFor(span);
        var e, s0 := Snap(b, t1), Snap(b, t2);
        var s, count := SettleBuckets(s0, JavaDiv(e, Width(b)), Width(b), RetryStep(b));
        p := Snapped(b, s, e, count);
        MovedBySteps(b, s0, e);
        SnappedPlan(curStart, curEnd, b, s0, s, e);
      } else {
        p := Unsnapped;
        UnsnappedPlan(curStart, curEnd);
      }
    }

    /** `formatHorLabels`: the viewport is snapped as `SnapWindow` plans and
        the plan is applied. */
    method FormatHorLabels() returns (o: Outcome, p: Plan)
      requires Valid()
      modifies this`viewportStart, this`viewportSize, this`numHorizontalLabels, this`numVerticalLabels
      ensures IsPlanFor(p, old(viewportStart), old(viewportStart + viewportSize))
      ensures (o, AxesState()) == PlanApplied(p, old(AxesState()))
      ensures Valid()
    {
      p := SnapWindow(viewportStart, viewportStart + viewportSize);
      o := ApplyPlan(p);

    }

    /** The rest of `formatHorLabels`: the thirteen-day branch shows 7
        labels until the viewport is set, the others their count; finally the
        counts are the planned one and 6. */
    method ApplyPlan(p: Plan) returns (o: Outcome)
      requires Valid() && (p.Snapped? ==> 0 <= p.labels <= 8)
      modifies this`viewportStart, this`viewportSize, this`numHorizontalLabels, this`numVerticalLabels
      ensures (o, AxesState()) == PlanApplied(p, old(AxesState())) && Valid()
    {
      var calcNumLabels := numHorizontalLabels;
      if p.Snapped? {
        numHorizontalLabels := if p.branch == ThirteenDays then 7 else p.labels;
        o := SetViewPort(p.start as real, (p.end - p.start) as real);
        if o != Done {
          return;
        }
        calcNumLabels := p.labels;
      }
      o := Done;
      numHorizontalLabels := calcNumLabels;
      numVerticalLabels := 6;
    }

    /** The loop of `generateHorlabels`: slot `i` of the `n + 1` labels holds
        the X value `i / n` of the way from `min` to `max`. */
    method FillHorlabels(min: real, max: real, n: int) returns (labels: seq<Label>)
      requires n >= -1
      ensures labels == SpreadLabels(customLabelFormatter, min, max, n, true)
    {
      var a := new Label[n + 1](_ => Whole(0));
      var i := 0;
      while i <= n
        invariant 0 <= i <= n + 1
        invariant forall j :: 0 <= j < i ==> a[j] == FormatLabel(customLabelFormatter, min, max, Spread(min, max, j, n), true)
      {
        a[i] := FormatLabel(customLabelFormatter, min, max, Spread(min, max, i, n), true);
        i := i + 1;
      }
      labels := a[..];
    }

    /** `labels` are as many as the horizontal count, spread over the
        viewport from its start to its end. */
    predicate ShowsHorlabels(labels: seq<Label>)
      reads this
    {
      numHorizontalLabels >= 0
      && labels == SpreadLabels(customLabelFormatter, viewportStart, viewportStart + viewportSize, numHorizontalLabels - 1, true)
    }

    /** `generateHorlabels`: after `formatHorLabels`, as many labels as the
        horizontal count, evenly spread over the new viewport from its start
        to its end; a negative count is a negative array length. */
    method GenerateHorlabels() returns (o: Outcome, labels: seq<Label>, p: Plan)
      requires Valid()
      modifies this`viewportStart, this`viewportSize, this`numHorizontalLabels, this`numVerticalLabels
      ensures Valid()
      ensures IsPlanFor(p, old(viewportStart), old(viewportStart + viewportSize))
      ensures o != NegativeArraySize ==> (o, AxesState()) == PlanApplied(p, old(AxesState()))
      ensures o == NegativeArraySize ==> (Done, AxesState()) == PlanApplied(p, old(AxesState())) && numHorizontalLabels < 0
      ensures o == Done ==> ShowsHorlabels(labels)
    {
      labels := [];
      o, p := FormatHorLabels();
      if o != Done {
        return;
      }
      o, labels := SpreadHorlabels();
    }

    /** The labels of `generateHorlabels` for the viewport and the count as
        they are: an array of the count's length, so a negative count is a
        negative array length. */
    method SpreadHorlabels() returns (o: Outcome, labels: seq<Label>)
      requires Valid()
      ensures o == NegativeArraySize <==> numHorizontalLabels < 0
      ensures o == Done || o == NegativeArraySize
      ensures o == Done ==> ShowsHorlabels(labels)
    {
      labels := [];
      var numLabels := Wrap32(numHorizontalLabels - 1);
      CountRoundTrip(numHorizontalLabels);
      if Wrap32(numLabels + 1) < 0 {
        return NegativeArraySize, [];
      }
      labels := FillHorlabels(viewportStart, viewportStart + viewportSize, numLabels);
      o := Done;
    }

    /** The number of vertical labels less one: the style's count less one
        (which wraps to `Integer.MAX_VALUE` for `Integer.MIN_VALUE`), or, when
        that is negative, the graph height over three label heights, where a
        missing height is a null dereference. */
    function VerticalSteps(graphheight: real): (r: Option<int>)
      reads this
      requires Valid()
      ensures numVerticalLabels >= 1 ==> r == Some(numVerticalLabels - 1)
      ensures numVerticalLabels == IntMin ==> r == Some(IntMax)
      ensures IntMin < numVerticalLabels < 1 ==> (r.None? <==> labelTextHeight.None?)
      ensures IntMin < numVerticalLabels < 1 && labelTextHeight == Some(0) ==>
        r == Some(if graphheight > 0.0 then IntMax else if graphheight < 0.0 then IntMin else 0)
      ensures r.Some? ==> IntMin <= r.value <= IntMax
    {
      WrapEdges();
      var n := Wrap32(numVerticalLabels - 1);
      if n >= 0 then Some(n)
      else if labelTextHeight.None? then None
      else
        ThreeHeightsZeroOnlyForZero(labelTextHeight.value);
        var d := Wrap32(labelTextHeight.value * 3);
        // a float divided by zero is an infinity of the dividend's sign, or
        // NaN for 0/0, and the `(int)` cast takes these to the extremes or 0
        if d == 0 then Some(if graphheight > 0.0 then IntMax else if graphheight < 0.0 then IntMin else 0)
        else Some(ToInt32(graphheight / d as real))
    }

    /** The loop of `generateVerlabels`: the value `i / n` of the way from
        `min` to `max` goes to slot `n - i`, so the top of the axis comes
        first. */
    method FillVerlabels(min: real, max: real, n: int) returns (labels: seq<Label>)
      requires n >= -1
      ensures labels == Reversed(SpreadLabels(customLabelFormatter, min, max, n, false))
    {
      var a := new Label[n + 1](_ => Whole(0));
      var i := 0;
      while i <= n
        invariant 0 <= i <= n + 1
        invariant forall j :: 0 <= j < i ==> a[n - j] == FormatLabel(customLabelFormatter, min, max, Spread(min, max, j, n), false)
      {
        a[n - i] := FormatLabel(customLabelFormatter, min, max, Spread(min, max, i, n), false);
        i := i + 1;
      }
      labels := a[..];
      assert forall k :: 0 <= k <= n ==> labels[k] == a[n - (n - k)];
    }

    /** `generateVerlabels`: labels from 0 (`getMinY`) up to `getMaxY`, the
        highest first; the fix of a degenerate range never applies, as the
        top is at least 5. A step count of `Integer.MAX_VALUE` or below -1 is
        a negative array length. */
    method GenerateVerlabels(graphheight: real) returns (o: Outcome, labels: seq<Label>)
      requires Valid()
      ensures VerticalSteps(graphheight).None? ==> o == NullPointer
      ensures VerticalSteps(graphheight).Some? ==>
        var n := VerticalSteps(graphheight).value;
        (o == NegativeArraySize <==> n == IntMax || n < -1)
        && (o == Done || o == NegativeArraySize)
        && (o == Done ==> ShowsVerlabels(labels, n))
    {
      labels := [];
      var steps := VerticalSteps(graphheight);
      if steps.None? {
        return NullPointer, [];
      }
      var numLabels := steps.value;
      WrapEdges();
      if Wrap32(numLabels + 1) < 0 {
        return NegativeArraySize, [];
      }
      var max := MaxY();
      DegenerateRangeUnreachable(max);
      var (lo, hi) := NormalizeYRange(MinY(), max);
      assert lo == 0.0 && hi == max;
      labels := FillVerlabels(lo, hi, numLabels);
      o := Done;
    }

    /** `labels` are the vertical labels for `n` steps from 0 up to the
        rounded maximum, the highest first. */
    predicate ShowsVerlabels(labels: seq<Label>, n: int)
      reads this
    {
      n >= -1 && labels == Reversed(SpreadLabels(customLabelFormatter, 0.0, NiceMaxY(RawMaxY()), n, false))
    }

    // ---------------------------------------------------------------
    // Touch

    /** `ACTION_DOWN` and `ACTION_POINTER_DOWN`: a pointer is recorded while
        fewer than two are. */
    method PointerDown(id: int, x: real, y: real)
      modifies this`eventDataMap
      ensures eventDataMap == if |old(eventDataMap)| < 2 then old(eventDataMap)[id := EventData(x, y)] else old(eventDataMap)
      ensures |old(eventDataMap)| <= 2 ==> |eventDataMap| <= 2
    {
      if |eventDataMap| < 2 {
        MapUpdateSize(eventDataMap, id, EventData(x, y));
        eventDataMap := eventDataMap[id := EventData(x, y)];
      }
    }

    /** `ACTION_MOVE`: the recorded pointers among the event's take their new
        positions. */
    method PointerMove(moves: seq<(int, EventData)>)
      modifies this`eventDataMap
      ensures eventDataMap == ApplyMoves(old(eventDataMap), moves)
      ensures eventDataMap.Keys == old(eventDataMap).Keys
    {
      var i := 0;
      while i < |moves|
        invariant 0 <= i <= |moves|
        invariant ApplyMoves(eventDataMap, moves[i..]) == ApplyMoves(old(eventDataMap), moves)
      {
        assert moves[i..][1..] == moves[i + 1..];
        var (id, data) := moves[i];
        if id in eventDataMap {
          eventDataMap := eventDataMap[id := data];
        }
        i := i + 1;
      }
    }

    /** `ACTION_UP`: the recorded pointers are forgotten. */
    method PointerRelease()
      modifies this`eventDataMap
      ensures eventDataMap == map[]
    {
      eventDataMap := map[];
    }

    /** The window between the two recorded pointers (ids 0 and 1), mapped
        into the current viewport, goes to `viewPStart` and `viewPEnd`. */
    method PinchWindow(viewWidth: real)
      requires viewWidth > 0.0 && 0 in eventDataMap && 1 in eventDataMap
      modifies this`viewPStart, this`viewPEnd
      ensures (viewPStart, viewPEnd)
           == ZoomTarget(viewportStart, viewportSize, eventDataMap[0].x, eventDataMap[1].x, viewWidth)
    {
      var tempViewPEnd := viewportSize + viewportStart;
      var tempViewPStart := viewportStart;
      ghost var (lo, hi) := Ordered(eventDataMap[0].x, eventDataMap[1].x);
      if eventDataMap[0].x < eventDataMap[1].x {
        viewPStart := eventDataMap[0].x;
        viewPEnd := eventDataMap[1].x;
      } else {
        viewPEnd := eventDataMap[0].x;
        viewPStart := eventDataMap[1].x;
      }
      assert viewPStart == lo && viewPEnd == hi;
      viewPEnd := viewPEnd / viewWidth;
      viewPStart := viewPStart / viewWidth;
      var vpDiff := tempViewPEnd - tempViewPStart;
      assert vpDiff == viewportSize;
      viewPEnd := tempViewPStart + viewPEnd * vpDiff;
      viewPStart := tempViewPStart + viewPStart * vpDiff;
      assert viewPStart == Fraction(viewportStart, viewportSize, lo, viewWidth);
      assert viewPEnd == Fraction(viewportStart, viewportSize, hi, viewWidth);
    }

    /** The label caches are as they were. */
    twostate predicate CachesKept()
      reads this
    {
      horlabels == old(horlabels) && verlabels == old(verlabels)
    }

    /** The caches after `onMoveGesture` confirmed the window it was given:
        dropped unless static when the viewport was set, kept otherwise. */
    twostate predicate MoveConfirmed()
      reads this
    {
      if viewportSize != 0.0 then LabelsInvalidated() else CachesKept()
    }

    /** The end of a pinch zoom to the window `w`. A reversed `w` (from a
        negative viewport size) is refused with the viewport unchanged.
        Otherwise the viewport moves to `w`; without series 0 that is an
        index error. When series 0 shows fewer than 8 points there the old
        viewport is restored, which is refused again for a negative old
        size. Otherwise `onMoveGesture` confirms the viewport and the caches
        follow it. */
    twostate predicate PinchApplied(w: (real, real), o: Outcome)
      reads this
    {
      if w.1 - w.0 < 0.0 then
        o == IllegalArgument && viewportStart == old(viewportStart) && viewportSize == old(viewportSize) && CachesKept()
      else if |graphSeries| == 0 then
        o == IndexOutOfBounds && viewportStart == w.0 && viewportSize == w.1 - w.0 && CachesKept()
      else if |WindowOf(graphSeries[0].values, w.0, w.1 - w.0)| < 8 then
        if old(viewportSize) < 0.0 then
          o == IllegalArgument && viewportStart == w.0 && viewportSize == w.1 - w.0 && CachesKept()
        else
          o == Done && viewportStart == old(viewportStart) && viewportSize == old(viewportSize) && MoveConfirmed()
      else
        o == Done && viewportStart == w.0 && viewportSize == w.1 - w.0 && MoveConfirmed()
    }

    /** The zoom of `ACTION_POINTER_UP` once both pointers are recorded: to
        the window between them, or back to the old viewport when series 0
        shows too few points there, confirmed by `onMoveGesture`. */
    method Pinch(viewWidth: real) returns (o: Outcome)
      requires viewWidth > 0.0 && 0 in eventDataMap && 1 in eventDataMap
      modifies this`viewportStart, this`viewportSize, this`horlabels, this`verlabels
      modifies this`viewPStart, this`viewPEnd
      ensures PinchApplied(ZoomTarget(old(viewportStart), old(viewportSize), eventDataMap[0].x, eventDataMap[1].x, viewWidth), o)
    {
      ghost var w := ZoomTarget(viewportStart, viewportSize, eventDataMap[0].x, eventDataMap[1].x, viewWidth);
      var tempViewPEnd := viewportSize + viewportStart;
      var tempViewPStart := viewportStart;
      PinchWindow(viewWidth);
      assert (viewPStart, viewPEnd) == w;
      o := SetViewPort(viewPStart, viewPEnd - viewPStart);
      if o != Done {
        assert w.1 - w.0 < 0.0;
        return;
      }
      assert viewportStart == w.0 && viewportSize == w.1 - w.0;
      if |graphSeries| == 0 {
        return IndexOutOfBounds;
      }
      var values := Values(0);
      assert |values| == |WindowOf(graphSeries[0].values, w.0, w.1 - w.0)|;
      if |values| < 8 {
        o := SetViewPort(tempViewPStart, tempViewPEnd - tempViewPStart);
        if o != Done {
          assert old(viewportSize) < 0.0;
          return;
        }
        viewPStart := tempViewPStart;
        viewPEnd := tempViewPEnd;
      }
      assert viewPStart <= viewPEnd && viewPStart == viewportStart && viewPEnd - viewPStart == viewportSize;
      o := OnMoveGesture(viewPStart, viewPEnd);
      assert o == Done;
    }

    /** `ACTION_POINTER_UP`: with two recorded pointers the viewport zooms
        to the window between them (ids other than 0 and 1 are a null
        dereference); the pointers are forgotten unless the zoom fails. */
    method PointerUp(viewWidth: real) returns (o: Outcome)
      requires viewWidth > 0.0
      modifies this`viewportStart, this`viewportSize, this`horlabels, this`verlabels
      modifies this`eventDataMap, this`viewPStart, this`viewPEnd
      ensures |old(eventDataMap)| != 2 ==>
        o == Done && eventDataMap == map[] && viewportStart == old(viewportStart) && viewportSize == old(viewportSize)
        && CachesKept()
      ensures |old(eventDataMap)| == 2 && !(0 in old(eventDataMap) && 1 in old(eventDataMap)) ==>
        o == NullPointer && unchanged(this)
      ensures |old(eventDataMap)| == 2 && 0 in old(eventDataMap) && 1 in old(eventDataMap) ==>
        PinchApplied(ZoomTarget(old(viewportStart), old(viewportSize), old(eventDataMap)[0].x, old(eventDataMap)[1].x, viewWidth), o)
        && eventDataMap == (if o == Done then map[] else old(eventDataMap))
    {
      o := Done;
      if |eventDataMap| == 2 {
        if !(0 in eventDataMap && 1 in eventDataMap) {
          return NullPointer;
        }
        o := Pinch(viewWidth);
        if o != Done {
          return;
        }
      }
      eventDataMap := map[];
    }

    /** The click listener: a second click within the double-tap delay
        forgets the pointers and moves to the initial bounds. */
    method OnClick() returns (o: Outcome)
      modifies this`clickedOnce, this`eventDataMap, this`viewportStart, this`viewportSize, this`horlabels, this`verlabels
      ensures clickedOnce
      ensures !old(clickedOnce) ==>
        o == Done && eventDataMap == old(eventDataMap)
        && viewportStart == old(viewportStart) && viewportSize == old(viewportSize) && CachesKept()
      ensures old(clickedOnce) ==> eventDataMap == map[]
      ensures old(clickedOnce) && old(viewportSize) == 0.0 ==>
        o == Done && viewportStart == old(viewportStart) && viewportSize == 0.0 && CachesKept()
      ensures old(clickedOnce) && old(viewportSize) != 0.0 ==>
        viewportStart == initialStart && viewportStart + viewportSize == initialEnd
        && (o == Done <==> initialStart <= initialEnd) && (o == Done || o == IllegalArgument)
        && (if o == Done then LabelsInvalidated() else CachesKept())
    {
      o := Done;
      if clickedOnce {
        eventDataMap := map[];
        o := OnMoveGesture(initialStart, initialEnd);
        if o != Done {
          return;
        }
      }
      clickedOnce := true;
    }

    /** The delayed task posted by a click. */
    method ClickTimerFired()
      modifies this`clickedOnce
      ensures !clickedOnce
    {
      clickedOnce := false;
    }
  }

  lemma MapUpdateSize(m: map<int, EventData>, k: int, v: EventData)
    ensures |m[k := v]| <= |m| + 1
  {
    if k in m {
      assert m[k := v].Keys == m.Keys;
    } else {
      assert m[k := v].Keys == m.Keys + {k};
    }
  }

  /** Three times a 32-bit label height, wrapped, is zero only for a zero
      height: 2^32 is not a multiple of 3. */
  lemma ThreeHeightsZeroOnlyForZero(h: int)
    requires IntMin <= h <= IntMax
    ensures Wrap32(h * 3) == 0 <==> h == 0
  {
  }

  /** The range `generateVerlabels` spreads its labels over is never
      degenerate: it runs from `getMinY`, 0, to a top of at least 5, so the
      widening of a single value is dead code. */
  lemma DegenerateRangeUnreachable(max: real)
    requires max >= 5.0
    ensures NormalizeYRange(0.0, max) == (0.0, max)
  {}
}
