/** The data points of a series and the slice of them that a viewport shows,
    with one extra point on each side for drawing across the edges. */
module Windowing {

  /** `GraphViewData`: X in epoch milliseconds (a `long`), Y a double. */
  datatype DataPoint = DataPoint(x: int, y: real)

  /** Series are handed in ordered by X; nothing re-sorts them. */
  predicate Sorted(s: seq<DataPoint>) {
    forall i, j :: 0 <= i < j < |s| ==> s[i].x <= s[j].x
  }

  /** The forward scan of `_values`, continued from the list `acc` built so
      far over the rest `s` of the series: a point at or after `lo` is
      appended and, when it lies past `hi`, ends the scan; a point before
      `lo` overwrites slot 0 (after creating it if the list is empty). */
  function Scan(acc: seq<DataPoint>, s: seq<DataPoint>, lo: real, hi: real): (r: seq<DataPoint>)
    ensures |r| <= |acc| + |s|
    ensures acc != [] ==> r != []
    decreases |s|
  {
    if s == [] then acc
    else if s[0].x as real >= lo then
      if s[0].x as real > hi then acc + [s[0]] else Scan(acc + [s[0]], s[1..], lo, hi)
    else
      Scan(if acc == [] then [s[0]] else [s[0]] + acc[1..], s[1..], lo, hi)
  }

  /** The slice `_values` returns for a series: the whole series when both
      the viewport start and size are 0, otherwise the scan over
      [start, start + size]. */
  function WindowOf(values: seq<DataPoint>, start: real, size: real): (r: seq<DataPoint>)
    ensures start == 0.0 && size == 0.0 ==> r == values
    ensures |r| <= |values|
    ensures values != [] ==> r != []
  {
    if start == 0.0 && size == 0.0 then values else Scan([], values, start, start + size)
  }

  /** The last point before `lo`, if any. */
  function LastBelow(s: seq<DataPoint>, lo: real): (r: seq<DataPoint>)
    ensures |r| <= 1
  {
    if s == [] then []
    else
      var rest := LastBelow(s[1..], lo);
      if rest != [] then rest
      else if s[0].x as real < lo then [s[0]]
      else []
  }

  /** The points inside [lo, hi], in series order. */
  function Inside(s: seq<DataPoint>, lo: real, hi: real): (r: seq<DataPoint>)
    ensures |r| <= |s|
  {
    if s == [] then []
    else if lo <= s[0].x as real <= hi then [s[0]] + Inside(s[1..], lo, hi)
    else Inside(s[1..], lo, hi)
  }

  /** The first point after `hi`, if any. */
  function FirstAbove(s: seq<DataPoint>, hi: real): (r: seq<DataPoint>)
    ensures |r| <= 1
  {
    if s == [] then []
    else if s[0].x as real > hi then [s[0]]
    else FirstAbove(s[1..], hi)
  }

  /** `LastBelow` is empty exactly when no point lies before `lo`, and
      otherwise is a point before `lo` with none after it before `lo`. */
  lemma {:induction false} LastBelowSpec(s: seq<DataPoint>, lo: real)
    ensures LastBelow(s, lo) == [] <==> forall i :: 0 <= i < |s| ==> s[i].x as real >= lo
    ensures LastBelow(s, lo) != [] ==>
      exists i :: 0 <= i < |s| && s[i] == LastBelow(s, lo)[0] && s[i].x as real < lo
        && forall j :: i < j < |s| ==> s[j].x as real >= lo
    decreases |s|
  {
    if s != [] {
      LastBelowSpec(s[1..], lo);
      if LastBelow(s[1..], lo) != [] {
        var i :| 0 <= i < |s[1..]| && s[1..][i] == LastBelow(s[1..], lo)[0] && s[1..][i].x as real < lo
          && forall j :: i < j < |s[1..]| ==> s[1..][j].x as real >= lo;
        assert s[i + 1] == LastBelow(s, lo)[0];
        assert forall j :: i + 1 < j < |s| ==> s[j] == s[1..][j - 1];
      } else {
        assert forall j :: 0 < j < |s| ==> s[j] == s[1..][j - 1];
      }
    }
  }

  /** `FirstAbove` is empty exactly when no point lies past `hi`, and
      otherwise is a point past `hi` with none before it past `hi`. */
  lemma {:induction false} FirstAboveSpec(s: seq<DataPoint>, hi: real)
    ensures FirstAbove(s, hi) == [] <==> forall i :: 0 <= i < |s| ==> s[i].x as real <= hi
    ensures FirstAbove(s, hi) != [] ==>
      exists i :: 0 <= i < |s| && s[i] == FirstAbove(s, hi)[0] && s[i].x as real > hi
        && forall j :: 0 <= j < i ==> s[j].x as real <= hi
    decreases |s|
  {
    if s != [] && s[0].x as real <= hi {
      FirstAboveSpec(s[1..], hi);
      assert forall j :: 0 < j < |s| ==> s[j] == s[1..][j - 1];
      if FirstAbove(s[1..], hi) != [] {
        var i :| 0 <= i < |s[1..]| && s[1..][i] == FirstAbove(s[1..], hi)[0] && s[1..][i].x as real > hi
          && forall j :: 0 <= j < i ==> s[1..][j].x as real <= hi;
        assert s[i + 1] == FirstAbove(s, hi)[0];
      }
    }
  }

  /** `Inside` keeps exactly the points in [lo, hi]. */
  lemma {:induction false} InsideSpec(s: seq<DataPoint>, lo: real, hi: real)
    ensures forall p :: p in Inside(s, lo, hi) <==> p in s && lo <= p.x as real <= hi
    decreases |s|
  {
    if s != [] {
      InsideSpec(s[1..], lo, hi);
      assert s == [s[0]] + s[1..];
    }
  }

  lemma SortedTail(s: seq<DataPoint>)
    requires Sorted(s) && s != []
    ensures Sorted(s[1..])
    ensures |s| > 1 ==> s[0].x <= s[1].x
  {}

  /** A sorted series that starts past `hi` has nothing inside [lo, hi]. */
  lemma {:induction false} NoneInsideAbove(s: seq<DataPoint>, lo: real, hi: real)
    requires Sorted(s) && (s == [] || s[0].x as real > hi)
    ensures Inside(s, lo, hi) == []
    decreases |s|
  {
    if s != [] {
      SortedTail(s);
      NoneInsideAbove(s[1..], lo, hi);
    }
  }

  /** A sorted series that starts at or after `lo` has nothing before it. */
  lemma {:induction false} NoneBelow(s: seq<DataPoint>, lo: real)
    requires Sorted(s) && (s == [] || s[0].x as real >= lo)
    ensures LastBelow(s, lo) == []
    decreases |s|
  {
    if s != [] {
      SortedTail(s);
      NoneBelow(s[1..], lo);
    }
  }

  /** Once the scan has reached the window, it appends the points inside it
      and then the first point past it. */
  lemma {:induction false} ScanFromWindow(acc: seq<DataPoint>, s: seq<DataPoint>, lo: real, hi: real)
    requires Sorted(s) && lo <= hi
    requires s == [] || s[0].x as real >= lo
    ensures Scan(acc, s, lo, hi) == acc + Inside(s, lo, hi) + FirstAbove(s, hi)
    decreases |s|
  {
    if s != [] {
      SortedTail(s);
      var s0, rest := s[0], s[1..];
      if s0.x as real > hi {
        NoneInsideAbove(s, lo, hi);
        assert Scan(acc, s, lo, hi) == acc + [s0];
      } else {
        assert Scan(acc, s, lo, hi) == Scan(acc + [s0], rest, lo, hi);
        ScanFromWindow(acc + [s0], rest, lo, hi);
        assert Inside(s, lo, hi) == [s0] + Inside(rest, lo, hi);
        assert FirstAbove(s, hi) == FirstAbove(rest, hi);
        assert acc + [s0] + Inside(rest, lo, hi) == acc + ([s0] + Inside(rest, lo, hi));
      }
    }
  }

  /** On a sorted series the scan keeps at most one point: the last one
      before the window, whatever it kept so far (at most one point, all of
      them before the window). */
  lemma {:induction false} ScanSorted(acc: seq<DataPoint>, s: seq<DataPoint>, lo: real, hi: real)
    requires Sorted(s) && lo <= hi
    requires |acc| <= 1
    ensures Scan(acc, s, lo, hi)
         == (if LastBelow(s, lo) != [] then LastBelow(s, lo) else acc)
            + Inside(s, lo, hi) + FirstAbove(s, hi)
    decreases |s|
  {
    if s == [] {
    } else if s[0].x as real < lo {
      SortedTail(s);
      var s0, rest := s[0], s[1..];
      var acc' := if acc == [] then [s0] else [s0] + acc[1..];
      assert acc' == [s0];
      assert Scan(acc, s, lo, hi) == Scan(acc', rest, lo, hi);
      ScanSorted(acc', rest, lo, hi);
      assert Inside(s, lo, hi) == Inside(rest, lo, hi);
      assert FirstAbove(s, hi) == FirstAbove(rest, hi);
    } else {
      NoneBelow(s, lo);
      ScanFromWindow(acc, s, lo, hi);
    }
  }

  /** `_values` on a series sorted by X with a viewport other than (0, 0):
      the last point before the viewport (if any), then every point inside
      it in order, then the first point after it (if any). */
  lemma WindowOfSorted(values: seq<DataPoint>, start: real, size: real)
    requires Sorted(values) && size >= 0.0
    requires !(start == 0.0 && size == 0.0)
    ensures WindowOf(values, start, size)
         == LastBelow(values, start) + Inside(values, start, start + size)
            + FirstAbove(values, start + size)
  {
    var lo, hi := start, start + size;
    ScanSorted([], values, lo, hi);
    assert WindowOf(values, start, size) == Scan([], values, lo, hi);
  }

  /** The points a window keeps come from the series, and there are no more
      of them than the series has. */
  lemma WindowFromSeries(values: seq<DataPoint>, start: real, size: real)
    requires Sorted(values) && size >= 0.0
    requires !(start == 0.0 && size == 0.0)
    ensures var w := WindowOf(values, start, size);
            |w| <= |values| && forall p :: p in w ==> p in values
  {
    WindowOfSorted(values, start, size);
    var lo, hi := start, start + size;
    var lb, ins, fa := LastBelow(values, lo), Inside(values, lo, hi), FirstAbove(values, hi);
    if lb != [] && fa != [] {
      InsideShorter(values, lo, hi);
    } else if lb != [] || fa != [] {
      InsideShorterOne(values, lo, hi);
    }
    LastBelowSpec(values, lo);
    InsideSpec(values, lo, hi);
    FirstAboveSpec(values, hi);
    forall p | p in lb + ins + fa ensures p in values {
      assert p in lb || p in ins || p in fa;
    }
  }

  lemma {:induction false} InsideBounds(s: seq<DataPoint>, lo: real, hi: real)
    ensures forall i :: 0 <= i < |Inside(s, lo, hi)| ==> lo <= Inside(s, lo, hi)[i].x as real <= hi
    decreases |s|
  {
    if s != [] {
      InsideBounds(s[1..], lo, hi);
    }
  }

  lemma {:induction false} LastBelowBefore(s: seq<DataPoint>, lo: real)
    ensures LastBelow(s, lo) != [] ==> LastBelow(s, lo)[0].x as real < lo
    decreases |s|
  {
    if s != [] {
      LastBelowBefore(s[1..], lo);
    }
  }

  lemma {:induction false} FirstAboveBeyond(s: seq<DataPoint>, hi: real)
    ensures FirstAbove(s, hi) != [] ==> FirstAbove(s, hi)[0].x as real > hi
    decreases |s|
  {
    if s != [] {
      FirstAboveBeyond(s[1..], hi);
    }
  }

  /** Only the first point a window keeps can lie before the viewport, and
      only the last one past it. */
  lemma WindowEdges(values: seq<DataPoint>, start: real, size: real)
    requires Sorted(values) && size >= 0.0
    requires !(start == 0.0 && size == 0.0)
    ensures var w := WindowOf(values, start, size);
            (forall i :: 1 <= i < |w| ==> w[i].x as real >= start)
            && (forall i :: 0 <= i < |w| - 1 ==> w[i].x as real <= start + size)
  {
    WindowOfSorted(values, start, size);
    var lo, hi := start, start + size;
    InsideBounds(values, lo, hi);
    FirstAboveBeyond(values, hi);
    LastBelowBefore(values, lo);
    EdgesOfJoin(LastBelow(values, lo), Inside(values, lo, hi), FirstAbove(values, hi), lo, hi);
  }

  lemma EdgesOfJoin(lb: seq<DataPoint>, ins: seq<DataPoint>, fa: seq<DataPoint>, lo: real, hi: real)
    requires lo <= hi && |lb| <= 1 && |fa| <= 1
    requires forall i :: 0 <= i < |ins| ==> lo <= ins[i].x as real <= hi
    requires lb != [] ==> lb[0].x as real < lo
    requires fa != [] ==> fa[0].x as real > hi
    ensures var w := lb + ins + fa;
            (forall i :: 1 <= i < |w| ==> w[i].x as real >= lo)
            && (forall i :: 0 <= i < |w| - 1 ==> w[i].x as real <= hi)
  {
    var w := lb + ins + fa;
    forall i | 1 <= i < |w| ensures w[i].x as real >= lo {
      if i < |lb| + |ins| {
        assert w[i] == ins[i - |lb|];
      } else {
        assert w[i] == fa[0];
      }
    }
    forall i | 0 <= i < |w| - 1 ensures w[i].x as real <= hi {
      if i >= |lb| {
        assert w[i] == ins[i - |lb|];
      } else {
        assert w[i] == lb[0];
      }
    }
  }

  /** Inside plus both edge points fit in the series. */
  lemma {:induction false} InsideShorter(s: seq<DataPoint>, lo: real, hi: real)
    requires lo <= hi
    requires LastBelow(s, lo) != [] && FirstAbove(s, hi) != []
    ensures |Inside(s, lo, hi)| + 2 <= |s|
  {
    if s != [] {
      if lo <= s[0].x as real <= hi {
        InsideShorter(s[1..], lo, hi);
      } else if s[0].x as real < lo {
        InsideShorterOne(s[1..], lo, hi);
      } else {
        InsideShorterOne(s[1..], lo, hi);
      }
    }
  }

  /** Inside plus one edge point fit in the series. */
  lemma {:induction false} InsideShorterOne(s: seq<DataPoint>, lo: real, hi: real)
    requires lo <= hi
    requires LastBelow(s, lo) != [] || FirstAbove(s, hi) != []
    ensures |Inside(s, lo, hi)| + 1 <= |s|
  {
    if s != [] {
      if lo <= s[0].x as real <= hi {
        InsideShorterOne(s[1..], lo, hi);
      }
    }
  }
}
