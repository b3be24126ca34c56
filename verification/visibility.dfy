/**
 Which decorative markers are drawn: those lying above the page height less a
 fixed margin, where the page height is the largest of the document's
 measurements, or a fixed fallback when there is no browser window.
 */
module Visibility {
  import opened Wrappers
  import opened Placement

  /** Markers this close to the bottom of the page, or below it, are not drawn. */
  const Margin: int := 200

  /** The page height assumed when there is no browser window. */
  const FallbackHeight: int := 500

  /** The five height measurements of the document, in pixels. */
  datatype Measurements = Measurements(
    bodyScrollHeight: int,
    bodyOffsetHeight: int,
    htmlClientHeight: int,
    htmlScrollHeight: int,
    htmlOffsetHeight: int)

  /** The measurements as a list, in the order they are compared. */
  function Values(m: Measurements): seq<int> {
    [m.bodyScrollHeight, m.bodyOffsetHeight, m.htmlClientHeight,
     m.htmlScrollHeight, m.htmlOffsetHeight]
  }

  function Max(a: int, b: int): int {
    if a >= b then a else b
  }

  /**
   The current page height: the largest measurement when a window exists,
   and the fallback height otherwise.
   */
  function CurrentHeight(window: Option<Measurements>): (h: int)
    ensures window.None? ==> h == FallbackHeight
    ensures window.Some? ==>
              (forall i :: 0 <= i < 5 ==> Values(window.value)[i] <= h)
              && h in Values(window.value)
  {
    match window
    case None => FallbackHeight
    case Some(m) =>
      Max(Max(Max(Max(m.bodyScrollHeight, m.bodyOffsetHeight), m.htmlClientHeight),
              m.htmlScrollHeight), m.htmlOffsetHeight)
  }

  /** Whether a marker is drawn on a page of the given height. */
  predicate IsVisible(m: Marker, height: int) {
    m.y < height - Margin
  }

  /** The markers drawn on a page of the given height, in their original order. */
  function VisibleMarkers(markers: seq<Marker>, height: int): (r: seq<Marker>)
    ensures |r| <= |markers|
    ensures forall m :: multiset(r)[m]
              == if IsVisible(m, height) then multiset(markers)[m] else 0
  {
    if |markers| == 0 then []
    else
      var rest := VisibleMarkers(markers[1..], height);
      assert markers == [markers[0]] + markers[1..];
      if IsVisible(markers[0], height) then [markers[0]] + rest else rest
  }

  // ---------------------------------------------------------------------------
  // Properties of the filter
  // ---------------------------------------------------------------------------

  /** A drawn marker is one of the input markers and is visible; a visible input marker is drawn. */
  lemma {:induction false} VisibleMembership(markers: seq<Marker>, height: int, m: Marker)
    ensures m in VisibleMarkers(markers, height) <==> m in markers && IsVisible(m, height)
  {
    var r := VisibleMarkers(markers, height);
    assert m in r <==> multiset(r)[m] > 0;
    assert m in markers <==> multiset(markers)[m] > 0;
  }

  /** Filtering a concatenation filters each part: the relative order is kept. */
  lemma {:induction false} VisibleAppend(a: seq<Marker>, b: seq<Marker>, height: int)
    ensures VisibleMarkers(a + b, height) == VisibleMarkers(a, height) + VisibleMarkers(b, height)
    decreases |a|
  {
    if |a| == 0 {
      assert a + b == b;
    } else {
      assert (a + b)[1..] == a[1..] + b;
      VisibleAppend(a[1..], b, height);
    }
  }

  /** When every marker is visible, all of them are drawn, in order. */
  lemma {:induction false} VisibleAll(markers: seq<Marker>, height: int)
    requires forall i :: 0 <= i < |markers| ==> IsVisible(markers[i], height)
    ensures VisibleMarkers(markers, height) == markers
    decreases |markers|
  {
    if |markers| > 0 {
      VisibleAll(markers[1..], height);
    }
  }

  /** When no marker is visible, nothing is drawn. */
  lemma {:induction false} VisibleNone(markers: seq<Marker>, height: int)
    requires forall i :: 0 <= i < |markers| ==> !IsVisible(markers[i], height)
    ensures VisibleMarkers(markers, height) == []
    decreases |markers|
  {
    if |markers| > 0 {
      VisibleNone(markers[1..], height);
    }
  }

  /** On a page no taller than the margin, no marker at a non-negative y is drawn. */
  lemma {:induction false} ShortPageShowsNothing(markers: seq<Marker>, height: int)
    requires height <= Margin
    requires forall i :: 0 <= i < |markers| ==> markers[i].y >= 0
    ensures VisibleMarkers(markers, height) == []
  {
    VisibleNone(markers, height);
  }

  /** A taller page draws every marker a shorter page draws. */
  lemma {:induction false} VisibleMonotone(markers: seq<Marker>, low: int, high: int, m: Marker)
    requires low <= high
    ensures m in VisibleMarkers(markers, low) ==> m in VisibleMarkers(markers, high)
  {
    VisibleMembership(markers, low, m);
    VisibleMembership(markers, high, m);
  }
}
