/** The state of the CandlesChart component and its event handlers
    (client/src/components/CandlesChart.jsx): zoom and pan of the
    viewport, the drag state machine of the mouse, the live selection, the
    crosshair, and the list of pinned ranges. */
module ChartController {
  import opened Common
  import opened Geometry
  import opened Interactions
  import opened CandlesChart

  /** `dragRef.current.type`: no drag, right-button pan, left-button
      selection, or middle-button crosshair. */
  datatype DragMode = Idle | Pan | Select | Cross

  /** The drag record: the mode, where the drag started and with which
      offset, and for a selection the global index it started on. */
  datatype Drag = Drag(mode: DragMode, startX: real, startOffset: int, startIndex: Option<int>)

  /** The drag record after mouse-up or leave. */
  const NoDrag: Drag := Drag(Idle, 0.0, 0, None)

  datatype Crosshair = Crosshair(visible: bool, x: real, y: real)

  /** The pin effect on the list of pinned ranges: with a non-zero request
      and a selection over a non-empty series, the selection ordered and cut
      to the series is appended under the new id, unless it spans a single
      candle; otherwise the list is unchanged. */
  function PinnedRanges(ranges: seq<FixedRange>, sel: Option<Selection>, len: int, requestId: int, id: string): seq<FixedRange>
  {
    if requestId == 0 || sel.None? || len == 0 then ranges
    else
      var start := MaxInt(0, MinInt(sel.value.start, sel.value.end));
      var end := MinInt(len - 1, MaxInt(sel.value.start, sel.value.end));
      if start >= end then ranges else ranges + [FixedRange(id, start, end)]
  }

  /** Pinning only appends: the old entries stay as they are, at most one
      entry is added, and an added entry spans two candles or more of the
      series. */
  lemma PinAppendsOnly(ranges: seq<FixedRange>, sel: Option<Selection>, len: int, requestId: int, id: string)
    ensures var r := PinnedRanges(ranges, sel, len, requestId, id);
      && |ranges| <= |r| <= |ranges| + 1
      && r[..|ranges|] == ranges
      && (|r| == |ranges| + 1 ==> r[|ranges|].id == id && 0 <= r[|ranges|].start < r[|ranges|].end <= len - 1)
    ensures var r := PinnedRanges(ranges, sel, len, requestId, id);
      |r| == |ranges| + 1 <==>
        && requestId != 0 && sel.Some? && len > 0
        && MaxInt(0, MinInt(sel.value.start, sel.value.end)) < MinInt(len - 1, MaxInt(sel.value.start, sel.value.end))
  {
  }

  /** The effect re-fires on every selection change while the request id
      stays non-zero, so two selections pin two ranges. */
  lemma PinRefires(ranges: seq<FixedRange>, s1: Selection, s2: Selection, len: int, requestId: int, id1: string, id2: string)
    requires requestId != 0 && 0 <= s1.start < s1.end < len && 0 <= s2.start < s2.end < len
    ensures PinnedRanges(PinnedRanges(ranges, Some(s1), len, requestId, id1), Some(s2), len, requestId, id2)
         == ranges + [FixedRange(id1, s1.start, s1.end), FixedRange(id2, s2.start, s2.end)]
  {
  }

  /** The component. The series, the surface size and the profile width are
      props; the rest is state updated by the handlers. */
  class Chart {
    const candles: seq<Candle>
    const width: real
    const height: real
    const profileWidth: real
    var barsPerScreen: int
    var rightOffset: int
    var selection: Option<Selection>
    var fixedRanges: seq<FixedRange>
    var crosshair: Crosshair
    var drag: Drag

    /** A global index as the picking returns it: a candle of the series,
        or -1 when the series is empty. */
    predicate IndexOk(i: int)
      reads this
    {
      if |candles| == 0 then i == -1 else 0 <= i < |candles|
    }

    /** What the handlers maintain: the offset is never negative, the
        selection ends are picked indices, a selection drag carries its
        start index and has a selection, and every pinned range spans two
        candles or more of the series. */
    predicate Valid()
      reads this
    {
      && 0 <= rightOffset && 0 <= drag.startOffset
      && (selection.Some? ==> IndexOk(selection.value.start) && IndexOk(selection.value.end))
      && (drag.mode == Select ==> drag.startIndex.Some? && IndexOk(drag.startIndex.value) && selection.Some?)
      && (forall k :: 0 <= k < |fixedRanges| ==> 0 <= fixedRanges[k].start < fixedRanges[k].end <= |candles| - 1)
    }

    /** The initial state: 140 bars, no offset, no selection, no pins. */
    constructor (candles: seq<Candle>, width: real, height: real, profileWidth: real)
      ensures this.candles == candles && this.width == width && this.height == height
      ensures this.profileWidth == profileWidth
      ensures barsPerScreen == 140 && rightOffset == 0
      ensures selection.None? && fixedRanges == [] && crosshair == Crosshair(false, 0.0, 0.0) && drag == NoDrag
      ensures Valid()
    {
      this.candles := candles;
      this.width := width;
      this.height := height;
      this.profileWidth := profileWidth;
      barsPerScreen := 140;
      rightOffset := 0;
      selection := None;
      fixedRanges := [];
      crosshair := Crosshair(false, 0.0, 0.0);
      drag := NoDrag;
    }

    /** The visibleWindow memo. */
    function Window(): VisibleWindow
      reads this
    {
      ComputeVisibleWindow(candles, barsPerScreen as real, rightOffset)
    }

    /** The geometry memo: none until the surface has a size. */
    function CurrentGeometry(): (g: Option<Geometry>)
      reads this
      ensures g.Some? ==> ValidGeometry(g.value)
    {
      if width == 0.0 || height == 0.0 then None
      else
        var w := Window();
        var stats := PriceStatsOf(w.visible);
        BuildGeometryValid(width, height, MaxInt(|w.visible|, 1), stats.minPrice, stats.maxPrice, stats.maxVolume, profileWidth);
        Some(BuildGeometry(width, height, MaxInt(|w.visible|, 1), stats.minPrice, stats.maxPrice, stats.maxVolume, profileWidth))
    }

    /** The global index under x in the current window. */
    function PickIndex(g: Geometry, x: real): (i: int)
      requires g.n >= 1
      reads this
      ensures IndexOk(i)
    {
      PickGlobalIndexFromX(x, g, Window().startIndex, Window().total)
    }

    /** handleWheel: zoom by five bars, between 20 and the series length
        (20 for an empty series); nothing without a geometry. */
    method HandleWheel(deltaY: real)
      requires Valid()
      modifies this
      ensures Valid()
      ensures old(CurrentGeometry()).None? ==> barsPerScreen == old(barsPerScreen)
      ensures old(CurrentGeometry()).Some? ==>
        barsPerScreen == CalcZoomAroundPoint(old(barsPerScreen), deltaY, 20, if |candles| > 0 then |candles| else 20)
      ensures rightOffset == old(rightOffset) && selection == old(selection) && fixedRanges == old(fixedRanges)
      ensures crosshair == old(crosshair) && drag == old(drag)
    {
      if CurrentGeometry().None? {
        return;
      }
      var maxBars := if |candles| > 0 then |candles| else 20;
      barsPerScreen := CalcZoomAroundPoint(barsPerScreen, deltaY, 20, maxBars);
    }

    /** handleMouseDown: the middle button shows the crosshair and starts a
        crosshair drag, the right button starts a pan from the current
        offset, the left button starts a selection on the candle under x;
        other buttons, or no geometry, change nothing. */
    method HandleMouseDown(button: int, x: real, y: real)
      requires Valid()
      modifies this
      ensures Valid()
      ensures barsPerScreen == old(barsPerScreen) && rightOffset == old(rightOffset) && fixedRanges == old(fixedRanges)
      ensures old(CurrentGeometry()).None? || button !in {0, 1, 2} ==>
        selection == old(selection) && crosshair == old(crosshair) && drag == old(drag)
      ensures old(CurrentGeometry()).Some? && button == 1 ==>
        && crosshair == Crosshair(true, x, y) && drag == Drag(Cross, x, rightOffset, None)
        && selection == old(selection)
      ensures old(CurrentGeometry()).Some? && button == 2 ==>
        && drag == Drag(Pan, x, rightOffset, None)
        && selection == old(selection) && crosshair == old(crosshair)
      ensures old(CurrentGeometry()).Some? && button == 0 ==>
        var i := old(PickIndex(CurrentGeometry().value, x));
        && selection == Some(Selection(i, i)) && drag == Drag(Select, x, rightOffset, Some(i))
        && crosshair == old(crosshair)
    {
      var g := CurrentGeometry();
      if g.None? {
        return;
      }
      if button == 1 {
        crosshair := Crosshair(true, x, y);
        drag := Drag(Cross, x, rightOffset, None);
        return;
      }
      if button == 2 {
        drag := Drag(Pan, x, rightOffset, None);
        return;
      }
      if button == 0 {
        var startIndex := PickIndex(g.value, x);
        selection := Some(Selection(startIndex, startIndex));
        drag := Drag(Select, x, rightOffset, Some(startIndex));
        return;
      }
    }

    /** handleMouseMove: with no drag or a crosshair drag, show the
        crosshair at the pointer; in a pan, set the offset from the drag
        distance and the offset the pan started with, and nothing else; in a
        selection, move only its end to the candle under x. */
    method HandleMouseMove(x: real, y: real)
      requires Valid()
      modifies this
      ensures Valid()
      ensures barsPerScreen == old(barsPerScreen) && fixedRanges == old(fixedRanges) && drag == old(drag)
      ensures old(CurrentGeometry()).None? ==>
        rightOffset == old(rightOffset) && selection == old(selection) && crosshair == old(crosshair)
      ensures old(CurrentGeometry()).Some? && old(drag.mode) in {Idle, Cross} ==>
        rightOffset == old(rightOffset) && selection == old(selection) && crosshair == Crosshair(true, x, y)
      ensures old(CurrentGeometry()).Some? && old(drag.mode) == Pan ==>
        && rightOffset == old(CalcPanOffset(x - drag.startX, drag.startOffset, Window().maxOffset,
                                            CurrentGeometry().value.layout.candleSpacing))
        && selection == old(selection) && crosshair == old(crosshair)
      ensures old(CurrentGeometry()).Some? && old(drag.mode) == Select ==>
        && rightOffset == old(rightOffset)
        && selection == Some(Selection(old(drag.startIndex.value), old(PickIndex(CurrentGeometry().value, x))))
        && crosshair == Crosshair(true, x, y)
    {
      var g := CurrentGeometry();
      if g.None? {
        return;
      }
      if drag.mode == Idle {
        crosshair := Crosshair(true, x, y);
        return;
      }
      if drag.mode == Pan {
        var deltaX := x - drag.startX;
        var nextOffset := CalcPanOffset(deltaX, drag.startOffset, Window().maxOffset, g.value.layout.candleSpacing);
        rightOffset := nextOffset;
        return;
      }
      if drag.mode == Select {
        var currentIndex := PickIndex(g.value, x);
        selection := Some(Selection(drag.startIndex.value, currentIndex));
        crosshair := Crosshair(true, x, y);
        return;
      }
      if drag.mode == Cross {
        crosshair := Crosshair(true, x, y);
        return;
      }
    }

    /** handleMouseUp, and handleLeave which has the same body: end the
        drag, hide the crosshair only after a crosshair drag, and keep the
        selection, even one of a single candle. */
    method HandleMouseUp()
      requires Valid()
      modifies this
      ensures Valid()
      ensures drag == NoDrag
      ensures crosshair == if old(drag.mode) == Cross then old(crosshair).(visible := false) else old(crosshair)
      ensures barsPerScreen == old(barsPerScreen) && rightOffset == old(rightOffset)
      ensures selection == old(selection) && fixedRanges == old(fixedRanges)
    {
      if drag.mode == Cross {
        crosshair := crosshair.(visible := false);
      }
      drag := NoDrag;
    }

    /** The pin effect, run with the request id and the new range's id. */
    method Pin(requestId: int, id: string)
      requires Valid()
      modifies this
      ensures Valid()
      ensures fixedRanges == PinnedRanges(old(fixedRanges), selection, |candles|, requestId, id)
      ensures barsPerScreen == old(barsPerScreen) && rightOffset == old(rightOffset)
      ensures selection == old(selection) && crosshair == old(crosshair) && drag == old(drag)
    {
      if requestId == 0 {
        return;
      }
      if selection.None? || |candles| == 0 {
        return;
      }
      var start := MaxInt(0, MinInt(selection.value.start, selection.value.end));
      var end := MinInt(|candles| - 1, MaxInt(selection.value.start, selection.value.end));
      if start >= end {
        return;
      }
      fixedRanges := fixedRanges + [FixedRange(id, start, end)];
    }
  }
}
