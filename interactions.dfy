/** Pan, wheel zoom and x -> candle picking (client/src/chart/interactions.js). */
module Interactions {
  import opened Common
  import opened Geometry

  /** New right offset after dragging the chart by deltaX pixels from an
      offset of currentOffset bars. A zero spacing leaves the offset alone. */
  function CalcPanOffset(deltaX: real, currentOffset: int, maxOffset: int, candleSpacing: real): (r: int)
    ensures candleSpacing == 0.0 ==> r == currentOffset
    ensures candleSpacing != 0.0 ==> r <= maxOffset && (maxOffset >= 0 ==> 0 <= r)
    ensures candleSpacing != 0.0 && 0 <= currentOffset + Round(deltaX / candleSpacing) <= maxOffset ==>
      r == currentOffset + Round(deltaX / candleSpacing)
  {
    if candleSpacing == 0.0 then currentOffset
    else
      var barsMoved := Round(deltaX / candleSpacing);
      var next := currentOffset + barsMoved;
      var next1 := if next < 0 then 0 else next;
      if next1 > maxOffset then maxOffset else next1
  }

  /** Dragging further to the right never yields a smaller offset. */
  lemma PanMonotone(dx1: real, dx2: real, currentOffset: int, maxOffset: int, candleSpacing: real)
    requires candleSpacing > 0.0 && dx1 <= dx2
    ensures CalcPanOffset(dx1, currentOffset, maxOffset, candleSpacing)
         <= CalcPanOffset(dx2, currentOffset, maxOffset, candleSpacing)
  {
    assert dx2 / candleSpacing - dx1 / candleSpacing == (dx2 - dx1) / candleSpacing;
    assert Round(dx1 / candleSpacing) <= Round(dx2 / candleSpacing);
  }

  /** A rightward drag pans toward older bars: the offset does not drop
      below where it started, and a drag of zero keeps an in-range offset. */
  lemma PanRightNeverDecreases(deltaX: real, currentOffset: int, maxOffset: int, candleSpacing: real)
    requires candleSpacing > 0.0 && 0 <= currentOffset <= maxOffset
    ensures deltaX >= 0.0 ==> CalcPanOffset(deltaX, currentOffset, maxOffset, candleSpacing) >= currentOffset
    ensures deltaX <= 0.0 ==> CalcPanOffset(deltaX, currentOffset, maxOffset, candleSpacing) <= currentOffset
    ensures CalcPanOffset(0.0, currentOffset, maxOffset, candleSpacing) == currentOffset
  {
    assert Round(0.0) == 0;
    if deltaX >= 0.0 {
      PanMonotone(0.0, deltaX, currentOffset, maxOffset, candleSpacing);
    } else {
      PanMonotone(deltaX, 0.0, currentOffset, maxOffset, candleSpacing);
    }
  }

  /** Zoom by five bars: a positive wheel delta means fewer bars. The upper
      bound is applied last and wins when maxBars < minBars. */
  function CalcZoomAroundPoint(bars: int, zoomDirection: real, minBars: int, maxBars: int): (r: int)
    ensures minBars <= maxBars ==> minBars <= r <= maxBars
    ensures maxBars < minBars ==> r == maxBars
    ensures zoomDirection > 0.0 && minBars <= bars - 5 <= maxBars ==> r == bars - 5
    ensures zoomDirection <= 0.0 && minBars <= bars + 5 <= maxBars ==> r == bars + 5
  {
    var step := if zoomDirection > 0.0 then -5 else 5;
    var out := bars + step;
    var out1 := if out < minBars then minBars else out;
    if out1 > maxBars then maxBars else out1
  }

  /** Zooming in and then out (or out and then in) by one wheel step each
      returns to the bar count it started from, as long as the intermediate
      count stays inside [minBars, maxBars]. */
  lemma ZoomStepsCancel(bars: int, zoomIn: real, zoomOut: real, minBars: int, maxBars: int)
    requires zoomIn > 0.0 && zoomOut <= 0.0
    ensures minBars <= bars - 5 && bars <= maxBars ==>
              CalcZoomAroundPoint(CalcZoomAroundPoint(bars, zoomIn, minBars, maxBars), zoomOut, minBars, maxBars) == bars
    ensures minBars <= bars && bars + 5 <= maxBars ==>
              CalcZoomAroundPoint(CalcZoomAroundPoint(bars, zoomOut, minBars, maxBars), zoomIn, minBars, maxBars) == bars
  {
  }

  /** Repeated zooming in one direction never moves the other way: each
      step in gives at most as many bars, each step out at least as many,
      once the count is inside [minBars, maxBars]. */
  lemma ZoomMonotone(bars: int, zoomDirection: real, minBars: int, maxBars: int)
    requires minBars <= bars <= maxBars
    ensures zoomDirection > 0.0 ==> CalcZoomAroundPoint(bars, zoomDirection, minBars, maxBars) <= bars
    ensures zoomDirection <= 0.0 ==> CalcZoomAroundPoint(bars, zoomDirection, minBars, maxBars) >= bars
  {
  }

  /** Global index of the candle under x, clamped to [0, total - 1]; -1
      when there are no candles. */
  function PickGlobalIndexFromX(x: real, g: Geometry, startIndexGlobal: int, total: int): (r: int)
    requires g.n >= 1
    ensures total >= 1 ==> 0 <= r < total
    ensures total == 0 && startIndexGlobal >= 0 ==> r == -1
    ensures 0 <= startIndexGlobal + Round(XToLocalIndex(g, x)) < total ==>
      r == startIndexGlobal + Round(XToLocalIndex(g, x))
  {
    var local := XToLocalIndex(g, x);
    var global := startIndexGlobal + Round(local);
    if global < 0 then 0
    else if global >= total then total - 1
    else global
  }

  /** Clicking the centre of local slot i picks slot i + 1, because the
      half-slot offset of XToLocalIndex is rounded up. */
  lemma PickAtCentreSelectsNextBar(g: Geometry, i: int, startIndexGlobal: int, total: int)
    requires ValidGeometry(g) && 0 <= i && i as real + 0.5 <= (g.n - 1) as real
    requires 0 <= startIndexGlobal && startIndexGlobal + i + 1 < total
    ensures PickGlobalIndexFromX(IndexToX(g, i as real), g, startIndexGlobal, total) == startIndexGlobal + i + 1
  {
    CentreReadsHalfSlotRight(g, i);
    assert Round(i as real + 0.5) == i + 1;
  }
}
