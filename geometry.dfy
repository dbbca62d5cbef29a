/** The visible window of the candle series, the price and volume statistics
    of that window, and the pixel layout with its coordinate converters
    (client/src/chart/geometry.js). */
module Geometry {
  import opened Common

  // ---------------------------------------------------------------------
  // Visible window
  // ---------------------------------------------------------------------

  /** The slice of the series on screen. `endIndex` is exclusive. */
  datatype VisibleWindow = VisibleWindow(
    visible: seq<Candle>,
    startIndex: int,
    endIndex: int,
    total: int,
    bars: int,
    offset: int,
    maxOffset: int)

  /** `barsPerScreen || 20`: zero (and NaN, not modelled) fall back to 20. */
  function RequestedBars(barsPerScreen: real): real
  {
    if barsPerScreen == 0.0 then 20.0 else barsPerScreen
  }

  /** The window of `barsPerScreen` bars (at least 20, at most all of them)
      that ends `rightOffset` bars before the newest candle. */
  function ComputeVisibleWindow(candles: seq<Candle>, barsPerScreen: real, rightOffset: int): (w: VisibleWindow)
    ensures w.total == |candles|
    ensures |candles| == 0 ==> w == VisibleWindow([], 0, 0, 0, 0, 0, 0)
    ensures |candles| > 0 ==>
      && w.bars == MinInt(|candles|, MaxInt(20, Round(RequestedBars(barsPerScreen))))
      && 1 <= w.bars <= w.total
      && (w.total < 20 ==> w.bars == w.total)
    ensures w.maxOffset == MaxInt(0, w.total - w.bars) && 0 <= w.offset <= w.maxOffset
    ensures 0 <= rightOffset <= w.maxOffset ==> w.offset == rightOffset
    ensures w.endIndex == w.total - w.offset && w.endIndex - w.startIndex == w.bars
    ensures 0 <= w.startIndex <= w.endIndex <= |candles|
    ensures w.visible == candles[w.startIndex..w.endIndex] && |w.visible| == w.bars
  {
    var total := |candles|;
    if total == 0 then
      VisibleWindow([], 0, 0, 0, 0, 0, 0)
    else
      var bars := ClampInt(MinInt(total, MaxInt(20, Round(RequestedBars(barsPerScreen)))), 20, total);
      var maxOffset := MaxInt(0, total - bars);
      var offset := ClampInt(rightOffset, 0, maxOffset);
      var endIndex := total - offset;
      var startIndex := MaxInt(0, endIndex - bars);
      VisibleWindow(candles[startIndex..endIndex], startIndex, endIndex, total, bars, offset, maxOffset)
  }

  /** When the series is no longer than the bars requested (at least 20),
      the whole series is on screen and every right offset is ignored. */
  lemma WholeSeriesFits(candles: seq<Candle>, barsPerScreen: real, rightOffset: int)
    requires 0 < |candles| <= MaxInt(20, Round(RequestedBars(barsPerScreen)))
    ensures var w := ComputeVisibleWindow(candles, barsPerScreen, rightOffset);
      w.bars == |candles| && w.offset == 0 && w.maxOffset == 0 && w.startIndex == 0 && w.visible == candles
  {
  }

  // ---------------------------------------------------------------------
  // Price statistics
  // ---------------------------------------------------------------------

  datatype PriceStats = PriceStats(minPrice: real, maxPrice: real, maxVolume: real)

  /** Running `if (c.volume > maxVolume) maxVolume = c.volume`; a
      non-numeric volume never compares greater. */
  function FoldVolume(cs: seq<Candle>, init: real): real
  {
    if |cs| == 0 then init
    else
      var acc := FoldVolume(cs[..|cs| - 1], init);
      var c := cs[|cs| - 1];
      if c.volume.Some? && c.volume.value > acc then c.volume.value else acc
  }

  /** The statistics of a window as a value: extrema of lows and highs,
      (0, 1) when there are none, widened by one on each side when equal,
      and a maximum volume replaced by 1 when not positive. */
  function PriceStatsOf(cs: seq<Candle>): PriceStats
  {
    var lo := FoldLow(cs, None);
    var hi := FoldHigh(cs, None);
    var mn := if lo.Some? && hi.Some? then lo.value else 0.0;
    var mx := if lo.Some? && hi.Some? then hi.value else 1.0;
    var mv := FoldVolume(cs, 0.0);
    PriceStats(
      if mn == mx then mn - 1.0 else mn,
      if mn == mx then mx + 1.0 else mx,
      if mv <= 0.0 then 1.0 else mv)
  }

  /** A candle whose low does not exceed its high. */
  predicate WellFormed(c: Candle)
  {
    c.low <= c.high
  }

  lemma {:induction false} FoldVolumeIsMax(cs: seq<Candle>, init: real)
    ensures FoldVolume(cs, init) >= init
    ensures forall i :: 0 <= i < |cs| && cs[i].volume.Some? ==> FoldVolume(cs, init) >= cs[i].volume.value
  {
    if |cs| > 0 {
      FoldVolumeIsMax(cs[..|cs| - 1], init);
      assert forall i :: 0 <= i < |cs| - 1 ==> cs[..|cs| - 1][i] == cs[i];
    }
  }

  /** What the statistics guarantee to the layout: a positive volume scale
      above every volume, a price range that brackets every candle, and,
      for well-formed candles, a range that is never empty. */
  lemma PriceStatsSound(cs: seq<Candle>)
    ensures PriceStatsOf(cs).maxVolume > 0.0
    ensures forall i :: 0 <= i < |cs| && cs[i].volume.Some? ==> PriceStatsOf(cs).maxVolume >= cs[i].volume.value
    ensures |cs| == 0 ==> PriceStatsOf(cs) == PriceStats(0.0, 1.0, 1.0)
    ensures forall i :: 0 <= i < |cs| ==> PriceStatsOf(cs).minPrice <= cs[i].low && cs[i].high <= PriceStatsOf(cs).maxPrice
    ensures (forall i :: 0 <= i < |cs| ==> WellFormed(cs[i])) ==> PriceStatsOf(cs).minPrice < PriceStatsOf(cs).maxPrice
  {
    FoldLowIsMin(cs, None);
    FoldHighIsMax(cs, None);
    FoldVolumeIsMax(cs, 0.0);
    if |cs| > 0 && (forall i :: 0 <= i < |cs| ==> WellFormed(cs[i])) {
      assert FoldLow(cs, None).value <= cs[0].low <= cs[0].high <= FoldHigh(cs, None).value;
    }
  }

  /** The loop of computePriceStats, proved to produce PriceStatsOf. */
  method ComputePriceStats(cs: seq<Candle>) returns (s: PriceStats)
    ensures s == PriceStatsOf(cs)
    ensures s.maxVolume > 0.0
    ensures (forall i :: 0 <= i < |cs| ==> WellFormed(cs[i])) ==> s.minPrice < s.maxPrice
  {
    var minPrice: Option<real> := None;   // +Infinity
    var maxPrice: Option<real> := None;   // -Infinity
    var maxVolume := 0.0;
    for i := 0 to |cs|
      invariant minPrice == FoldLow(cs[..i], None)
      invariant maxPrice == FoldHigh(cs[..i], None)
      invariant maxVolume == FoldVolume(cs[..i], 0.0)
    {
      assert cs[..i + 1][..i] == cs[..i];
      var c := cs[i];
      if minPrice.None? || c.low < minPrice.value { minPrice := Some(c.low); }
      if maxPrice.None? || c.high > maxPrice.value { maxPrice := Some(c.high); }
      if c.volume.Some? && c.volume.value > maxVolume { maxVolume := c.volume.value; }
    }
    assert cs[..|cs|] == cs;
    var mn, mx;
    if minPrice.None? || maxPrice.None? {
      mn, mx := 0.0, 1.0;
    } else {
      mn, mx := minPrice.value, maxPrice.value;
    }
    if mn == mx {
      mn, mx := mn - 1.0, mx + 1.0;
    }
    if maxVolume <= 0.0 { maxVolume := 1.0; }
    s := PriceStats(mn, mx, maxVolume);
    PriceStatsSound(cs);
  }

  // ---------------------------------------------------------------------
  // Layout and converters
  // ---------------------------------------------------------------------

  const PaddingTop: real := 16.0
  const PaddingBottom: real := 28.0
  const PaddingLeft: real := 48.0
  const PriceScaleWidth: real := 62.0
  const RightPadding: real := 10.0
  const PriceAreaRatio: real := 0.7

  datatype Layout = Layout(
    width: real, height: real,
    paddingTop: real, paddingLeft: real, paddingBottom: real,
    chartRight: real, fullChartWidth: real,
    profileLeft: real, profileRight: real,
    priceScaleX: real,
    priceTop: real, priceBottom: real,
    volumeTop: real, volumeBottom: real,
    priceChartHeight: real, volumeChartHeight: real,
    candleSpacing: real, candleWidth: real, volumeBarWidth: real,
    profileWidth: real, priceScaleWidth: real)

  /** The layout together with what the converters close over. `n` is the
      number of candle slots, at least 1. */
  datatype Geometry = Geometry(layout: Layout, minPrice: real, maxPrice: real, maxVolume: real, n: int)

  /** `clamp(Math.max(40, profileWidth || 80), 40, 200)`. */
  function ProfileWidthClamped(profileWidth: real): real
  {
    Clamp(MaxReal(40.0, if profileWidth == 0.0 then 80.0 else profileWidth), 40.0, 200.0)
  }

  /** Layout of a surface of at least 400x250 pixels: price pane on the top
      70% of the body, volume pane below, price scale gutter at the right,
      profile overlay anchored to the right edge of the candle area. */
  function BuildGeometry(width: real, height: real, visibleCount: int,
                         minPrice: real, maxPrice: real, maxVolume: real,
                         profileWidth: real): (g: Geometry)
    ensures g.layout.width >= 400.0 && g.layout.height >= 250.0
    ensures g.layout.width >= width && g.layout.height >= height
    ensures g.layout.priceTop < g.layout.priceBottom == g.layout.volumeTop < g.layout.volumeBottom
    ensures g.layout.volumeBottom == g.layout.height - g.layout.paddingBottom
    ensures 40.0 <= g.layout.profileWidth <= 200.0
    ensures g.layout.paddingLeft <= g.layout.profileLeft < g.layout.profileRight == g.layout.chartRight
    ensures g.layout.chartRight == g.layout.paddingLeft + g.layout.fullChartWidth
    ensures g.layout.chartRight + g.layout.priceScaleWidth < g.layout.width
    ensures g.n >= 1 && g.n >= visibleCount
    ensures g.layout.candleSpacing > 0.0 && g.layout.candleSpacing * g.n as real == g.layout.fullChartWidth
    ensures g.layout.candleWidth >= 3.0 && g.layout.volumeBarWidth >= 2.0
    ensures g.minPrice == minPrice && g.maxPrice == maxPrice && g.maxVolume == maxVolume
  {
    var safeWidth := MaxReal(400.0, width);
    var safeHeight := MaxReal(250.0, height);
    var pw := ProfileWidthClamped(profileWidth);
    var priceScaleRight := safeWidth - RightPadding;
    var priceScaleX := priceScaleRight - PriceScaleWidth;
    var chartRight := priceScaleX;
    var fullChartWidth := MaxReal(100.0, chartRight - PaddingLeft);
    var fullChartHeight := safeHeight - PaddingTop - PaddingBottom;
    var priceChartHeight := fullChartHeight * PriceAreaRatio;
    var volumeChartHeight := fullChartHeight * (1.0 - PriceAreaRatio);
    var priceTop := PaddingTop;
    var priceBottom := PaddingTop + priceChartHeight;
    var n := MaxInt(1, visibleCount);
    var candleSpacing := fullChartWidth / n as real;
    Geometry(
      Layout(
        safeWidth, safeHeight,
        PaddingTop, PaddingLeft, PaddingBottom,
        chartRight, fullChartWidth,
        MaxReal(PaddingLeft, chartRight - pw), chartRight,
        priceScaleX,
        priceTop, priceBottom,
        priceBottom, PaddingTop + fullChartHeight,
        priceChartHeight, volumeChartHeight,
        candleSpacing, MaxReal(3.0, candleSpacing * 0.6), MaxReal(2.0, candleSpacing * 0.5),
        pw, PriceScaleWidth),
      minPrice, maxPrice, maxVolume, n)
  }

  /** A geometry as BuildGeometry makes it: the facts the converters rely on. */
  predicate ValidGeometry(g: Geometry)
  {
    && g.n >= 1
    && g.layout.priceChartHeight > 0.0
    && g.layout.priceBottom == g.layout.priceTop + g.layout.priceChartHeight
    && g.layout.volumeChartHeight > 0.0
    && g.layout.volumeTop == g.layout.priceBottom
    && g.layout.volumeBottom == g.layout.volumeTop + g.layout.volumeChartHeight
    && g.layout.candleSpacing > 0.0
    && g.layout.fullChartWidth == g.layout.candleSpacing * g.n as real
    && g.layout.chartRight == g.layout.paddingLeft + g.layout.fullChartWidth
  }

  lemma BuildGeometryValid(width: real, height: real, visibleCount: int,
                           minPrice: real, maxPrice: real, maxVolume: real, profileWidth: real)
    ensures ValidGeometry(BuildGeometry(width, height, visibleCount, minPrice, maxPrice, maxVolume, profileWidth))
  {
  }

  function PriceToY(g: Geometry, price: real): real
  {
    var range := if g.maxPrice - g.minPrice == 0.0 then 1.0 else g.maxPrice - g.minPrice;
    var t := (price - g.minPrice) / range;
    g.layout.priceTop + (1.0 - t) * g.layout.priceChartHeight
  }

  function YToPrice(g: Geometry, y: real): real
  {
    var h := if g.layout.priceChartHeight == 0.0 then 1.0 else g.layout.priceChartHeight;
    var t := Clamp((y - g.layout.priceTop) / h, 0.0, 1.0);
    g.minPrice + (1.0 - t) * (g.maxPrice - g.minPrice)
  }

  function VolumeToY(g: Geometry, volume: real): real
  {
    var mv := if g.maxVolume == 0.0 then 1.0 else g.maxVolume;
    g.layout.volumeBottom - (volume / mv) * g.layout.volumeChartHeight
  }

  /** Centre of the candle slot with the given local index. */
  function IndexToX(g: Geometry, localIndex: real): real
  {
    g.layout.paddingLeft + localIndex * g.layout.candleSpacing + g.layout.candleSpacing / 2.0
  }

  /** Fractional local index under x, clamped to [0, n - 1]. */
  function XToLocalIndex(g: Geometry, x: real): (r: real)
    requires g.n >= 1
    ensures 0.0 <= r <= (g.n - 1) as real
  {
    var clampedX := Clamp(x, g.layout.paddingLeft, g.layout.chartRight);
    var sp := if g.layout.candleSpacing == 0.0 then 1.0 else g.layout.candleSpacing;
    var local := (clampedX - g.layout.paddingLeft) / sp;
    Clamp(local, 0.0, (g.n - 1) as real)
  }

  /** The bottom of the price pane shows minPrice, its top maxPrice. */
  lemma PriceToYEnds(g: Geometry)
    requires ValidGeometry(g) && g.maxPrice > g.minPrice
    ensures PriceToY(g, g.minPrice) == g.layout.priceBottom
    ensures PriceToY(g, g.maxPrice) == g.layout.priceTop
  {
  }

  /** Higher prices are drawn higher up (smaller y). */
  lemma PriceToYDecreasing(g: Geometry, p: real, q: real)
    requires ValidGeometry(g) && g.maxPrice > g.minPrice && p < q
    ensures PriceToY(g, q) < PriceToY(g, p)
  {
    var range := g.maxPrice - g.minPrice;
    assert (q - g.minPrice) / range - (p - g.minPrice) / range == (q - p) / range;
    assert (q - p) / range > 0.0;
    var tp := (p - g.minPrice) / range;
    var tq := (q - g.minPrice) / range;
    assert (1.0 - tp) * g.layout.priceChartHeight - (1.0 - tq) * g.layout.priceChartHeight
        == (tq - tp) * g.layout.priceChartHeight;
  }

  /** Every y maps back to a price inside the displayed range. */
  lemma YToPriceInRange(g: Geometry, y: real)
    requires g.maxPrice >= g.minPrice
    ensures g.minPrice <= YToPrice(g, y) <= g.maxPrice
  {
    var h := if g.layout.priceChartHeight == 0.0 then 1.0 else g.layout.priceChartHeight;
    var t := Clamp((y - g.layout.priceTop) / h, 0.0, 1.0);
    assert YToPrice(g, y) == g.minPrice + (1.0 - t) * (g.maxPrice - g.minPrice);
    ScaleWithinRange(1.0 - t, g.maxPrice - g.minPrice);
  }

  lemma ScaleWithinRange(f: real, r: real)
    requires 0.0 <= f <= 1.0 && r >= 0.0
    ensures 0.0 <= f * r <= r
  {
    assert (1.0 - f) * r >= 0.0;
  }

  lemma DivOfProduct(a: real, b: real)
    requires b != 0.0
    ensures (a * b) / b == a
  {
  }

  /** price -> y -> price is the identity on the displayed range. */
  lemma PriceRoundTrip(g: Geometry, p: real)
    requires ValidGeometry(g) && g.maxPrice > g.minPrice
    requires g.minPrice <= p <= g.maxPrice
    ensures YToPrice(g, PriceToY(g, p)) == p
  {
    var range := g.maxPrice - g.minPrice;
    var t := (p - g.minPrice) / range;
    assert 0.0 <= t <= 1.0;
    var a := 1.0 - t;
    var h := g.layout.priceChartHeight;
    var y := PriceToY(g, p);
    assert y - g.layout.priceTop == a * h;
    DivOfProduct(a, h);
    var q := (y - g.layout.priceTop) / h;
    assert q == (a * h) / h;
    assert q == a;
    assert Clamp(q, 0.0, 1.0) == a;
    ProductOfDiv(p - g.minPrice, range);
    assert YToPrice(g, y) == g.minPrice + t * range;
  }

  lemma ProductOfDiv(a: real, b: real)
    requires b != 0.0
    ensures (a / b) * b == a
  {
  }

  /** Volumes between 0 and the maximum are drawn inside the volume pane. */
  lemma VolumeToYInPane(g: Geometry, v: real)
    requires ValidGeometry(g) && g.maxVolume > 0.0 && 0.0 <= v <= g.maxVolume
    ensures g.layout.volumeTop <= VolumeToY(g, v) <= g.layout.volumeBottom
    ensures v == 0.0 ==> VolumeToY(g, v) == g.layout.volumeBottom
    ensures v == g.maxVolume ==> VolumeToY(g, v) == g.layout.volumeTop
  {
    assert 0.0 <= v / g.maxVolume <= 1.0;
    assert 0.0 <= (v / g.maxVolume) * g.layout.volumeChartHeight <= g.layout.volumeChartHeight;
  }

  /** The centre of slot i reads back as i + 0.5, not i: the converters are
      offset by half a slot from each other. */
  lemma CentreReadsHalfSlotRight(g: Geometry, i: int)
    requires ValidGeometry(g) && 0 <= i && i as real + 0.5 <= (g.n - 1) as real
    ensures XToLocalIndex(g, IndexToX(g, i as real)) == i as real + 0.5
  {
    var sp := g.layout.candleSpacing;
    var k := i as real + 0.5;
    var x := IndexToX(g, i as real);
    assert x - g.layout.paddingLeft == k * sp;
    assert (g.n as real - k) * sp > 0.0;
    assert k * sp <= g.n as real * sp;
    assert Clamp(x, g.layout.paddingLeft, g.layout.chartRight) == x;
    DivOfProduct(k, sp);
  }
}
