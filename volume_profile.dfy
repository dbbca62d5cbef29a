/** The candle volume profile (buildVolumeProfileFromCandles,
    client/src/indicators/volumeProfile.js): a price grid from minPrice in
    steps of priceStep, each candle's volume spread evenly over the grid
    levels its [low, high] range touches, then POC and Value Area. */
module VolumeProfile {
  import opened Common
  import opened ValueArea
  import opened PriceStep
  import opened Binning

  /** The returned record. `maxBinVolume` is 1 when no bin has volume. */
  datatype VolumeProfile = VolumeProfile(bins: seq<Bin>, priceStep: real, maxBinVolume: real,
                                         pocPrice: Option<real>, vahPrice: Option<real>, valPrice: Option<real>)

  /** The result for no candles or a non-finite price bound. */
  const EmptyProfile: VolumeProfile := VolumeProfile([], 1.0, 1.0, None, None, None)

  /** The Value Area share of the total volume. */
  const ValueAreaShare: real := 0.7

  // ---------------------------------------------------------------------
  // Step 2: the price grid

  /** The first n grid prices start, start + step, ... */
  function GridPrices(start: real, step: real, n: nat): (p: seq<real>)
    ensures |p| == n
  {
    seq(n, i requires 0 <= i < n => start + i as real * step)
  }

  /** How many grid prices `for (p = start; p <= end; p += step)` visits.
      With a non-positive step the loop would not stop, so the step must be
      positive unless the grid is empty from the start. */
  function GridSize(start: real, end: real, step: real): nat
    requires step > 0.0 || start > end
  {
    if start > end then 0 else ((end - start) / step).Floor + 1
  }

  /** GridSize is the number of grid prices up to `end`: every price it
      counts is at most end and the next one is above it. */
  lemma GridSizeSound(start: real, end: real, step: real)
    requires step > 0.0 || start > end
    ensures var n := GridSize(start, end, step);
      && (forall i :: 0 <= i < n ==> GridPrices(start, step, n)[i] <= end)
      && start + n as real * step > end
  {
    var n := GridSize(start, end, step);
    if start <= end {
      var q := (end - start) / step;
      assert q * step == end - start by { DivCancels(end - start, step); }
      assert (n - 1) as real <= q < n as real;
      assert q * step < n as real * step by { MulMonotone(q, n as real, step); }
      forall i | 0 <= i < n
        ensures GridPrices(start, step, n)[i] <= end
      {
        GridPriceAtMost(start, end, step, n, q, i);
      }
    }
  }

  /** A grid index up to q, where q steps span [start, end], prices at
      most end. */
  lemma GridPriceAtMost(start: real, end: real, step: real, n: nat, q: real, i: int)
    requires step > 0.0 && q * step == end - start
    requires 0 <= i < n && (n - 1) as real <= q
    ensures GridPrices(start, step, n)[i] <= end
  {
    MulMonotone(i as real, q, step);
  }

  /** The grid loop of step 2. */
  method BuildPriceGrid(start: real, end: real, step: real) returns (prices: seq<real>)
    requires step > 0.0 || start > end
    ensures prices == GridPrices(start, step, GridSize(start, end, step))
  {
    GridSizeSound(start, end, step);
    prices := [];
    var p := start;
    while p <= end
      invariant p == start + |prices| as real * step
      invariant |prices| <= GridSize(start, end, step)
      invariant forall i :: 0 <= i < |prices| ==> prices[i] == start + i as real * step
      decreases GridSize(start, end, step) - |prices|
    {
      assert |prices| < GridSize(start, end, step);
      prices := prices + [p];
      p := p + step;
    }
    GridSizeIsFirstAbove(start, end, step, |prices|);
    assert prices == GridPrices(start, step, |prices|);
  }

  /** No grid index at or above GridSize is below end: the first index
      whose price passes end is GridSize itself. */
  lemma GridSizeIsFirstAbove(start: real, end: real, step: real, k: nat)
    requires step > 0.0 || start > end
    requires start + k as real * step > end
    ensures k >= GridSize(start, end, step)
  {
    if start <= end {
      var q := (end - start) / step;
      assert q * step == end - start by { DivCancels(end - start, step); }
      assert q < k as real by { MulMonotone(k as real, q, step); }
    }
  }

  // ---------------------------------------------------------------------
  // Step 3: spreading each candle's volume over the levels it touches

  /** s with v added to every position in [lo, hi]; s itself when lo > hi. */
  function AddRange(s: seq<real>, lo: int, hi: int, v: real): (r: seq<real>)
    ensures |r| == |s|
  {
    seq(|s|, i requires 0 <= i < |s| => if lo <= i <= hi then s[i] + v else s[i])
  }

  /** The grid levels a candle touches: from the level of its low to the
      level of its high, cut to [0, n - 1]. */
  function CandleSpan(c: Candle, start: real, step: real, n: int): (span: (int, int))
    requires step != 0.0
    ensures 0 <= span.0 && span.1 <= n - 1
  {
    (MaxInt(0, ((c.low - start) / step).Floor), MinInt(n - 1, ((c.high - start) / step).Floor))
  }

  /** One candle's contribution: `vol / max(1, span)` on each level it
      touches, nothing when its volume is not positive. */
  function SpreadCandle(vols: seq<real>, c: Candle, start: real, step: real): (r: seq<real>)
    requires step != 0.0
    ensures |r| == |vols|
  {
    var vol := VolumeOrZero(c);
    if vol <= 0.0 then vols
    else
      var span := CandleSpan(c, start, step, |vols|);
      ShareOver(vols, span.0, span.1, vol)
  }

  /** vol shared evenly over the levels [lo, hi]. */
  function ShareOver(vols: seq<real>, lo: int, hi: int, vol: real): (r: seq<real>)
    ensures |r| == |vols|
  {
    AddRange(vols, lo, hi, vol / MaxInt(1, hi - lo + 1) as real)
  }

  /** The histogram after spreading every candle, in series order. */
  function SpreadAll(cs: seq<Candle>, start: real, step: real, n: nat): (r: seq<real>)
    requires step != 0.0
    ensures |r| == n
  {
    if |cs| == 0 then Zeros(n)
    else SpreadCandle(SpreadAll(cs[..|cs| - 1], start, step, n), cs[|cs| - 1], start, step)
  }

  /** The forEach of step 3. */
  method SpreadVolume(cs: seq<Candle>, start: real, step: real, n: nat) returns (vols: seq<real>)
    requires step != 0.0
    ensures vols == SpreadAll(cs, start, step, n)
  {
    var bins := new real[n](_ => 0.0);
    for ci := 0 to |cs|
      invariant bins[..] == SpreadAll(cs[..ci], start, step, n)
    {
      assert cs[..ci + 1][..ci] == cs[..ci];
      SpreadCandleInto(bins, cs[ci], start, step);
    }
    assert cs[..|cs|] == cs;
    vols := bins[..];
  }

  /** The body of that forEach for one candle: the level span and the
      share of each level. */
  method SpreadCandleInto(bins: array<real>, c: Candle, start: real, step: real)
    requires step != 0.0
    modifies bins
    ensures bins[..] == SpreadCandle(old(bins[..]), c, start, step)
  {
    var vol := VolumeOrZero(c);
    if vol <= 0.0 {
      return;
    }
    var span := CandleSpan(c, start, step, bins.Length);
    var startIndex := span.0;
    var endIndex := span.1;
    var perBin := vol / MaxInt(1, endIndex - startIndex + 1) as real;
    AddOnRange(bins, startIndex, endIndex, perBin);
  }

  /** `bins[i].volume += perBin` for i from startIndex to endIndex. */
  method AddOnRange(bins: array<real>, lo: int, hi: int, v: real)
    requires 0 <= lo && hi < bins.Length
    modifies bins
    ensures bins[..] == AddRange(old(bins[..]), lo, hi, v)
  {
    var i := lo;
    while i <= hi
      invariant i == lo || lo <= i <= hi + 1
      invariant forall j :: 0 <= j < bins.Length ==>
        bins[j] == if lo <= j < i then old(bins[j]) + v else old(bins[j])
    {
      bins[i] := bins[i] + v;
      i := i + 1;
    }
    forall j | 0 <= j < bins.Length
      ensures bins[..][j] == AddRange(old(bins[..]), lo, hi, v)[j]
    {
      assert old(bins[..])[j] == old(bins[j]);
    }
  }

  /** Adding v on the non-empty range [lo, hi] adds (hi - lo + 1) * v in total. */
  lemma {:induction false} SumAddRange(s: seq<real>, lo: int, hi: int, v: real)
    requires 0 <= lo <= hi < |s|
    ensures Sum(AddRange(s, lo, hi, v)) == Sum(s) + (hi - lo + 1) as real * v
    decreases hi - lo
  {
    if hi == lo {
      assert AddRange(s, lo, hi, v) == s[lo := s[lo] + v];
      SumUpdate(s, lo, v);
    } else {
      SumAddRange(s, lo, hi - 1, v);
      var prev := AddRange(s, lo, hi - 1, v);
      assert AddRange(s, lo, hi, v) == prev[hi := prev[hi] + v];
      SumUpdate(prev, hi, v);
    }
  }

  /** The volume of the candles with positive volume. */
  function PositiveVolume(cs: seq<Candle>): real
  {
    if |cs| == 0 then 0.0
    else PositiveVolume(cs[..|cs| - 1]) + (if VolumeOrZero(cs[|cs| - 1]) > 0.0 then VolumeOrZero(cs[|cs| - 1]) else 0.0)
  }

  /** A candle whose span is not empty hands all of its volume to the grid. */
  predicate Lands(c: Candle, start: real, step: real, n: int)
    requires step != 0.0
  {
    VolumeOrZero(c) > 0.0 ==> CandleSpan(c, start, step, n).0 <= CandleSpan(c, start, step, n).1
  }

  /** A landing candle adds exactly its positive volume to the histogram. */
  lemma SpreadCandleAddsVolume(vols: seq<real>, c: Candle, start: real, step: real)
    requires step != 0.0 && Lands(c, start, step, |vols|)
    ensures Sum(SpreadCandle(vols, c, start, step)) == Sum(vols) + (if VolumeOrZero(c) > 0.0 then VolumeOrZero(c) else 0.0)
  {
    if VolumeOrZero(c) > 0.0 {
      var span := CandleSpan(c, start, step, |vols|);
      SpreadAddsShare(vols, span.0, span.1, VolumeOrZero(c));
    }
  }

  /** Sharing vol evenly over the non-empty range [lo, hi] adds vol. */
  lemma SpreadAddsShare(vols: seq<real>, lo: int, hi: int, vol: real)
    requires 0 <= lo <= hi < |vols|
    ensures Sum(ShareOver(vols, lo, hi, vol)) == Sum(vols) + vol
  {
    var k := (hi - lo + 1) as real;
    DivCancels(vol, k);
    SumAddShares(vols, lo, hi, vol / k, vol);
    ShareOverNonEmpty(vols, lo, hi, vol);
  }

  /** Over a non-empty range the share is vol over the range's length. */
  lemma ShareOverNonEmpty(vols: seq<real>, lo: int, hi: int, vol: real)
    requires lo <= hi
    ensures ShareOver(vols, lo, hi, vol) == AddRange(vols, lo, hi, vol / (hi - lo + 1) as real)
  {
    assert MaxInt(1, hi - lo + 1) == hi - lo + 1;
  }

  /** Adding shares that make up vol over [lo, hi] adds vol. */
  lemma SumAddShares(vols: seq<real>, lo: int, hi: int, share: real, vol: real)
    requires 0 <= lo <= hi < |vols|
    requires (hi - lo + 1) as real * share == vol
    ensures Sum(AddRange(vols, lo, hi, share)) == Sum(vols) + vol
  {
    SumAddRange(vols, lo, hi, share);
  }

  /** Spreading loses no volume of the candles that land on the grid. */
  lemma {:induction false} SpreadConservesVolume(cs: seq<Candle>, start: real, step: real, n: nat)
    requires step != 0.0
    requires forall i :: 0 <= i < |cs| ==> Lands(cs[i], start, step, n)
    ensures Sum(SpreadAll(cs, start, step, n)) == PositiveVolume(cs)
  {
    if |cs| == 0 {
      SumZeros(n);
    } else {
      var pre := cs[..|cs| - 1];
      assert forall i :: 0 <= i < |pre| ==> pre[i] == cs[i];
      SpreadConservesVolume(pre, start, step, n);
      SpreadCandleAddsVolume(SpreadAll(pre, start, step, n), cs[|cs| - 1], start, step);
    }
  }

  /** With a positive step, a well-formed candle inside [start, max] lands
      on the grid that runs up to max + step / 2. */
  lemma CandleLandsOnGrid(c: Candle, start: real, max: real, step: real)
    requires step > 0.0 && start <= c.low <= c.high <= max
    ensures Lands(c, start, step, GridSize(start, max + step * 0.5, step))
  {
    var n := GridSize(start, max + step * 0.5, step);
    var a := (c.low - start) / step;
    var b := (c.high - start) / step;
    var e := (max + step * 0.5 - start) / step;
    DivMonotone(0.0, c.low - start, step);
    DivMonotone(c.low - start, c.high - start, step);
    DivMonotone(c.high - start, max + step * 0.5 - start, step);
    assert 0.0 <= a <= b <= e;
    assert n - 1 == e.Floor;
  }

  // ---------------------------------------------------------------------
  // Step 4: maxBinVolume, POC, Value Area

  /** The result once the grid and its volumes are known. */
  function ProfileOfGrid(prices: seq<real>, vols: seq<real>, step: real): VolumeProfile
    requires |prices| == |vols|
  {
    var bins := seq(|vols|, i requires 0 <= i < |vols| => Bin(prices[i], vols[i]));
    var top := PocOf(vols);
    var poc := top.1;
    var maxBinVolume := if top.0 <= 0.0 then 1.0 else top.0;
    var total := Sum(vols);
    if poc >= 0 && total > 0.0 then
      var area := ExpandValueArea(vols, poc, poc, vols[poc], total * ValueAreaShare);
      VolumeProfile(bins, step, maxBinVolume, Some(prices[poc]), Some(prices[area.1]), Some(prices[area.0]))
    else
      VolumeProfile(bins, step, maxBinVolume, None, None, None)
  }

  /** The Value Area loop of step 4: the only neighbour left at an edge,
      otherwise the neighbour with the larger volume, the lower on a tie. */
  method ExpandProfileValueArea(vols: seq<real>, pocIndex: int, target: real) returns (lowIndex: int, highIndex: int)
    requires 0 <= pocIndex < |vols|
    ensures (lowIndex, highIndex) == ExpandValueArea(vols, pocIndex, pocIndex, vols[pocIndex], target)
  {
    lowIndex, highIndex := pocIndex, pocIndex;
    var sumVolume := vols[pocIndex];
    while sumVolume < target && (lowIndex > 0 || highIndex < |vols| - 1)
      invariant 0 <= lowIndex <= pocIndex <= highIndex < |vols|
      invariant ExpandValueArea(vols, lowIndex, highIndex, sumVolume, target)
             == ExpandValueArea(vols, pocIndex, pocIndex, vols[pocIndex], target)
      decreases lowIndex + (|vols| - 1 - highIndex)
    {
      var nextLowIndex: Option<int> := if lowIndex > 0 then Some(lowIndex - 1) else None;
      var nextHighIndex: Option<int> := if highIndex < |vols| - 1 then Some(highIndex + 1) else None;
      var chooseIndex: Option<int> := None;
      if nextLowIndex.None? && nextHighIndex.Some? {
        chooseIndex := nextHighIndex;
      } else if nextHighIndex.None? && nextLowIndex.Some? {
        chooseIndex := nextLowIndex;
      } else if nextLowIndex.Some? && nextHighIndex.Some? {
        var lowVol := vols[nextLowIndex.value];
        var highVol := vols[nextHighIndex.value];
        chooseIndex := if lowVol >= highVol then nextLowIndex else nextHighIndex;
      }
      if chooseIndex.None? {
        assert false;
        break;
      }
      sumVolume := sumVolume + vols[chooseIndex.value];
      if chooseIndex.value < lowIndex {
        lowIndex := chooseIndex.value;
      }
      if chooseIndex.value > highIndex {
        highIndex := chooseIndex.value;
      }
    }
  }

  /** Step 4 as written: the forEach, the maxBinVolume fallback and the
      Value Area. */
  method SummarizeGrid(prices: seq<real>, vols: seq<real>, step: real) returns (r: VolumeProfile)
    requires |prices| == |vols|
    ensures r == ProfileOfGrid(prices, vols, step)
  {
    var bins := seq(|vols|, i requires 0 <= i < |vols| => Bin(prices[i], vols[i]));
    var maxBinVolume, pocIndex, totalVolume := FindPoc(vols);
    if maxBinVolume <= 0.0 {
      maxBinVolume := 1.0;
    }
    var pocPrice: Option<real> := None;
    var vahPrice: Option<real> := None;
    var valPrice: Option<real> := None;
    if pocIndex >= 0 && totalVolume > 0.0 {
      pocPrice := Some(prices[pocIndex]);
      var lowIndex, highIndex := ExpandProfileValueArea(vols, pocIndex, totalVolume * ValueAreaShare);
      valPrice := Some(prices[lowIndex]);
      vahPrice := Some(prices[highIndex]);
    }
    r := VolumeProfile(bins, step, maxBinVolume, pocPrice, vahPrice, valPrice);
  }

  // ---------------------------------------------------------------------
  // The whole computation

  /** The specification of buildVolumeProfileFromCandles. */
  function VolumeProfileOf(cs: seq<Candle>, minPrice: Option<real>, maxPrice: Option<real>, opts: ProfileOptions): VolumeProfile
  {
    if |cs| == 0 || minPrice.None? || maxPrice.None? then EmptyProfile
    else
      var min := minPrice.value;
      var max := maxPrice.value;
      var step := PriceStepOf(cs, min, max, opts);
      PriceStepSign(cs, min, max, opts);
      GridProfile(cs, min, max + step * 0.5, step)
  }

  /** Steps 2 to 4 once the step is known: the grid from start to end, the
      candles spread over it, and its summary. */
  function GridProfile(cs: seq<Candle>, start: real, end: real, step: real): VolumeProfile
    requires step != 0.0 && (step > 0.0 || start > end)
  {
    var prices := GridPrices(start, step, GridSize(start, end, step));
    ProfileOfGrid(prices, SpreadAll(cs, start, step, |prices|), step)
  }

  /** buildVolumeProfileFromCandles, step by step. */
  method BuildVolumeProfileFromCandles(cs: seq<Candle>, minPrice: Option<real>, maxPrice: Option<real>, opts: ProfileOptions)
    returns (r: VolumeProfile)
    ensures r == VolumeProfileOf(cs, minPrice, maxPrice, opts)
  {
    if |cs| == 0 || minPrice.None? || maxPrice.None? {
      return EmptyProfile;
    }
    var min := minPrice.value;
    var max := maxPrice.value;
    var priceStep := ComputePriceStep(cs, min, max, opts);
    PriceStepSign(cs, min, max, opts);
    var prices := BuildPriceGrid(min, max + priceStep * 0.5, priceStep);
    var vols := SpreadVolume(cs, min, priceStep, |prices|);
    r := SummarizeGrid(prices, vols, priceStep);
  }

  // ---------------------------------------------------------------------
  // Properties

  /** Grid prices rise strictly with the index when the step is positive,
      and none is below start. */
  lemma GridPricesAscend(start: real, step: real, n: nat, i: int, j: int)
    requires step > 0.0 && 0 <= i <= j < n
    ensures start <= GridPrices(start, step, n)[i] <= GridPrices(start, step, n)[j]
    ensures i < j ==> GridPrices(start, step, n)[i] < GridPrices(start, step, n)[j]
  {
    var p := GridPrices(start, step, n);
    var di, dj := i as real * step, j as real * step;
    assert p[i] == start + di && p[j] == start + dj;
    MulMonotone(0.0, i as real, step);
    MulMonotone(i as real, j as real, step);
    assert 0.0 <= di <= dj && (i < j ==> di < dj);
  }

  /** The bins pair each grid price with its volume, and the step is kept. */
  lemma ProfileOfGridBins(prices: seq<real>, vols: seq<real>, step: real)
    requires |prices| == |vols|
    ensures var r := ProfileOfGrid(prices, vols, step);
      && |r.bins| == |vols|
      && (forall i :: 0 <= i < |vols| ==> r.bins[i] == Bin(prices[i], vols[i]))
      && r.priceStep == step
  {
  }

  /** maxBinVolume is a positive bound on every bin, and the POC exists
      exactly when some bin holds volume and the total is positive; it is
      then the price of the first bin of greatest volume. */
  lemma ProfileOfGridPoc(prices: seq<real>, vols: seq<real>, step: real) returns (poc: int)
    requires |prices| == |vols|
    ensures var r := ProfileOfGrid(prices, vols, step);
      && r.maxBinVolume > 0.0
      && (forall i :: 0 <= i < |vols| ==> vols[i] <= r.maxBinVolume)
    ensures var r := ProfileOfGrid(prices, vols, step);
      && (r.pocPrice.Some? <==> (exists i :: 0 <= i < |vols| && vols[i] > 0.0) && Sum(vols) > 0.0)
      && (r.pocPrice.None? ==> r.vahPrice.None? && r.valPrice.None?)
      && (r.pocPrice.Some? ==>
            && 0 <= poc < |vols|
            && r.pocPrice.value == prices[poc]
            && vols[poc] == r.maxBinVolume
            && (forall i :: 0 <= i < poc ==> vols[i] < r.maxBinVolume))
  {
    PocOfIsFirstMax(vols);
    poc := PocOf(vols).1;
  }

  /** The Value Area runs over the bins [lowIndex, highIndex] around the
      POC; VAL and VAH are the prices of its end bins, and the bins in it
      hold at least 70% of the volume unless it spans every bin. */
  lemma ProfileOfGridValueArea(prices: seq<real>, vols: seq<real>, step: real) returns (lowIndex: int, highIndex: int)
    requires |prices| == |vols|
    requires ProfileOfGrid(prices, vols, step).pocPrice.Some?
    ensures var r := ProfileOfGrid(prices, vols, step);
      && 0 <= lowIndex <= PocOf(vols).1 <= highIndex < |vols|
      && r.pocPrice == Some(prices[PocOf(vols).1])
      && r.valPrice == Some(prices[lowIndex])
      && r.vahPrice == Some(prices[highIndex])
      && (SumRange(vols, lowIndex, highIndex + 1) >= ValueAreaShare * Sum(vols)
          || (lowIndex == 0 && highIndex == |vols| - 1))
  {
    var poc := PocOf(vols).1;
    var w := ExpandValueArea(vols, poc, poc, vols[poc], Sum(vols) * ValueAreaShare);
    lowIndex, highIndex := w.0, w.1;
    ValueAreaFromPoc(vols, poc, Sum(vols) * ValueAreaShare);
  }

  /** A grid whose end is not below its start has a price. */
  lemma GridNotEmpty(start: real, end: real, step: real)
    requires step > 0.0 && start <= end
    ensures GridSize(start, end, step) >= 1
  {
    DivMonotone(0.0, end - start, step);
  }

  /** With finite bounds the profile is the summary of the spread grid. */
  lemma VolumeProfileIsGrid(cs: seq<Candle>, min: real, max: real, opts: ProfileOptions)
    requires |cs| > 0
    ensures PriceStepOf(cs, min, max, opts) != 0.0
    ensures PriceStepOf(cs, min, max, opts) > 0.0 || min > max + PriceStepOf(cs, min, max, opts) * 0.5
    ensures min <= max ==> PriceStepOf(cs, min, max, opts) > 0.0
    ensures VolumeProfileOf(cs, Some(min), Some(max), opts)
            == GridProfile(cs, min, max + PriceStepOf(cs, min, max, opts) * 0.5, PriceStepOf(cs, min, max, opts))
  {
    PriceStepSign(cs, min, max, opts);
  }

  /** A grid with a positive step from start up to end >= start is the
      non-empty run start, start + step, ... of GridSize prices (whose last
      price is at most end and whose next one would pass it, by
      GridSizeSound), and the profile keeps the step. */
  lemma GridProfileShape(cs: seq<Candle>, start: real, end: real, step: real)
    requires step > 0.0 && start <= end
    ensures GridProfile(cs, start, end, step).priceStep == step
    ensures |GridProfile(cs, start, end, step).bins| == GridSize(start, end, step) >= 1
    ensures forall i :: 0 <= i < |GridProfile(cs, start, end, step).bins| ==>
      GridProfile(cs, start, end, step).bins[i].price == start + i as real * step
  {
    var n := GridSize(start, end, step);
    var prices := GridPrices(start, step, n);
    GridNotEmpty(start, end, step);
    ProfileOfGridBins(prices, SpreadAll(cs, start, step, n), step);
  }

  /** When every candle is well formed and lies within [minPrice, maxPrice],
      the bins hold exactly the volume of the candles with positive volume. */
  lemma VolumeProfileConservesVolume(cs: seq<Candle>, min: real, max: real, opts: ProfileOptions)
    requires |cs| > 0 && min <= max
    requires forall i :: 0 <= i < |cs| ==> min <= cs[i].low <= cs[i].high <= max
    ensures Sum(BinVolumes(VolumeProfileOf(cs, Some(min), Some(max), opts).bins)) == PositiveVolume(cs)
  {
    VolumeProfileIsGrid(cs, min, max, opts);
    PriceStepSign(cs, min, max, opts);
    var step := PriceStepOf(cs, min, max, opts);
    var n := GridSize(min, max + step * 0.5, step);
    var prices := GridPrices(min, step, n);
    var vols := SpreadAll(cs, min, step, n);
    forall i | 0 <= i < |cs|
      ensures Lands(cs[i], min, step, n)
    {
      CandleLandsOnGrid(cs[i], min, max, step);
    }
    SpreadConservesVolume(cs, min, step, n);
    ProfileOfGridBins(prices, vols, step);
    assert BinVolumes(VolumeProfileOf(cs, Some(min), Some(max), opts).bins) == vols;
  }

  /** With minPrice <= maxPrice the reported levels are ordered:
      minPrice <= VAL <= POC <= VAH. */
  lemma VolumeProfileLevelsOrdered(cs: seq<Candle>, min: real, max: real, opts: ProfileOptions)
    requires |cs| > 0 && min <= max
    requires VolumeProfileOf(cs, Some(min), Some(max), opts).pocPrice.Some?
    ensures var r := VolumeProfileOf(cs, Some(min), Some(max), opts);
      && r.valPrice.Some? && r.vahPrice.Some?
      && min <= r.valPrice.value <= r.pocPrice.value <= r.vahPrice.value
  {
    VolumeProfileIsGrid(cs, min, max, opts);
    var step := PriceStepOf(cs, min, max, opts);
    GridLevelsOrdered(cs, min, max + step * 0.5, step);
  }

  /** On an ascending grid from start, start <= VAL <= POC <= VAH. */
  lemma GridLevelsOrdered(cs: seq<Candle>, start: real, end: real, step: real)
    requires step > 0.0
    ensures var r := GridProfile(cs, start, end, step);
      r.pocPrice.Some? ==>
        && r.valPrice.Some? && r.vahPrice.Some?
        && start <= r.valPrice.value <= r.pocPrice.value <= r.vahPrice.value
  {
    var n := GridSize(start, end, step);
    var prices := GridPrices(start, step, n);
    var vols := SpreadAll(cs, start, step, n);
    if ProfileOfGrid(prices, vols, step).pocPrice.Some? {
      var lo, hi := ProfileOfGridValueArea(prices, vols, step);
      GridPricesAscend(start, step, n, lo, PocOf(vols).1);
      GridPricesAscend(start, step, n, PocOf(vols).1, hi);
    }
  }
}
