/** The price range and midpoint binning shared, line for line, by
    computeMainProfile (client/src/chart/renderMainProfile.js) and
    computeRangeProfile (client/src/chart/renderRangeProfile.js). */
module Binning {
  import opened Common

  /** The range used for binning. Given bounds are kept when both are finite
      and different; otherwise the lows and highs are scanned starting from
      them (a missing bound starts at the matching infinity). None when a
      bound is still infinite or the two bounds coincide. */
  function PriceRange(cs: seq<Candle>, minPrice: Option<real>, maxPrice: Option<real>): Option<(real, real)>
  {
    var scan := minPrice.None? || maxPrice.None? || minPrice == maxPrice;
    var lo := if scan then FoldLow(cs, minPrice) else minPrice;
    var hi := if scan then FoldHigh(cs, maxPrice) else maxPrice;
    if lo.None? || hi.None? || lo == hi then None else Some((lo.value, hi.value))
  }

  /** Given distinct bounds are used as they are; a scanned range brackets
      every candle and any given bound; a non-empty series always yields
      finite bounds, so it fails only when they coincide. */
  lemma PriceRangeSound(cs: seq<Candle>, minPrice: Option<real>, maxPrice: Option<real>)
    ensures PriceRange(cs, minPrice, maxPrice).Some? ==>
      PriceRange(cs, minPrice, maxPrice).value.0 != PriceRange(cs, minPrice, maxPrice).value.1
    ensures minPrice.Some? && maxPrice.Some? && minPrice != maxPrice ==>
      PriceRange(cs, minPrice, maxPrice) == Some((minPrice.value, maxPrice.value))
    ensures (minPrice.None? || maxPrice.None? || minPrice == maxPrice) && PriceRange(cs, minPrice, maxPrice).Some? ==>
      forall i :: 0 <= i < |cs| ==>
        PriceRange(cs, minPrice, maxPrice).value.0 <= cs[i].low && cs[i].high <= PriceRange(cs, minPrice, maxPrice).value.1
    ensures (minPrice.None? || maxPrice.None? || minPrice == maxPrice) && |cs| > 0 ==>
      (PriceRange(cs, minPrice, maxPrice).None? <==> FoldLow(cs, minPrice) == FoldHigh(cs, maxPrice))
  {
    FoldLowIsMin(cs, minPrice);
    FoldHighIsMax(cs, maxPrice);
  }

  /** The `for (const c of visibleCandles)` scan of lows and highs. */
  method ScanRange(cs: seq<Candle>, min0: Option<real>, max0: Option<real>) returns (lo: Option<real>, hi: Option<real>)
    ensures lo == FoldLow(cs, min0) && hi == FoldHigh(cs, max0)
  {
    lo, hi := min0, max0;
    for i := 0 to |cs|
      invariant lo == FoldLow(cs[..i], min0) && hi == FoldHigh(cs[..i], max0)
    {
      assert cs[..i + 1][..i] == cs[..i];
      if lo.None? || cs[i].low < lo.value {
        lo := Some(cs[i].low);
      }
      if hi.None? || cs[i].high > hi.value {
        hi := Some(cs[i].high);
      }
    }
    assert cs[..|cs|] == cs;
  }

  /** The min/max fallback at the head of both profile computations. */
  method ResolvePriceRange(cs: seq<Candle>, minPrice: Option<real>, maxPrice: Option<real>) returns (range: Option<(real, real)>)
    ensures range == PriceRange(cs, minPrice, maxPrice)
  {
    var min, max := minPrice, maxPrice;
    if min.None? || max.None? || min == max {
      min, max := ScanRange(cs, min, max);
    }
    if min.None? || max.None? || min == max {
      return None;
    }
    return Some((min.value, max.value));
  }

  /** `(max - min) / binsCount`, the height of one bin. */
  function BinStep(min: real, max: real, count: int): (step: real)
    requires count >= 1
    ensures step > 0.0 <==> min < max
    ensures step * count as real == max - min
  {
    MulMonotone((max - min) / count as real, 0.0, count as real);
    (max - min) / count as real
  }

  /** `(open + close) / 2`, the price a candle's whole volume is filed under. */
  function Midpoint(c: Candle): real
  {
    (c.open + c.close) / 2.0
  }

  /** Bin of a candle: floor((mid - min) / step), clamped to [0, count - 1]. */
  function MidpointIndex(c: Candle, min: real, step: real, count: int): (k: int)
    requires step > 0.0 && count >= 1
    ensures 0 <= k < count
    ensures min <= Midpoint(c) < min + count as real * step ==>
      min + k as real * step <= Midpoint(c) < min + (k + 1) as real * step
    ensures Midpoint(c) < min ==> k == 0
    ensures Midpoint(c) >= min + count as real * step ==> k == count - 1
  {
    var idx := ((Midpoint(c) - min) / step).Floor;
    FloorOfQuotient(Midpoint(c) - min, step, count);
    MaxInt(0, MinInt(count - 1, idx))
  }

  /** Where floor(x / step) lands relative to the bins [0, count). */
  lemma FloorOfQuotient(x: real, step: real, count: int)
    requires step > 0.0 && count >= 1
    ensures var idx := (x / step).Floor;
      && (0.0 <= x < count as real * step ==> 0 <= idx < count && idx as real * step <= x < (idx + 1) as real * step)
      && (x < 0.0 ==> idx < 0)
      && (x >= count as real * step ==> idx >= count)
  {
    var q := x / step;
    var idx := q.Floor;
    assert q * step == x;
    assert idx as real <= q < (idx + 1) as real;
    MulMonotone(idx as real, q, step);
    MulMonotone(q, (idx + 1) as real, step);
    MulMonotone(q, 0.0, step);
    MulMonotone(q, count as real, step);
    assert q * step < (idx + 1) as real * step;
    assert x < (idx + 1) as real * step;
  }

  /** Histogram after filing each candle's volume under its midpoint bin,
      in series order. */
  function MidpointBins(cs: seq<Candle>, min: real, step: real, count: int): (b: seq<real>)
    requires step > 0.0 && count >= 1
    ensures |b| == count
  {
    if |cs| == 0 then Zeros(count)
    else
      var prev := MidpointBins(cs[..|cs| - 1], min, step, count);
      var k := MidpointIndex(cs[|cs| - 1], min, step, count);
      prev[k := prev[k] + VolumeOrZero(cs[|cs| - 1])]
  }

  /** Total volume of a series, missing volumes counted as zero. */
  function TotalVolume(cs: seq<Candle>): real
  {
    if |cs| == 0 then 0.0 else TotalVolume(cs[..|cs| - 1]) + VolumeOrZero(cs[|cs| - 1])
  }

  /** Volume of the candles whose midpoint falls in bin k. */
  function VolumeInBin(cs: seq<Candle>, min: real, step: real, count: int, k: int): real
    requires step > 0.0 && count >= 1
  {
    if |cs| == 0 then 0.0
    else
      VolumeInBin(cs[..|cs| - 1], min, step, count, k)
      + (if MidpointIndex(cs[|cs| - 1], min, step, count) == k then VolumeOrZero(cs[|cs| - 1]) else 0.0)
  }

  /** Binning loses no volume: the bins add up to the series' volume. */
  lemma {:induction false} MidpointBinsConserveVolume(cs: seq<Candle>, min: real, step: real, count: int)
    requires step > 0.0 && count >= 1
    ensures Sum(MidpointBins(cs, min, step, count)) == TotalVolume(cs)
  {
    if |cs| == 0 {
      SumZeros(count);
    } else {
      var pre := cs[..|cs| - 1];
      MidpointBinsConserveVolume(pre, min, step, count);
      var k := MidpointIndex(cs[|cs| - 1], min, step, count);
      SumUpdate(MidpointBins(pre, min, step, count), k, VolumeOrZero(cs[|cs| - 1]));
    }
  }

  /** Each bin holds exactly the volume of the candles filed under it. */
  lemma {:induction false} MidpointBinsAt(cs: seq<Candle>, min: real, step: real, count: int, k: int)
    requires step > 0.0 && count >= 1 && 0 <= k < count
    ensures MidpointBins(cs, min, step, count)[k] == VolumeInBin(cs, min, step, count, k)
  {
    if |cs| > 0 {
      MidpointBinsAt(cs[..|cs| - 1], min, step, count, k);
    }
  }

  /** The loop `bins[index].volume += vol` over a freshly zeroed array. */
  method FillMidpointBins(cs: seq<Candle>, min: real, step: real, count: int) returns (vols: seq<real>)
    requires step > 0.0 && count >= 1
    ensures vols == MidpointBins(cs, min, step, count)
  {
    var bins := new real[count](_ => 0.0);
    for i := 0 to |cs|
      invariant bins[..] == MidpointBins(cs[..i], min, step, count)
    {
      assert cs[..i + 1][..i] == cs[..i];
      var index := MidpointIndex(cs[i], min, step, count);
      bins[index] := bins[index] + VolumeOrZero(cs[i]);
    }
    assert cs[..|cs|] == cs;
    vols := bins[..];
  }

  /** `bins.map((b, i) => ({ price: min + i * step, volume: b.volume }))`. */
  function PricedBins(vols: seq<real>, min: real, step: real): (bins: seq<Bin>)
    ensures |bins| == |vols|
    ensures forall i :: 0 <= i < |vols| ==> bins[i].volume == vols[i]
  {
    seq(|vols|, i requires 0 <= i < |vols| => Bin(min + i as real * step, vols[i]))
  }

  /** The volumes of a list of bins. */
  function BinVolumes(bins: seq<Bin>): (v: seq<real>)
    ensures |v| == |bins| && forall i :: 0 <= i < |bins| ==> v[i] == bins[i].volume
  {
    seq(|bins|, i requires 0 <= i < |bins| => bins[i].volume)
  }

  /** The top bin ends where the range ends: its lower edge plus one step
      is max. */
  lemma PricedBinsReachMax(vols: seq<real>, min: real, max: real)
    requires |vols| >= 1
    ensures var bins := PricedBins(vols, min, BinStep(min, max, |vols|));
      bins[|vols| - 1].price + BinStep(min, max, |vols|) == max
  {
    var step := BinStep(min, max, |vols|);
    var n := |vols| as real;
    assert PricedBins(vols, min, step)[|vols| - 1].price == min + (n - 1.0) * step;
    assert (n - 1.0) * step + step == n * step;
  }

  /** The bins tile [min, min + |vols| * step) from the bottom up. */
  lemma PricedBinsAscend(vols: seq<real>, min: real, step: real, i: int, j: int)
    requires step > 0.0 && 0 <= i < j < |vols|
    ensures PricedBins(vols, min, step)[i].price + step <= PricedBins(vols, min, step)[j].price
    ensures PricedBins(vols, min, step)[0].price == min
  {
    var b := PricedBins(vols, min, step);
    var d := j as real - i as real;
    assert b[i].price == min + i as real * step;
    assert b[j].price == min + (i as real + d) * step;
    assert (i as real + d) * step == i as real * step + d * step;
    MulMonotone(1.0, d, step);
    assert b[i].price + step <= b[j].price;
  }
}
