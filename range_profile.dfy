/** The profile of a selected candle range
    (computeRangeProfile, client/src/chart/renderRangeProfile.js). */
module RangeProfile {
  import opened Common
  import opened Binning

  /** The `enabledOrBins` argument. Off covers every falsy value except the
      number 0 (false, null, undefined, NaN, ''); On covers true and any other
      truthy value that is not a finite number; Count is a finite number. */
  datatype BinsArg = Off | On | Count(n: real)

  /** Bins of the range plus the price metadata attached to the array. */
  datatype RangeProfile = RangeProfile(bins: seq<Bin>, minPrice: real, maxPrice: real, priceStep: real)

  /** Whether the argument is truthy: the number 0 is falsy like Off. */
  predicate Enabled(arg: BinsArg)
  {
    arg != Off && arg != Count(0.0)
  }

  /** A finite number gives max(8, floor(n)) bins, anything else 24. */
  function RangeBinsCount(arg: BinsArg): (n: int)
    ensures n >= 8
    ensures !arg.Count? ==> n == 24
    ensures arg.Count? && arg.n >= 8.0 ==> n == arg.n.Floor
  {
    if arg.Count? then MaxInt(8, arg.n.Floor) else 24
  }

  /** The specification of computeRangeProfile. */
  function RangeProfileOf(candles: seq<Candle>, minPrice: Option<real>, maxPrice: Option<real>, arg: BinsArg): Option<RangeProfile>
  {
    if !Enabled(arg) || |candles| == 0 then None
    else match PriceRange(candles, minPrice, maxPrice)
      case None => None
      case Some((min, max)) =>
        var count := RangeBinsCount(arg);
        var step := BinStep(min, max, count);
        if step <= 0.0 then None
        else Some(RangeProfile(PricedBins(MidpointBins(candles, min, step, count), min, step), min, max, step))
  }

  /** computeRangeProfile, step by step. */
  method ComputeRangeProfile(candles: seq<Candle>, minPrice: Option<real>, maxPrice: Option<real>, arg: BinsArg)
    returns (r: Option<RangeProfile>)
    ensures r == RangeProfileOf(candles, minPrice, maxPrice, arg)
  {
    if !Enabled(arg) {
      return None;
    }
    if |candles| == 0 {
      return None;
    }
    var range := ResolvePriceRange(candles, minPrice, maxPrice);
    if range.None? {
      return None;
    }
    var min := range.value.0;
    var max := range.value.1;
    var binsCount := 24;
    if arg.Count? {
      binsCount := MaxInt(8, arg.n.Floor);
    }
    var step := BinStep(min, max, binsCount);
    if step <= 0.0 {
      return None;
    }
    var vols := FillMidpointBins(candles, min, step, binsCount);
    r := Some(RangeProfile(PricedBins(vols, min, step), min, max, step));
  }

  /** Unlike the main profile, a range profile does not need volume: it
      exists exactly when it is switched on, the range holds candles, and
      their price range resolves upwards. */
  lemma RangeProfileExists(candles: seq<Candle>, minPrice: Option<real>, maxPrice: Option<real>, arg: BinsArg)
    ensures RangeProfileOf(candles, minPrice, maxPrice, arg).Some? <==>
      && Enabled(arg)
      && |candles| > 0
      && PriceRange(candles, minPrice, maxPrice).Some?
      && PriceRange(candles, minPrice, maxPrice).value.0 < PriceRange(candles, minPrice, maxPrice).value.1
  {
  }

  /** A range profile has at least eight bins of height priceStep that
      tile [minPrice, maxPrice], the range the candles resolved to. */
  lemma RangeProfileGrid(candles: seq<Candle>, minPrice: Option<real>, maxPrice: Option<real>, arg: BinsArg)
    requires RangeProfileOf(candles, minPrice, maxPrice, arg).Some?
    ensures var p := RangeProfileOf(candles, minPrice, maxPrice, arg).value;
      && |p.bins| == RangeBinsCount(arg) >= 8
      && p.minPrice < p.maxPrice
      && (p.minPrice, p.maxPrice) == PriceRange(candles, minPrice, maxPrice).value
      && p.priceStep * |p.bins| as real == p.maxPrice - p.minPrice
      && p.bins[0].price == p.minPrice
      && p.bins[|p.bins| - 1].price + p.priceStep == p.maxPrice
  {
    var bounds := PriceRange(candles, minPrice, maxPrice).value;
    var min := bounds.0;
    var max := bounds.1;
    var count := RangeBinsCount(arg);
    var step := BinStep(min, max, count);
    PricedBinsReachMax(MidpointBins(candles, min, step, count), min, max);
  }

  /** Each bin holds the volume of the candles whose midpoint falls in it,
      and together the bins hold all of the range's volume. */
  lemma RangeProfileVolumes(candles: seq<Candle>, minPrice: Option<real>, maxPrice: Option<real>, arg: BinsArg)
    requires RangeProfileOf(candles, minPrice, maxPrice, arg).Some?
    ensures var p := RangeProfileOf(candles, minPrice, maxPrice, arg).value;
      && (forall k :: 0 <= k < |p.bins| ==>
            p.bins[k].volume == VolumeInBin(candles, p.minPrice, p.priceStep, |p.bins|, k))
      && Sum(BinVolumes(p.bins)) == TotalVolume(candles)
  {
    var p := RangeProfileOf(candles, minPrice, maxPrice, arg).value;
    var bounds := PriceRange(candles, minPrice, maxPrice).value;
    var min := bounds.0;
    var max := bounds.1;
    var count := RangeBinsCount(arg);
    var step := BinStep(min, max, count);
    var vols := MidpointBins(candles, min, step, count);
    assert p.bins == PricedBins(vols, min, step);
    forall k | 0 <= k < count
      ensures p.bins[k].volume == VolumeInBin(candles, min, step, count, k)
    {
      MidpointBinsAt(candles, min, step, count, k);
    }
    assert BinVolumes(p.bins) == vols;
    MidpointBinsConserveVolume(candles, min, step, count);
  }
}
