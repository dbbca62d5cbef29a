/** The main volume profile of the visible candles
    (computeMainProfile, client/src/chart/renderMainProfile.js). */
module MainProfile {
  import opened Common
  import opened Binning
  import opened ValueArea

  /** A computed profile: the bins bottom-up, the POC bin and its volume, the
      total volume and the Value Area price edges (None when not computed). */
  datatype Profile = Profile(bins: seq<Bin>, pocIndex: int, maxVol: real, totalVolume: real,
                             vaLowPrice: Option<real>, vaHighPrice: Option<real>)

  /** `options.bins`: a usable count is a finite non-zero number, otherwise 32. */
  function MainBinsCount(bins: Option<real>): (n: int)
    ensures n >= 8
    ensures bins.None? || bins == Some(0.0) ==> n == 32
    ensures bins.Some? && bins.value >= 8.0 ==> n == bins.value.Floor
  {
    if bins.Some? && bins.value != 0.0 then MaxInt(8, bins.value.Floor) else 32
  }

  /** The Value Area share of the total volume. */
  const ValueAreaShare: real := 0.7

  /** The specification of computeMainProfile: the midpoint histogram of
      the visible candles over the resolved price range, then POC and Value
      Area over it. */
  function MainProfileOf(visible: seq<Candle>, minPrice: Option<real>, maxPrice: Option<real>, bins: Option<real>): Option<Profile>
  {
    if |visible| == 0 then None
    else match PriceRange(visible, minPrice, maxPrice)
      case None => None
      case Some((min, max)) =>
        var count := MainBinsCount(bins);
        var step := BinStep(min, max, count);
        if step <= 0.0 then None
        else ProfileFromBins(MidpointBins(visible, min, step, count), min, step)
  }

  /** POC and Value Area of a histogram whose bin i starts at min + i * step.
      None when no bin has positive volume. */
  function ProfileFromBins(vols: seq<real>, min: real, step: real): Option<Profile>
    requires |vols| >= 1
  {
    var priced := PricedBins(vols, min, step);
    var top := PocOf(vols);
    var maxVol := top.0;
    var poc := top.1;
    if maxVol <= 0.0 then None
    else
      var total := Sum(vols);
      if total > 0.0 && |vols| > 1 then
        var area := ExpandValueArea(vols, poc, poc, vols[poc], total * ValueAreaShare);
        var left := area.0;
        var right := area.1;
        Some(Profile(priced, poc, maxVol, total, Some(priced[left].price), Some(priced[right].price + step)))
      else
        Some(Profile(priced, poc, maxVol, total, None, None))
  }

  /** The Value Area loop of computeMainProfile: take the larger neighbour,
      the left one on a tie, and the only one left at an edge. */
  method ExpandMainValueArea(vols: seq<real>, pocIndex: int, maxVol: real, target: real) returns (left: int, right: int)
    requires 0 <= pocIndex < |vols| && maxVol == vols[pocIndex]
    ensures (left, right) == ExpandValueArea(vols, pocIndex, pocIndex, maxVol, target)
  {
    var acc := maxVol;
    left, right := pocIndex, pocIndex;
    while acc < target && (left > 0 || right < |vols| - 1)
      invariant 0 <= left <= pocIndex <= right < |vols|
      invariant ExpandValueArea(vols, left, right, acc, target) == ExpandValueArea(vols, pocIndex, pocIndex, maxVol, target)
      decreases left + (|vols| - 1 - right)
    {
      var nextLeft := if left > 0 then vols[left - 1] else 0.0;
      var nextRight := if right < |vols| - 1 then vols[right + 1] else 0.0;
      if nextLeft >= nextRight {
        if left > 0 {
          left := left - 1;
          acc := acc + nextLeft;
        } else if right < |vols| - 1 {
          right := right + 1;
          acc := acc + nextRight;
        } else {
          assert false;
          break;
        }
      } else {
        if right < |vols| - 1 {
          right := right + 1;
          acc := acc + nextRight;
        } else if left > 0 {
          left := left - 1;
          acc := acc + nextLeft;
        } else {
          assert false;
          break;
        }
      }
    }
  }

  /** computeMainProfile, step by step as the source does it. */
  method ComputeMainProfile(visible: seq<Candle>, minPrice: Option<real>, maxPrice: Option<real>, bins: Option<real>)
    returns (r: Option<Profile>)
    ensures r == MainProfileOf(visible, minPrice, maxPrice, bins)
  {
    if |visible| == 0 {
      return None;
    }
    var range := ResolvePriceRange(visible, minPrice, maxPrice);
    if range.None? {
      return None;
    }
    var min := range.value.0;
    var max := range.value.1;
    var count := MainBinsCount(bins);
    var step := BinStep(min, max, count);
    if step <= 0.0 {
      return None;
    }
    var vols := FillMidpointBins(visible, min, step, count);
    r := ProfileOfBins(vols, min, step);
  }

  /** The second half of computeMainProfile: price the bins, find the POC
      and the total, and grow the Value Area. */
  method ProfileOfBins(vols: seq<real>, min: real, step: real) returns (r: Option<Profile>)
    requires |vols| >= 1
    ensures r == ProfileFromBins(vols, min, step)
  {
    var resultBins := PricedBins(vols, min, step);
    var maxVol, pocIndex, totalVolume := FindPoc(vols);
    if maxVol <= 0.0 {
      return None;
    }
    var vaLowPrice: Option<real> := None;
    var vaHighPrice: Option<real> := None;
    if totalVolume > 0.0 && |resultBins| > 1 {
      var left, right := ExpandMainValueArea(vols, pocIndex, maxVol, totalVolume * ValueAreaShare);
      vaLowPrice := Some(resultBins[left].price);
      vaHighPrice := Some(resultBins[right].price + step);
    }
    r := Some(Profile(resultBins, pocIndex, maxVol, totalVolume, vaLowPrice, vaHighPrice));
  }

  /** A histogram has a profile exactly when some bin has positive volume.
      The profile keeps the bins, its POC is the first bin of greatest
      volume, and its total is the histogram's sum. */
  lemma ProfileFromBinsSound(vols: seq<real>, min: real, step: real)
    requires |vols| >= 1
    ensures ProfileFromBins(vols, min, step).Some? <==> exists i :: 0 <= i < |vols| && vols[i] > 0.0
    ensures var p := ProfileFromBins(vols, min, step);
      p.Some? ==>
        && p.value.bins == PricedBins(vols, min, step)
        && p.value.totalVolume == Sum(vols)
        && 0 <= p.value.pocIndex < |vols|
        && vols[p.value.pocIndex] == p.value.maxVol > 0.0
        && (forall i :: 0 <= i < |vols| ==> vols[i] <= p.value.maxVol)
        && (forall i :: 0 <= i < p.value.pocIndex ==> vols[i] < p.value.maxVol)
  {
    PocOfIsFirstMax(vols);
  }

  /** The Value Area, when computed, runs from the lower edge of bin l at or
      below the POC to the upper edge of bin r at or above it, and that band
      holds at least 70% of the volume or spans every bin. */
  lemma ProfileFromBinsValueArea(vols: seq<real>, min: real, step: real) returns (l: int, r: int)
    requires |vols| >= 1 && ProfileFromBins(vols, min, step).Some?
    ensures var p := ProfileFromBins(vols, min, step).value;
      && (p.vaLowPrice.Some? <==> Sum(vols) > 0.0 && |vols| > 1)
      && (p.vaLowPrice.Some? <==> p.vaHighPrice.Some?)
    ensures var p := ProfileFromBins(vols, min, step).value;
      p.vaLowPrice.Some? ==>
        && 0 <= l <= p.pocIndex <= r < |vols|
        && p.vaLowPrice.value == p.bins[l].price
        && p.vaHighPrice.value == p.bins[r].price + step
        && (SumRange(vols, l, r + 1) >= ValueAreaShare * Sum(vols) || (l == 0 && r == |vols| - 1))
  {
    var poc := PocOf(vols).1;
    var total := Sum(vols);
    var priced := PricedBins(vols, min, step);
    l, r := poc, poc;
    if total > 0.0 && |vols| > 1 {
      var w := ExpandValueArea(vols, poc, poc, vols[poc], total * ValueAreaShare);
      l, r := w.0, w.1;
      ValueAreaFromPoc(vols, poc, total * ValueAreaShare);
    }
  }

  /** No candles, no usable range or a downward range give no profile. */
  lemma MainProfileAbsent(visible: seq<Candle>, minPrice: Option<real>, maxPrice: Option<real>, bins: Option<real>)
    requires || |visible| == 0
             || PriceRange(visible, minPrice, maxPrice).None?
             || PriceRange(visible, minPrice, maxPrice).value.1 < PriceRange(visible, minPrice, maxPrice).value.0
    ensures MainProfileOf(visible, minPrice, maxPrice, bins).None?
  {
  }

  /** A profile has at least eight bins that span the resolved range from
      its low to its high, and holds all of the visible volume. */
  lemma MainProfileShape(visible: seq<Candle>, minPrice: Option<real>, maxPrice: Option<real>, bins: Option<real>)
    requires MainProfileOf(visible, minPrice, maxPrice, bins).Some?
    ensures PriceRange(visible, minPrice, maxPrice).Some?
    ensures var p := MainProfileOf(visible, minPrice, maxPrice, bins).value;
      var bounds := PriceRange(visible, minPrice, maxPrice).value;
      var min := bounds.0;
      var max := bounds.1;
      && min < max
      && |p.bins| == MainBinsCount(bins) >= 8
      && p.bins[0].price == min
      && p.bins[|p.bins| - 1].price + BinStep(min, max, |p.bins|) == max
      && p.totalVolume == TotalVolume(visible)
  {
    var bounds := PriceRange(visible, minPrice, maxPrice).value;
    var min := bounds.0;
    var max := bounds.1;
    var count := MainBinsCount(bins);
    var step := BinStep(min, max, count);
    var vols := MidpointBins(visible, min, step, count);
    ProfileFromBinsSound(vols, min, step);
    MidpointBinsConserveVolume(visible, min, step, count);
    PricedBinsReachMax(vols, min, max);
  }

  /** Candles carrying positive total volume over a usable upward range
      always give a profile. */
  lemma MainProfileExists(visible: seq<Candle>, minPrice: Option<real>, maxPrice: Option<real>, bins: Option<real>)
    requires |visible| > 0 && PriceRange(visible, minPrice, maxPrice).Some?
    requires PriceRange(visible, minPrice, maxPrice).value.0 < PriceRange(visible, minPrice, maxPrice).value.1
    requires TotalVolume(visible) > 0.0
    ensures MainProfileOf(visible, minPrice, maxPrice, bins).Some?
  {
    var bounds := PriceRange(visible, minPrice, maxPrice).value;
    var min := bounds.0;
    var max := bounds.1;
    var count := MainBinsCount(bins);
    var step := BinStep(min, max, count);
    var vols := MidpointBins(visible, min, step, count);
    MidpointBinsConserveVolume(visible, min, step, count);
    PositiveSumHasPositive(vols);
    ProfileFromBinsSound(vols, min, step);
  }

  /** A positive sum has a positive term. */
  lemma {:induction false} PositiveSumHasPositive(s: seq<real>)
    requires Sum(s) > 0.0
    ensures exists i :: 0 <= i < |s| && s[i] > 0.0
  {
    var pre := s[..|s| - 1];
    if s[|s| - 1] <= 0.0 {
      PositiveSumHasPositive(pre);
      var i :| 0 <= i < |pre| && pre[i] > 0.0;
      assert s[i] == pre[i];
    }
  }
}
