# moex-trader chart engine and server normalisers, in Dafny

This project models the computational core of moex-trader. moex-trader is a
candlestick viewer for Moscow Exchange (MOEX ISS) data: a React client draws
candles, volumes and volume profiles, and an Express server fetches, filters
and caches candles. The Dafny model covers:

- **Viewport and geometry** (`Geometry`). The visible window is a slice of the
  series chosen by bars-per-screen and a right offset. Price statistics are
  taken over that window. The layout computes the panes and the
  price/volume/index converters.
- **Interaction arithmetic** (`Interactions`). It covers pan offset, wheel
  zoom and picking the candle under the pointer.
- **Volume profiles**:
  - `Binning`, `ValueArea`, `MainProfile` and `RangeProfile` cover the main
    profile and the range profile. Both use the open/close midpoint rule, and
    the main profile also finds the POC (point of control) and a 70% Value
    Area.
  - `PriceStep` and `VolumeProfile` cover `buildVolumeProfileFromCandles`.
    It chooses a price step, builds a price grid, spreads each candle's volume
    evenly over the levels of its [low, high] range, and finds the POC and
    Value Area.
- **The chart component** (`CandlesChart`, `ChartController`):
  - bin-count heuristics;
  - the candles of the selection;
  - the day, week and session auto-ranges;
  - clipping of range boxes to the visible window;
  - the pinned ranges;
  - the mouse and wheel state machine, as a class whose fields are the
    component's state.
- **Server** (`CandleController`, `MoexService`, `JsonCache`):
  - normalisation and validation of the query parameters, and the HTTP status
    chosen;
  - the ISS column lookup, row filter, tail truncation and result summary;
  - the in-memory TTL cache, as a class over a map;
  - the file name and expiry decision of the JSON file cache.

Modelling conventions:
- Prices, volumes and pixel coordinates are `real`. OHLC values are finite.
- A candle's volume and time are `Option`s. `None` stands for a non-numeric
  volume or an unparsable time.
- Timestamps are integer milliseconds.
- `Math.floor` is `.Floor`. `Math.round` is `Round` (halves round up).
- Loops of the source are methods with loop invariants. Each is proved equal
  to a recursive specification function, and the properties are lemmas about
  that function.
- Effects and foreign calls become parameters: the HTTP response body, `Date`
  parsing, `Date.now()`, the pin id, and the file-system state.

Behaviour of the code that the model keeps as written:
- **Mouse-up keeps selections.** `handleMouseUp` (CandlesChart.jsx:699-709)
  only ends the drag and hides a cross-hair, so it keeps a selection of zero
  width (`ChartController.Chart.HandleMouseUp`).
- **Zoom direction.** The wheel handler passes `e.deltaY` as the zoom
  direction (CandlesChart.jsx:602), so a positive `deltaY` (the wheel turned
  towards the user) shows five fewer bars. The comment at interactions.js:24
  says turning the wheel up should.
- **Viewport kept across series.** `barsPerScreen` and `rightOffset` change
  only in the wheel and pan handlers (CandlesChart.jsx:603, 673), so a new
  series keeps the viewport of the old one.
- **Range profile binning.** The range profile files each candle's whole
  volume under the bin of its `(open + close) / 2` (renderRangeProfile.js:38-44).
- **VAH of `buildVolumeProfileFromCandles`.** It is the lower edge of its bin
  (volumeProfile.js:168), while the main profile's `vaHighPrice` adds one
  step (renderMainProfile.js:109).
- **Missing exports.** The controller destructures `ALLOWED_TIMEFRAMES` and
  `MAX_CANDLES` from the MOEX service (candleController.js:3-7), but
  moexService.js:165-167 exports only `fetchCandlesFromMoex`, and the service
  defines no `ALLOWED_TIMEFRAMES` at all. `Object.keys(undefined)` at
  candleController.js:10 therefore throws a TypeError when the module is
  loaded, so neither the route nor the server starts. Even if it loaded,
  `MAX_CANDLES` would be undefined and the cap at candleController.js:62
  would never apply. The model takes the allowed set and the maximum as
  parameters: the keys `{10m, 1h, 1d}` from the comment at
  candleController.js:9 and the 2000 of moexService.js:9.
- **Structured query values.** A repeated or bracketed `symbol` or `tf`
  reaches the normalisers as an array or object; `toUpperCase` or `trim`
  then throws and the catch answers 500 (`CandleController.GetCandlesStatus`).
- **Service result.** The service returns a summary object, not an array, so
  a 200 response reports `count: 0`.
- **Error status.** The service never tags its errors with `source: 'moex'`,
  so the 502 branch is unreachable (`CandleController.ServiceOutcomeStatuses`).
- **Ignored options.** The controller passes `{limit, from}` to the service,
  which ignores them. The in-memory cache key is only `symbol|timeframe`.
- **Unparsable dates.** A cache file whose `createdAt` is not a date is served
  as fresh, because `now - NaN > ttl` is false.
- **Exclusive end index.** The off-screen tests of the range boxes compare the
  window's exclusive `endIndex` as if it were inclusive
  (`CandlesChart.ClipKeepsRangeStartingAtWindowEnd`).
- **Picking a candle centre.** Clicking the centre of candle `i` picks candle
  `i + 1` (`Interactions.PickAtCentreSelectsNextBar`).

## Model

| member | source | states |
|---|---|---|
| Common.Clamp | client/src/chart/geometry.js:3-5 | The result lies in [lo, hi] when lo <= hi, equals the value when it is already inside, and never exceeds hi (the max check runs last) |
| Common.ClampInt | client/src/chart/geometry.js:3-5 | The same clamp on integers, as used for bar counts and offsets |
| Common.Round | client/src/chart/interactions.js:11 | Math.round: the result is the integer within half a unit below / strictly less than half above x |
| Common.FoldLowIsMin | client/src/chart/renderMainProfile.js:23-26 | The low scan yields a value iff there is a candle or a start value; it is below every low and the start, and is either the start or some candle's low |
| Common.FoldHighIsMax | client/src/chart/renderMainProfile.js:23-26 | The high scan yields a value iff there is a candle or a start value; it is above every high and the start, and is either the start or some candle's high |
| Geometry.ComputeVisibleWindow | client/src/chart/geometry.js:8-45 | Empty series gives the all-zero window; otherwise bars = min(total, max(20, round(barsPerScreen or 20))) in [1, total], maxOffset = max(0, total - bars), offset in [0, maxOffset] and equal to an in-range rightOffset, endIndex = total - offset, endIndex - startIndex = bars, visible = candles[startIndex..endIndex) |
| Geometry.WholeSeriesFits | client/src/chart/geometry.js:22-34 | A non-empty series no longer than max(20, round(barsPerScreen or 20)) is shown whole: bars = total, startIndex = 0, offset = maxOffset = 0, whatever the right offset |
| Geometry.FoldVolumeIsMax | client/src/chart/geometry.js:57 | The volume scan is at least the start and every numeric candle volume |
| Geometry.PriceStatsSound | client/src/chart/geometry.js:48-73 | maxVolume > 0 and bounds every volume; no candles give (0, 1, 1); minPrice bounds every low and maxPrice every high; minPrice < maxPrice for candles with low <= high |
| Geometry.PriceStatsOf | client/src/chart/geometry.js:48-73 | The statistics as a value; its contract is carried by PriceStatsSound (bounds, defaults) and ComputePriceStats (the loop equals it) |
| Geometry.ComputePriceStats | client/src/chart/geometry.js:48-73 | The loop computes the stats specified by PriceStatsOf, with maxVolume > 0 and, for well-formed candles, minPrice < maxPrice |
| Geometry.BuildGeometry | client/src/chart/geometry.js:76-128 | Width >= 400 and height >= 250 (and at least the requested size), priceTop < priceBottom == volumeTop < volumeBottom, profileWidth in [40, 200], paddingLeft <= profileLeft < profileRight == chartRight, n >= max(1, visibleCount), candleSpacing * n == fullChartWidth, candleWidth >= 3, volumeBarWidth >= 2 |
| Geometry.BuildGeometryValid | client/src/chart/geometry.js:76-197 | Every built geometry satisfies the layout invariant the converters rely on |
| Geometry.XToLocalIndex | client/src/chart/geometry.js:154-158 | The local index of any x lies in [0, n - 1] |
| Geometry.PriceToYEnds | client/src/chart/geometry.js:130-133 | minPrice maps to priceBottom and maxPrice to priceTop |
| Geometry.PriceToY | client/src/chart/geometry.js:130-133 | priceToY; carried by PriceToYEnds, PriceToYDecreasing and PriceRoundTrip |
| Geometry.PriceToYDecreasing | client/src/chart/geometry.js:130-133 | A higher price is drawn strictly higher on screen (smaller y) |
| Geometry.YToPriceInRange | client/src/chart/geometry.js:135-139 | Every y reads back a price in [minPrice, maxPrice] |
| Geometry.YToPrice | client/src/chart/geometry.js:135-139 | yToPrice; carried by YToPriceInRange and PriceRoundTrip |
| Geometry.PriceRoundTrip | client/src/chart/geometry.js:130-139 | yToPrice(priceToY(p)) == p for every p in [minPrice, maxPrice] |
| Geometry.VolumeToYInPane | client/src/chart/geometry.js:141-144 | Volumes in [0, maxVolume] are drawn inside the volume pane, 0 at its bottom and maxVolume at its top |
| Geometry.VolumeToY | client/src/chart/geometry.js:141-144 | volumeToY; carried by VolumeToYInPane |
| Geometry.CentreReadsHalfSlotRight | client/src/chart/geometry.js:146-158 | xToLocalIndex(indexToX(i)) == i + 0.5 inside the pane |
| Geometry.IndexToX | client/src/chart/geometry.js:146-152 | indexToX; carried by CentreReadsHalfSlotRight and Interactions.PickAtCentreSelectsNextBar |
| Interactions.CalcPanOffset | client/src/chart/interactions.js:9-16 | Zero spacing keeps the offset; otherwise the result is at most maxOffset, not negative when maxOffset >= 0, and equals offset + round(deltaX / spacing) when that is in range |
| Interactions.PanMonotone | client/src/chart/interactions.js:11-15 | A longer drag never gives a smaller offset |
| Interactions.PanRightNeverDecreases | client/src/chart/interactions.js:11-15 | From an in-range offset a rightward drag never decreases it, a leftward one never increases it, and no drag keeps it |
| Interactions.CalcZoomAroundPoint | client/src/chart/interactions.js:23-29 | A positive direction removes 5 bars and any other adds 5, then the result is clamped to [minBars, maxBars]; it is maxBars when maxBars < minBars |
| Interactions.ZoomStepsCancel | client/src/chart/interactions.js:23-29 | One wheel step in followed by one out, or out then in, returns to the starting bar count while the intermediate count stays in [minBars, maxBars] |
| Interactions.ZoomMonotone | client/src/chart/interactions.js:23-29 | From a count inside [minBars, maxBars], a step in never adds bars and a step out never removes any |
| Interactions.PickGlobalIndexFromX | client/src/chart/interactions.js:34-42 | A candle of the series for total >= 1, -1 for an empty series, and startIndex + round(local index) when that is in range |
| Interactions.PickAtCentreSelectsNextBar | client/src/chart/interactions.js:34-42 | Picking at the centre of local slot i selects global index startIndex + i + 1 |
| ValueArea.PocOf | client/src/chart/renderMainProfile.js:57-66 | The POC index is -1 with volume 0, or a bin whose positive volume is the returned maximum |
| ValueArea.PocOfIsFirstMax | client/src/chart/renderMainProfile.js:57-66 | The returned volume bounds every bin, is 0 exactly when there is no POC, and the POC is the first bin holding it |
| ValueArea.FindPoc | client/src/indicators/volumeProfile.js:115-125 | The scan returns the first maximum of PocOf and the total volume |
| ValueArea.ExpandValueArea | client/src/indicators/volumeProfile.js:143-165 | The area only widens and stays inside the bins |
| ValueArea.ValueAreaReachesTarget | client/src/chart/renderMainProfile.js:80-106 | Started from a window whose sum is acc, the expansion ends holding at least the target or covering every bin |
| ValueArea.ValueAreaFromPoc | client/src/indicators/volumeProfile.js:139-165 | Grown from the POC, the area brackets the POC and holds the target volume unless it covers all bins |
| Binning.PriceRangeSound | client/src/chart/renderMainProfile.js:18-31 | A resolved range has distinct ends; finite distinct explicit bounds are used as given; otherwise the candles' lows and highs lie inside and the range is missing iff the scans meet |
| Binning.ScanRange | client/src/chart/renderMainProfile.js:22-27 | The fallback loop computes the low and high scans |
| Binning.ResolvePriceRange | client/src/chart/renderMainProfile.js:18-31 | The range resolution as written equals PriceRange |
| Binning.BinStep | client/src/chart/renderMainProfile.js:38-39 | step * count == max - min, and the step is positive iff min < max |
| Binning.MidpointIndex | client/src/chart/renderMainProfile.js:45-47 | The bin index lies in [0, count); a midpoint inside the range falls in the bin whose price interval contains it; midpoints below or above go to the edge bins |
| Binning.MidpointBinsConserveVolume | client/src/chart/renderMainProfile.js:44-50 | The bins hold exactly the total volume of the candles |
| Binning.MidpointBinsAt | client/src/chart/renderRangeProfile.js:38-44 | Bin k holds the volume of exactly the candles whose midpoint index is k |
| Binning.FillMidpointBins | client/src/chart/renderRangeProfile.js:36-44 | The binning loop computes MidpointBins |
| Binning.PricedBins | client/src/chart/renderMainProfile.js:52-55 | One priced bin per volume, carrying that volume |
| Binning.PricedBinsReachMax | client/src/chart/renderMainProfile.js:38-55 | The last bin's price plus one step is max |
| Binning.PricedBinsAscend | client/src/chart/renderMainProfile.js:52-55 | The first bin is priced at min and later bins are at least one step higher |
| MainProfile.MainBinsCount | client/src/chart/renderMainProfile.js:33-36 | At least 8 bins; 32 for a missing or zero option; floor(bins) for bins >= 8 |
| MainProfile.ExpandMainValueArea | client/src/chart/renderMainProfile.js:75-110 | The main profile's VA loop, with its edge and tie branches, ends on the same window as ExpandValueArea |
| MainProfile.ComputeMainProfile | client/src/chart/renderMainProfile.js:8-120 | computeMainProfile as written equals the specification MainProfileOf |
| MainProfile.ProfileOfBins | client/src/chart/renderMainProfile.js:52-119 | The POC scan and VA loop over the binned volumes equal ProfileFromBins |
| MainProfile.ProfileFromBinsSound | client/src/chart/renderMainProfile.js:52-70 | A profile exists iff some bin has positive volume; then its bins are the priced volumes, totalVolume is their sum, and pocIndex is the first bin holding maxVol, which bounds every bin |
| MainProfile.ProfileFromBinsValueArea | client/src/chart/renderMainProfile.js:72-110 | The VA exists iff total > 0 and there are two bins or more; then vaLow is the price of the left end, vaHigh the right end's price plus a step, the window brackets the POC and holds 70% of the volume unless it covers all bins |
| MainProfile.MainProfileAbsent | client/src/chart/renderMainProfile.js:14-31 | No candles, no usable price range, or an inverted one give no profile |
| MainProfile.MainProfileShape | client/src/chart/renderMainProfile.js:33-61 | A profile has MainBinsCount >= 8 bins from min to max (first price min, last price + step == max), and its total volume is the candles' total |
| MainProfile.MainProfileExists | client/src/chart/renderMainProfile.js:14-70 | With candles, an ordered price range and positive total volume there is a profile |
| MainProfile.MainProfileOf | client/src/chart/renderMainProfile.js:8-120 | computeMainProfile as a value; carried by MainProfileAbsent, MainProfileShape, MainProfileExists and ComputeMainProfile |
| RangeProfile.RangeBinsCount | client/src/chart/renderRangeProfile.js:28-31 | At least 8 bins; 24 unless a number is given; floor(n) for n >= 8 |
| RangeProfile.ComputeRangeProfile | client/src/chart/renderRangeProfile.js:5-57 | computeRangeProfile as written equals RangeProfileOf |
| RangeProfile.RangeProfileExists | client/src/chart/renderRangeProfile.js:11-34 | A profile exists iff the argument is truthy, there are candles, and the price range resolves with min < max |
| RangeProfile.RangeProfileGrid | client/src/chart/renderRangeProfile.js:28-54 | RangeBinsCount bins, metadata equal to the resolved range, step * bins == max - min, first price min and last price + step == max |
| RangeProfile.RangeProfileVolumes | client/src/chart/renderRangeProfile.js:36-49 | Each bin holds the volume of the candles whose midpoint lands in it, and the bins conserve the slice's total volume |
| RangeProfile.RangeProfileOf | client/src/chart/renderRangeProfile.js:5-57 | computeRangeProfile as a value; carried by RangeProfileExists, RangeProfileGrid, RangeProfileVolumes and ComputeRangeProfile |
| PriceStep.AllPrices | client/src/indicators/volumeProfile.js:58-61 | Four prices per candle |
| PriceStep.InsertPermutes | client/src/indicators/volumeProfile.js:62 | Insertion adds exactly the inserted element |
| PriceStep.InsertSorted | client/src/indicators/volumeProfile.js:62 | Insertion into an ascending sequence keeps it ascending |
| PriceStep.SortAscSorts | client/src/indicators/volumeProfile.js:62 | The sort is ascending and a permutation of its input |
| PriceStep.MinPositiveGap | client/src/indicators/volumeProfile.js:64-68 | A found gap is positive |
| PriceStep.SmallestGap | client/src/indicators/volumeProfile.js:64-68 | The loop finds MinPositiveGap |
| PriceStep.MinPositiveGapFound | client/src/indicators/volumeProfile.js:64-68 | A gap is found iff some neighbour rises, and it is one of the neighbour differences |
| PriceStep.MinPositiveGapIsSmallest | client/src/indicators/volumeProfile.js:62-68 | On a sorted sequence the gap is at most every positive difference of ANY two elements |
| PriceStep.SortedGapIsSmallest | client/src/indicators/volumeProfile.js:62-68 | For any sorted permutation of the prices: a gap exists iff two prices differ, it is the difference of two prices, and no two distinct prices are closer |
| PriceStep.AutoStepIsSmallestPriceGap | client/src/indicators/volumeProfile.js:57-75 | The auto step is the smallest positive difference between any two OHLC prices, present iff two prices differ |
| PriceStep.FallbackStep | client/src/indicators/volumeProfile.js:72 | (max - min) / 100, or 1 when that is 0: never zero, positive when min <= max |
| PriceStep.PriceStepSign | client/src/indicators/volumeProfile.js:52-80 | The step is never zero; it is negative only for max < min (the range fallback); tick mode uses tickSize; levels mode divides the range into exactly `levels` steps |
| PriceStep.ComputePriceStep | client/src/indicators/volumeProfile.js:49-80 | Step 1 as written equals PriceStepOf |
| VolumeProfile.GridSizeSound | client/src/indicators/volumeProfile.js:83-89 | Every counted grid price is at most the end price and the next one passes it |
| VolumeProfile.GridSizeIsFirstAbove | client/src/indicators/volumeProfile.js:87 | No earlier index passes the end price: the grid loop visits exactly GridSize prices |
| VolumeProfile.BuildPriceGrid | client/src/indicators/volumeProfile.js:83-89 | The accumulating loop produces the grid prices start + k * step, GridSize of them |
| VolumeProfile.GridPricesAscend | client/src/indicators/volumeProfile.js:83-89 | Grid prices are at least start and strictly increasing |
| VolumeProfile.GridNotEmpty | client/src/indicators/volumeProfile.js:83-89 | With start <= end the grid has a level |
| VolumeProfile.SpreadVolume | client/src/indicators/volumeProfile.js:92-112 | The spreading loop over all candles computes SpreadAll |
| VolumeProfile.SpreadCandleInto | client/src/indicators/volumeProfile.js:92-112 | One candle's spread in place on the bins equals SpreadCandle of the old bins |
| VolumeProfile.AddOnRange | client/src/indicators/volumeProfile.js:109-111 | The inner loop adds the share to exactly the bins of the index range |
| VolumeProfile.SumAddRange | client/src/indicators/volumeProfile.js:109-111 | Adding v over a range of k bins adds k * v to the total |
| VolumeProfile.SpreadAddsShare | client/src/indicators/volumeProfile.js:106-111 | Spreading vol over a non-empty range adds exactly vol to the total |
| VolumeProfile.SpreadCandleAddsVolume | client/src/indicators/volumeProfile.js:92-112 | A candle that lands on the grid adds its volume when positive and nothing otherwise |
| VolumeProfile.SpreadConservesVolume | client/src/indicators/volumeProfile.js:92-112 | When every candle lands on the grid, the bins hold exactly the candles' positive volume |
| VolumeProfile.CandleLandsOnGrid | client/src/indicators/volumeProfile.js:84-105 | A candle within [min, max] touches a non-empty index range of the grid up to max + step / 2 |
| VolumeProfile.ExpandProfileValueArea | client/src/indicators/volumeProfile.js:139-165 | The null-neighbour VA loop ends on the window of ExpandValueArea |
| VolumeProfile.SummarizeGrid | client/src/indicators/volumeProfile.js:114-178 | Step 4 as written equals ProfileOfGrid |
| VolumeProfile.BuildVolumeProfileFromCandles | client/src/indicators/volumeProfile.js:28-179 | buildVolumeProfileFromCandles as written equals VolumeProfileOf |
| VolumeProfile.ProfileOfGridBins | client/src/indicators/volumeProfile.js:171-177 | Bin i pairs grid price i with volume i, and the step is returned |
| VolumeProfile.ProfileOfGridPoc | client/src/indicators/volumeProfile.js:114-134 | maxBinVolume is positive and bounds every bin; a POC exists iff some bin is positive (and the total is positive); it is the first bin holding maxBinVolume; without a POC there is no VAH/VAL |
| VolumeProfile.ProfileOfGridValueArea | client/src/indicators/volumeProfile.js:133-169 | VAL and VAH are the prices of the area's ends (no extra step), which bracket the POC and hold 70% of the volume unless they cover all bins |
| VolumeProfile.ProfileOfGrid | client/src/indicators/volumeProfile.js:114-178 | The POC and Value Area pass over the grid as a value; carried by ProfileOfGridBins, ProfileOfGridPoc, ProfileOfGridValueArea and SummarizeGrid |
| VolumeProfile.VolumeProfileIsGrid | client/src/indicators/volumeProfile.js:49-89 | With candles, the step is non-zero, positive when min <= max, and the profile is the grid profile from min to max + step / 2 |
| VolumeProfile.VolumeProfileOf | client/src/indicators/volumeProfile.js:28-179 | buildVolumeProfileFromCandles as a value; carried by VolumeProfileIsGrid, GridProfileShape, VolumeProfileConservesVolume, VolumeProfileLevelsOrdered and BuildVolumeProfileFromCandles |
| VolumeProfile.GridProfileShape | client/src/indicators/volumeProfile.js:83-89 | The profile has GridSize >= 1 bins, bin i priced start + i * step, and reports the step |
| VolumeProfile.VolumeProfileConservesVolume | client/src/indicators/volumeProfile.js:92-112 | For candles inside [min, max] the bins hold exactly the positive candle volume |
| VolumeProfile.VolumeProfileLevelsOrdered | client/src/indicators/volumeProfile.js:133-169 | With a POC: min <= VAL <= POC <= VAH |
| VolumeProfile.GridLevelsOrdered | client/src/indicators/volumeProfile.js:133-169 | On any positive-step grid, a POC comes with VAL and VAH and start <= VAL <= POC <= VAH |
| CandlesChart.EstimateRangeBins | client/src/components/CandlesChart.jsx:43-49 | Always in [11, 120]; without a usable height at least 12 and exactly count / 2 for 24..241 candles; otherwise between the count-based and the height-based estimates |
| CandlesChart.MainBinsFor | client/src/components/CandlesChart.jsx:153-164 | Auto mode gives [16, 120], count / 3 for 48..362 candles; a positive parsed count is cut to [8, 200]; anything else gives 32 |
| CandlesChart.MainProfileUsesChosenCount | client/src/components/CandlesChart.jsx:147-172 | The main profile drawn has exactly the chosen number of bins |
| CandlesChart.SliceBound | client/src/components/CandlesChart.jsx:188 | A slice bound is cut into [0, len] |
| CandlesChart.JsSlice | client/src/components/CandlesChart.jsx:188 | Array slice with in-range bounds is the subsequence between them |
| CandlesChart.RangeCandlesOfSelection | client/src/components/CandlesChart.jsx:181-189 | A selection in either order holds the candles from its lower to its upper end, both included |
| CandlesChart.RangeCandles | client/src/components/CandlesChart.jsx:181-189 | The rangeCandles memo; carried by RangeCandlesOfSelection |
| CandlesChart.CandleTimes | client/src/components/CandlesChart.jsx:80-86 | One parsed time per candle |
| CandlesChart.DayStartContains | client/src/components/CandlesChart.jsx:218-237 | The day range starts at a day boundary and contains the last time; the week range spans seven days |
| CandlesChart.SessionScanIsLongestRun | client/src/components/CandlesChart.jsx:240-250 | The backward scan stops at the start of the longest run of linked candles (known times at most 2 h apart) |
| CandlesChart.SessionStartIsLongestRun | client/src/components/CandlesChart.jsx:240-250 | The session start is at most the last index; the session is linked throughout, the pair before it is not, and with a known last time every time in it is known |
| CandlesChart.SessionStart | client/src/components/CandlesChart.jsx:240-250 | The loop with its two breaks finds SessionStartOf |
| CandlesChart.TsRangeIsFirstAndLast | client/src/components/CandlesChart.jsx:264-276 | A timestamp range resolves to the first and last index whose known time lies in [startTs, endTs), and to none iff no index does |
| CandlesChart.TsRangeOf | client/src/components/CandlesChart.jsx:264-276 | The timestamp branch of resolveIndexRange; carried by TsRangeIsFirstAndLast and ResolveTsRange |
| CandlesChart.ResolveTsRange | client/src/components/CandlesChart.jsx:264-276 | The forEach computes TsRangeOf |
| CandlesChart.ResolveIndexRange | client/src/components/CandlesChart.jsx:256-279 | resolveIndexRange as written equals IndexRangeOf |
| CandlesChart.ClipRangeSound | client/src/components/CandlesChart.jsx:285-301 | A range is kept iff, ordered and cut to the series, it spans two candles and touches [startIndex, endIndex]; kept ranges lie in the series and their local ends in the window |
| CandlesChart.ClipRange | client/src/components/CandlesChart.jsx:285-301 | The clipping of a range to the window; carried by ClipRangeSound, ClipInsideWindowIsOrdered and ClipKeepsRangeStartingAtWindowEnd |
| CandlesChart.ClipInsideWindowIsOrdered | client/src/components/CandlesChart.jsx:297-301 | A range starting before endIndex gets ordered local ends |
| CandlesChart.ClipKeepsRangeStartingAtWindowEnd | client/src/components/CandlesChart.jsx:290-301 | A range starting at the exclusive endIndex is still kept, with startLocal = bars > endLocal = bars - 1 |
| CandlesChart.BoxWidth | client/src/components/CandlesChart.jsx:303-304 | A box over ordered slots is (end - start) slots plus one candle wide |
| CandlesChart.ClickSelectsOneCandle | client/src/components/CandlesChart.jsx:338-371 | A selection of one visible candle is boxed exactly one candle wide |
| CandlesChart.ComputeAutoProfile | client/src/components/CandlesChart.jsx:281-322 | buildProfile as written equals BuildAutoProfile |
| CandlesChart.ComputeAutoProfiles | client/src/components/CandlesChart.jsx:212-327 | The memo as written (day, week, session in order; session by the backward scan) equals AutoProfilesOf |
| CandlesChart.AutoRangesOf | client/src/components/CandlesChart.jsx:218-251 | The day, week and session ranges in that order; carried by DayStartContains, SessionStartIsLongestRun and ComputeAutoProfiles |
| CandlesChart.CollectAutoFromRanges | client/src/components/CandlesChart.jsx:324-326 | At most one profile per requested range, each built from one of them |
| CandlesChart.CollectFixedFromRanges | client/src/components/CandlesChart.jsx:397-454 | At most one pinned profile per pinned range, each carrying the id of the range it was built from |
| CandlesChart.FixedProfileCoversRange | client/src/components/CandlesChart.jsx:404-450 | A pinned profile is the range profile of at least two candles from the range's lower to upper end, with the estimated bin count |
| ChartController.PinAppendsOnly | client/src/components/CandlesChart.jsx:374-394 | Pinning keeps the old entries, adds at most one, and adds one iff a request, a selection and a series exist and the cut selection spans two candles; the new entry has the new id and 0 <= start < end <= len - 1 |
| ChartController.PinnedRanges | client/src/components/CandlesChart.jsx:374-394 | The pin effect as a value; carried by PinAppendsOnly, PinRefires and Chart.Pin |
| ChartController.PinRefires | client/src/components/CandlesChart.jsx:374-394 | With the request id still set, two selection changes pin two ranges |
| ChartController.Chart.constructor | client/src/components/CandlesChart.jsx:69-93 | Initial state: 140 bars, offset 0, no selection, no pins, hidden crosshair, no drag |
| ChartController.Chart.CurrentGeometry | client/src/components/CandlesChart.jsx:124-145 | A geometry exists only for a sized surface and satisfies the layout invariant |
| ChartController.Chart.PickIndex | client/src/components/CandlesChart.jsx:634-639 | The picked index is a candle of the series (-1 for none) |
| ChartController.Chart.HandleWheel | client/src/components/CandlesChart.jsx:597-604 | With a geometry, barsPerScreen becomes the zoom step clamped to [20, len or 20]; nothing else changes |
| ChartController.Chart.HandleMouseDown | client/src/components/CandlesChart.jsx:607-649 | Middle button shows the crosshair and starts a cross drag; right starts a pan from the current offset; left selects the picked candle {i, i} and starts a selection drag; other buttons or no geometry change nothing |
| ChartController.Chart.HandleMouseMove | client/src/components/CandlesChart.jsx:652-696 | Pan sets only the offset from the drag distance and the start offset; select moves only the selection's end (and the crosshair); idle and cross show the crosshair |
| ChartController.Chart.HandleMouseUp | client/src/components/CandlesChart.jsx:699-722 | Ends the drag, hides the crosshair only after a cross drag, keeps the selection even of one candle (also handleLeave) |
| ChartController.Chart.Pin | client/src/components/CandlesChart.jsx:374-394 | The pinned list becomes PinnedRanges of the old one; the rest of the state is unchanged |
| CandleController.TrimStart | server/src/controllers/candleController.js:28 | A suffix of the input starting at its first non-space character |
| CandleController.TrimEnd | server/src/controllers/candleController.js:28 | A prefix of the input ending at its last non-space character |
| CandleController.Trim | server/src/controllers/candleController.js:40 | The result neither starts nor ends with white space and is empty for blank input |
| CandleController.TrimIdempotent | server/src/controllers/candleController.js:40 | Trimming twice is trimming once |
| CandleController.UpperChar | server/src/controllers/candleController.js:28 | A lower-case letter becomes its own capital (same offset from 'A' as from 'a'), any other character is kept; the result is a capital iff the input is a letter |
| CandleController.Upper | server/src/controllers/candleController.js:28 | Same length, and every character is upper-cased on its own |
| CandleController.NormalizeSymbol | server/src/controllers/candleController.js:27-32 | An accepted symbol is 1 to 10 capitals A-Z; its full meaning is in NormalizeSymbolMeaning |
| CandleController.NormalizeSymbolMeaning | server/src/controllers/candleController.js:27-32 | The symbol is accepted iff trim(upper(raw, or SBER when missing or empty)) matches the pattern, and then the value is exactly that string; otherwise it is rejected |
| CandleController.NormalizeSymbolDefault | server/src/controllers/candleController.js:28 | A missing or empty symbol becomes SBER |
| CandleController.AcceptsValidSymbol | server/src/controllers/candleController.js:27-32 | Every valid symbol is accepted unchanged |
| CandleController.NormalizeSymbolIdempotent | server/src/controllers/candleController.js:27-32 | Normalising an accepted symbol again gives it back |
| CandleController.NormalizeTimeframe | server/src/controllers/candleController.js:39-45 | An accepted timeframe is the trimmed input (or 1d when missing or empty) and an allowed key; a trimmed input outside the allowed keys is rejected; every non-empty, unpadded allowed key is accepted as itself |
| CandleController.AcceptsAllowedTimeframe | server/src/controllers/candleController.js:39-45 | Every allowed key that is neither empty nor padded normalises to itself |
| CandleController.NormalizeTimeframeDefault | server/src/controllers/candleController.js:40 | A missing or empty tf is 1d |
| CandleController.NormalizeTimeframeIdempotent | server/src/controllers/candleController.js:39-45 | Normalising an accepted timeframe again gives it back |
| CandleController.NormalizeLimitMeaning | server/src/controllers/candleController.js:52-65 | A blank limit is 500; a non-finite one is rejected; an accepted limit lies in [1, max]; a number is rejected iff it is below 1; otherwise the limit is its floor capped at max |
| CandleController.NormalizeLimit | server/src/controllers/candleController.js:52-65 | A blank limit is 500, and a limit from a number is its floor capped at max: an integer at most max and at most the number, and either max or above the number minus one |
| CandleController.NormalizeFromDate | server/src/controllers/candleController.js:72-91 | An invalid date never carries a value; for non-blank text the result is invalid iff the date parser rejects the trimmed text, and its value is the parser's day |
| CandleController.NormalizeFromDateBlank | server/src/controllers/candleController.js:73-80 | Missing, empty or blank dates are "no date" and never invalid |
| CandleController.ValidateFirstFailure | server/src/controllers/candleController.js:104-138 | Validation fails iff some field fails, and then names the first failing field in the order symbol, tf, limit, from; an accepted query carries the normalised values |
| CandleController.Validate | server/src/controllers/candleController.js:104-138 | A rejection names a field that fails; ValidateFirstFailure states the order |
| CandleController.HandleStatus | server/src/controllers/candleController.js:101-172 | For string symbol and tf: 400 iff validation fails, 200 iff valid and the service returned (echoing the values, count = array length or 0), 502 iff the error is tagged moex, 500 for all other errors |
| CandleController.GetCandles | server/src/controllers/candleController.js:101-172 | A structured symbol, or a structured tf after an accepted symbol, answers 500 |
| CandleController.GetCandlesStatus | server/src/controllers/candleController.js:101-172 | Structured symbol (or tf after an accepted symbol) gives 500; a rejected symbol gives 400 before tf is read; two string parameters give Handle's answer; so 500 iff a normaliser throws or a valid request meets an untagged service error |
| CandleController.GetCandlesServerError | server/src/controllers/candleController.js:101-172 | The answer is 500 iff a normaliser throws, or both parameters are strings, the request is valid and the service error is not tagged moex |
| CandleController.HandleServerError | server/src/controllers/candleController.js:104-171 | For a normalised request, 500 iff it is valid and the service threw an error not tagged moex |
| CandleController.ServiceOutcomeStatuses | server/src/controllers/candleController.js:147-165 | With the service as written, no response is 502 and a 200 reports count 0 |
| MoexService.MapTimeframeToInterval | server/src/services/moexService.js:15-30 | 60 iff 1h, 10 iff 10m, 24 for everything else |
| MoexService.AllowedTimeframesHaveDistinctIntervals | server/src/services/moexService.js:15-30 | Distinct allowed timeframes request distinct ISS intervals |
| MoexService.IndexOf | server/src/services/moexService.js:84-89 | -1 iff the name is absent, otherwise its first position |
| MoexService.LocateColumns | server/src/services/moexService.js:83-100 | Columns are located iff all six names are present; each of begin, open, high, low, close and volume is found at its first position |
| MoexService.ParseRow | server/src/services/moexService.js:103-128 | A row yields a candle iff open, high, low and close are finite; the candle carries those numbers, the begin text and the raw volume |
| MoexService.KeepRows | server/src/services/moexService.js:102-129 | The filter never adds rows |
| MoexService.KeepOneRow | server/src/services/moexService.js:102-129 | A single row is kept as its candle iff it is finite |
| MoexService.KeepRowsAppend | server/src/services/moexService.js:102-129 | Filtering keeps order: it distributes over concatenation |
| MoexService.KeepAllFinite | server/src/services/moexService.js:102-129 | Nothing is dropped when every row is finite |
| MoexService.TakeLast | server/src/services/moexService.js:132-134 | The last min(n, max) candles |
| MoexService.ProcessResponseErrors | server/src/services/moexService.js:79-138 | A missing block, data or columns, any of the six columns missing, or no row left give the corresponding error; an intact block with a kept row succeeds |
| MoexService.ProcessResponseResult | server/src/services/moexService.js:132-150 | A success holds the last min(kept, 2000) kept candles (at least one), and from, till and candlesCount describe exactly those |
| MoexService.ProcessResponse | server/src/services/moexService.js:79-150 | The response processing as a value; carried by ProcessResponseErrors and ProcessResponseResult |
| MoexService.CacheKeyInjective | server/src/services/moexService.js:51 | Distinct symbol/timeframe pairs get distinct keys when the symbol holds no separator |
| MoexService.CacheKey | server/src/services/moexService.js:51 | The in-memory key, symbol and timeframe joined by a bar; carried by CacheKeyInjective |
| MoexService.CacheLookup | server/src/services/moexService.js:55-58 | A cached value is served iff the key is present and not expired, and it is the stored data |
| MoexService.StoredEntryLivesOneTtl | server/src/services/moexService.js:153-156 | A stored entry is served for exactly the next 60 seconds |
| MoexService.StoreLeavesOtherKeys | server/src/services/moexService.js:153-156 | Storing one key leaves every other key's lookups as they were |
| MoexService.MoexCache.constructor | server/src/services/moexService.js:12 | The cache starts empty |
| MoexService.MoexCache.Fetch | server/src/services/moexService.js:50-163 | A fresh entry is returned and the cache unchanged; otherwise the response is processed and a success (only) is stored for 60 seconds |
| JsonCache.Sanitize | server/src/cache/jsonCache.js:25 | As many characters as the input has UTF-16 code units, every character safe |
| JsonCache.SanitizeChar | server/src/cache/jsonCache.js:25 | A safe character is kept; an unsafe one becomes one underscore per UTF-16 code unit (two for an astral character) |
| JsonCache.SanitizeLength | server/src/cache/jsonCache.js:25 | Without astral characters the name keeps its length, safe characters stay in place and unsafe ones become '_'; with one it grows |
| JsonCache.AstralBecomesTwoUnderscores | server/src/cache/jsonCache.js:25 | An emoji after SBER gives SBER__ |
| JsonCache.SanitizeSafe | server/src/cache/jsonCache.js:25 | A safe name is left as it is |
| JsonCache.SanitizeIdempotent | server/src/cache/jsonCache.js:25 | Sanitising twice is sanitising once |
| JsonCache.SanitizeAppend | server/src/cache/jsonCache.js:25 | Sanitising distributes over concatenation |
| JsonCache.CacheFileName | server/src/cache/jsonCache.js:21-28 | The name has as many characters as the raw template has UTF-16 code units, and is entirely safe |
| JsonCache.TemplateLiteralsSafe | server/src/cache/jsonCache.js:22 | The separators and suffix of the template survive sanitising |
| JsonCache.CacheFileNameParts | server/src/cache/jsonCache.js:21-25 | The name is the sanitised parts joined by the template's literals (defaults auto and max), and it ends in .json |
| JsonCache.ReadCache | server/src/cache/jsonCache.js:36-70 | A hit returns the parsed payload itself |
| JsonCache.ReadCacheHit | server/src/cache/jsonCache.js:41-65 | A file is served iff it parsed, has a non-empty createdAt, and is at most ttlMs old or its createdAt is not a date |
| JsonCache.ExpiryBoundary | server/src/cache/jsonCache.js:54-61 | At exactly ttlMs of age the file is served; one millisecond later it is not |

## Left out

- Canvas drawing is not modelled: the renderers, grid, scales, crosshair and the render effect. React plumbing is not modelled either (refs, memo dependency lists, the resize listener). The surface size is a constant of `ChartController.Chart`.
- The application shell, the Express routes and the server entry point are not part of this model.
- IEEE floating point is not modelled: values are exact reals. In particular, the grid loop's `p += priceStep` accumulation is modelled as exact multiples `start + k * step`, and NaN or infinite OHLC values are excluded.
- Null entries in the candle array (`if (!c) continue`) and non-array inputs are not modelled: the series is a sequence of candles.
- The HTTP request to MOEX ISS (axios), the URL built for it and `getFromDateParam` are left out, because they are I/O and clock reads. The parsed response block is a parameter of `MoexService.MoexCache.Fetch`.
- `Date.now()`, `new Date(...)` parsing and `toISOString` are parameters (`now`, `parseTime`, `parse`), because they are clock and library calls.
- `writeCache` and `ensureCacheDir` are left out, because they are file-system writes. `readCache`'s file reading and `JSON.parse` become the `FileState` parameter.
- Console logging is left out.
- `Number(raw)` on the limit parameter is left out: its result is the `LimitArg` parameter.
- `String(raw)` on the from parameter is left out: `Query.from` is its result, which never throws.
- NormalizeTimeframe, NormalizeLimit and GetCandles model the program as if the missing exports existed: the keys come from the comment at candleController.js:9 and the cap from moexService.js:9. As written, the controller module throws when it is loaded, and that failure is not modelled.
- `CandleController.Trim` and `CandleController.Upper` handle ASCII only. Unicode white space and non-ASCII case mapping are not modelled, because they need Unicode tables.
- `ChartController.Chart.Pin`: the id `${rangePinRequestId}-${Date.now()}` is a parameter. The effect's trigger (a change of request id, selection or series) is the caller's choice of when to call it.
- `ChartController.Chart.HandleMouseUp` also stands for handleLeave, whose body is identical.
- `Geometry.PriceStatsSound`: states minPrice < maxPrice only for candles with low <= high, because a candle whose low is above its high makes computePriceStats return an inverted range.
- `VolumeProfile.VolumeProfileConservesVolume`: requires every candle inside [min, max], because a candle wholly outside the grid gets an empty index range and its volume is dropped.
- `VolumeProfile.SpreadConservesVolume`: holds only for candles that land on the grid (`Lands`), for the same reason.
- `CandlesChart.EstimateRangeBins`: bounds the height-based case between the two estimates rather than stating the rounded average, which is its body.
- The composition of the memos (`MainProfileFor`, `RangeProfileFor`, `SelectionBoxOf`, `AutoProfilesOf`, `FixedProfilesOf`) is modelled as functions. Their properties are stated through the lemmas above, not on each memo.
