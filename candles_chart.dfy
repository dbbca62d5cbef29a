/** The derived values of the CandlesChart component
    (client/src/components/CandlesChart.jsx): bin-count heuristics, the
    candles of the selection, the day / week / session auto-ranges, the
    clipping of range boxes to the visible window, and the profiles drawn in
    those boxes. The mutable component state and its handlers are in
    module ChartController. */
module CandlesChart {
  import opened Common
  import opened Geometry
  import opened Binning
  import opened MainProfile
  import opened RangeProfile

  /** Milliseconds in a day. */
  const DayMs: int := 24 * 60 * 60 * 1000

  /** A pause longer than this (two hours) starts a new session. */
  const SessionGapMs: int := 2 * 60 * 60 * 1000

  // ---------------------------------------------------------------------
  // Bin-count heuristics

  /** estimateRangeBins: half the candle count, kept in [12, 120]; when the
      price pane has a usable height (None stands for a non-finite one) it
      is averaged with one bin per 8 pixels, kept in [10, 120]. */
  function EstimateRangeBins(candlesCount: nat, priceAreaHeight: Option<real>): (r: int)
    ensures 11 <= r <= 120
    ensures (priceAreaHeight.None? || priceAreaHeight.value <= 0.0) ==> 12 <= r
    ensures (priceAreaHeight.None? || priceAreaHeight.value <= 0.0) && 24 <= candlesCount <= 241 ==>
      r == candlesCount / 2
    ensures priceAreaHeight.Some? && priceAreaHeight.value > 0.0 ==>
      MinInt(RangeBinsBase(candlesCount), HeightBins(priceAreaHeight.value)) <= r
      <= MaxInt(RangeBinsBase(candlesCount), HeightBins(priceAreaHeight.value))
  {
    var base := RangeBinsBase(candlesCount);
    if priceAreaHeight.None? || priceAreaHeight.value <= 0.0 then base
    else Round((base + HeightBins(priceAreaHeight.value)) as real / 2.0)
  }

  /** `max(12, min(120, floor((count || 1) / 2)))`. */
  function RangeBinsBase(candlesCount: nat): int
  {
    MaxInt(12, MinInt(120, (if candlesCount == 0 then 1 else candlesCount) / 2))
  }

  /** `max(10, min(120, floor(height / 8)))`. */
  function HeightBins(height: real): int
  {
    MaxInt(10, MinInt(120, (height / 8.0).Floor))
  }

  /** The `profileStepMode` prop: the string 'auto', or anything else, read
      with parseInt (None when that gives NaN). */
  datatype StepMode = AutoStep | Parsed(value: Option<int>)

  /** The bin count of the main profile: a third of the visible candles in
      [16, 120] in auto mode, a positive parsed count cut to [8, 200], and
      32 for anything else. */
  function MainBinsFor(mode: StepMode, count: nat): (n: int)
    ensures mode.AutoStep? ==> 16 <= n <= 120 && (48 <= count < 363 ==> n == count / 3)
    ensures mode.Parsed? && mode.value.Some? && mode.value.value > 0 ==>
      8 <= n <= 200 && (8 <= mode.value.value <= 200 ==> n == mode.value.value)
    ensures mode.Parsed? && (mode.value.None? || mode.value.value <= 0) ==> n == 32
  {
    match mode
    case AutoStep =>
      var approx := count / 3;
      MinInt(120, MaxInt(16, if approx == 0 then 16 else approx))
    case Parsed(p) =>
      if p.Some? && p.value > 0 then MinInt(200, MaxInt(8, p.value)) else 32
  }

  /** The mainProfile memo: no geometry or no visible candle gives none;
      otherwise computeMainProfile over the window with the chosen count. */
  function MainProfileFor(g: Option<Geometry>, visible: seq<Candle>, stats: PriceStats, mode: StepMode): Option<Profile>
  {
    if g.None? || |visible| == 0 then None
    else MainProfileOf(visible, Some(stats.minPrice), Some(stats.maxPrice), Some(MainBinsFor(mode, |visible|) as real))
  }

  /** The count the component chooses is the count computeMainProfile uses:
      it is never below 8, so the profile's own default does not apply. */
  lemma MainProfileUsesChosenCount(g: Option<Geometry>, visible: seq<Candle>, stats: PriceStats, mode: StepMode)
    requires MainProfileFor(g, visible, stats, mode).Some?
    ensures |MainProfileFor(g, visible, stats, mode).value.bins| == MainBinsFor(mode, |visible|)
  {
    var n := MainBinsFor(mode, |visible|);
    assert (n as real).Floor == n;
    MainProfileShape(visible, Some(stats.minPrice), Some(stats.maxPrice), Some(n as real));
  }

  // ---------------------------------------------------------------------
  // The selection

  /** A selection as the handlers store it: the global index where the
      drag started and the one under the pointer now. */
  datatype Selection = Selection(start: int, end: int)

  /** A bound of Array.prototype.slice: negative values count from the end. */
  function SliceBound(i: int, len: nat): (b: int)
    ensures 0 <= b <= len
  {
    if i < 0 then MaxInt(0, len + i) else MinInt(i, len)
  }

  /** `s.slice(from, to)`. */
  function JsSlice<T>(s: seq<T>, from: int, to: int): (r: seq<T>)
    ensures 0 <= from <= to <= |s| ==> r == s[from..to]
  {
    var a := SliceBound(from, |s|);
    var b := SliceBound(to, |s|);
    if a < b then s[a..b] else []
  }

  /** The rangeCandles memo: the candles between the two ends of the
      selection, both included. */
  function RangeCandles(sel: Option<Selection>, candles: seq<Candle>): seq<Candle>
  {
    if sel.None? || |candles| == 0 then []
    else
      var s := sel.value;
      JsSlice(candles, MaxInt(0, MinInt(s.start, s.end)), MinInt(|candles|, MaxInt(s.start, s.end) + 1))
  }

  /** A selection whose ends are candles, in either order, holds the candles
      from the lower end to the upper end, both included. */
  lemma RangeCandlesOfSelection(sel: Selection, candles: seq<Candle>)
    requires 0 <= sel.start < |candles| && 0 <= sel.end < |candles|
    ensures var lo := MinInt(sel.start, sel.end);
      var hi := MaxInt(sel.start, sel.end);
      && RangeCandles(Some(sel), candles) == candles[lo..hi + 1]
      && |RangeCandles(Some(sel), candles)| == hi - lo + 1
  {
  }

  /** The rangeProfile memo. */
  function RangeProfileFor(g: Option<Geometry>, rangeCandles: seq<Candle>, enabled: bool): Option<RangeProfile>
  {
    if g.None? || |rangeCandles| == 0 || !enabled then None
    else
      var bins := EstimateRangeBins(|rangeCandles|, Some(g.value.layout.priceBottom - g.value.layout.priceTop));
      RangeProfileOf(rangeCandles, None, None, Count(bins as real))
  }

  // ---------------------------------------------------------------------
  // Auto ranges: day, week, session

  /** The candleTimes memo: the parsed time of each candle. */
  function CandleTimes(candles: seq<Candle>): (times: seq<Option<int>>)
    ensures |times| == |candles| && forall i :: 0 <= i < |candles| ==> times[i] == candles[i].time
  {
    seq(|candles|, i requires 0 <= i < |candles| => candles[i].time)
  }

  /** `Math.floor(ts / DAY_MS) * DAY_MS`: midnight (UTC) of the day of ts. */
  function DayStart(ts: int): int
  {
    (ts / DayMs) * DayMs
  }

  /** The day starts at a multiple of a day and contains ts; the week
      range adds the six days before it. */
  lemma DayStartContains(ts: int)
    ensures DayStart(ts) % DayMs == 0
    ensures DayStart(ts) <= ts < DayStart(ts) + DayMs
    ensures (DayStart(ts) + DayMs) - (DayStart(ts) - DayMs * 6) == 7 * DayMs
  {
  }

  datatype AutoKind = Day | Week | Session

  /** A range to profile, by timestamps [startTs, endTs) or by indices. */
  datatype AutoRange =
    | TsRange(kind: AutoKind, startTs: int, endTs: int)
    | IndexRange(kind: AutoKind, startIndex: int, endIndex: int)

  /** Consecutive candles j and j + 1 both have times and are at most two
      hours apart. */
  predicate Linked(times: seq<Option<int>>, j: int)
    requires 0 <= j && j + 1 < |times|
  {
    times[j].Some? && times[j + 1].Some? && times[j + 1].value - times[j].value <= SessionGapMs
  }

  /** The backward scan from candidate start k. */
  function SessionScan(times: seq<Option<int>>, k: int): (r: int)
    requires 0 <= k < |times|
    ensures 0 <= r <= k
  {
    if k == 0 || !Linked(times, k - 1) then k else SessionScan(times, k - 1)
  }

  /** The first candle of the last session. */
  function SessionStartOf(times: seq<Option<int>>): int
    requires |times| >= 1
  {
    SessionScan(times, |times| - 1)
  }

  /** The session is the longest run of linked candles that ends with the
      last candle: every pair in it is linked and the pair before it is not.
      When the last time is known, every time in the session is known. */
  lemma {:induction false} SessionScanIsLongestRun(times: seq<Option<int>>, k: int)
    requires 0 <= k < |times|
    ensures var s := SessionScan(times, k);
      && (forall j :: s <= j < k ==> Linked(times, j))
      && (s == 0 || !Linked(times, s - 1))
    decreases k
  {
    if k > 0 && Linked(times, k - 1) {
      SessionScanIsLongestRun(times, k - 1);
    }
  }

  lemma SessionStartIsLongestRun(times: seq<Option<int>>)
    requires |times| >= 1
    ensures var s := SessionStartOf(times);
      && 0 <= s <= |times| - 1
      && (forall j :: s <= j < |times| - 1 ==> Linked(times, j))
      && (s == 0 || !Linked(times, s - 1))
      && (times[|times| - 1].Some? ==> forall j :: s <= j < |times| ==> times[j].Some?)
  {
    SessionScanIsLongestRun(times, |times| - 1);
    var s := SessionStartOf(times);
    if times[|times| - 1].Some? {
      forall j | s <= j < |times|
        ensures times[j].Some?
      {
        if j < |times| - 1 {
          assert Linked(times, j);
        }
      }
    }
  }

  /** The session loop: walk back from the last candle while the previous
      time is known and at most two hours earlier. */
  method SessionStart(times: seq<Option<int>>) returns (startIndex: int)
    requires |times| >= 1
    ensures startIndex == SessionStartOf(times)
  {
    startIndex := |times| - 1;
    var i := |times| - 2;
    while i >= 0
      invariant -1 <= i <= |times| - 2 && startIndex == i + 1
      invariant SessionScan(times, startIndex) == SessionStartOf(times)
      decreases i
    {
      var ts := times[i];
      var next := times[i + 1];
      if ts.None? || next.None? {
        break;
      }
      if next.value - ts.value > SessionGapMs {
        startIndex := i + 1;
        break;
      }
      startIndex := i;
      i := i - 1;
    }
  }

  /** Whether a known time lies in [startTs, endTs). */
  predicate InTsRange(t: Option<int>, startTs: int, endTs: int)
  {
    t.Some? && startTs <= t.value < endTs
  }

  /** The first and last index whose time lies in [startTs, endTs). */
  function TsRangeOf(times: seq<Option<int>>, startTs: int, endTs: int): Option<(int, int)>
  {
    if |times| == 0 then None
    else
      var prev := TsRangeOf(times[..|times| - 1], startTs, endTs);
      var last := |times| - 1;
      if !InTsRange(times[last], startTs, endTs) then prev
      else if prev.None? then Some((last, last))
      else Some((prev.value.0, last))
  }

  /** TsRangeOf finds the first and the last index in range, and nothing
      exactly when no index is in range. */
  lemma {:induction false} TsRangeIsFirstAndLast(times: seq<Option<int>>, startTs: int, endTs: int)
    ensures TsRangeOf(times, startTs, endTs).None? <==>
      forall j :: 0 <= j < |times| ==> !InTsRange(times[j], startTs, endTs)
    ensures var r := TsRangeOf(times, startTs, endTs);
      r.Some? ==>
        && 0 <= r.value.0 <= r.value.1 < |times|
        && InTsRange(times[r.value.0], startTs, endTs)
        && InTsRange(times[r.value.1], startTs, endTs)
        && (forall j :: 0 <= j < r.value.0 ==> !InTsRange(times[j], startTs, endTs))
        && (forall j :: r.value.1 < j < |times| ==> !InTsRange(times[j], startTs, endTs))
  {
    if |times| > 0 {
      var pre := times[..|times| - 1];
      TsRangeIsFirstAndLast(pre, startTs, endTs);
      assert forall j :: 0 <= j < |pre| ==> pre[j] == times[j];
    }
  }

  /** The forEach of resolveIndexRange for a timestamp range. */
  method ResolveTsRange(times: seq<Option<int>>, startTs: int, endTs: int) returns (r: Option<(int, int)>)
    ensures r == TsRangeOf(times, startTs, endTs)
  {
    var start: Option<int> := None;
    var end: Option<int> := None;
    for idx := 0 to |times|
      invariant start.None? <==> end.None?
      invariant TsRangeOf(times[..idx], startTs, endTs) == if start.None? then None else Some((start.value, end.value))
    {
      assert times[..idx + 1][..idx] == times[..idx];
      var ts := times[idx];
      if ts.None? {
        continue;
      }
      if ts.value >= startTs && ts.value < endTs {
        if start.None? {
          start := Some(idx);
        }
        end := Some(idx);
      }
    }
    assert times[..|times|] == times;
    if start.None? || end.None? {
      return None;
    }
    return Some((start.value, end.value));
  }

  /** resolveIndexRange: an index range is cut to the series, a timestamp
      range is resolved by TsRangeOf. */
  function IndexRangeOf(range: AutoRange, times: seq<Option<int>>, len: int): Option<(int, int)>
  {
    match range
    case IndexRange(_, s, e) => Some((MaxInt(0, s), MinInt(len - 1, e)))
    case TsRange(_, s, e) => TsRangeOf(times, s, e)
  }

  method ResolveIndexRange(range: AutoRange, times: seq<Option<int>>, len: int) returns (r: Option<(int, int)>)
    ensures r == IndexRangeOf(range, times, len)
  {
    if range.IndexRange? {
      return Some((MaxInt(0, range.startIndex), MinInt(len - 1, range.endIndex)));
    }
    r := ResolveTsRange(times, range.startTs, range.endTs);
  }

  /** The ranges the enabled auto profiles ask for, in the order day,
      week, session, all ending with the day of the last candle. */
  function AutoRangesOf(times: seq<Option<int>>, len: int, day: bool, week: bool, session: bool): seq<AutoRange>
    requires |times| >= 1 && times[|times| - 1].Some?
  {
    var lastDayStart := DayStart(times[|times| - 1].value);
    (if day then [TsRange(Day, lastDayStart, lastDayStart + DayMs)] else [])
    + (if week then [TsRange(Week, lastDayStart - DayMs * 6, lastDayStart + DayMs)] else [])
    + (if session then [IndexRange(Session, SessionStartOf(times), len - 1)] else [])
  }

  // ---------------------------------------------------------------------
  // Clipping range boxes to the visible window

  /** A range normalised to the series and placed in the window: global
      ends, and local slot indices for the box. */
  datatype Clip = Clip(startGlobal: int, endGlobal: int, startLocal: int, endLocal: int)

  /** The clipping shared by buildProfile and fixedProfiles: order and cut
      the ends to the series, drop ranges of one candle or none, drop ranges
      off the window, and cut the local indices to the window. The window's
      exclusive endIndex is compared as if it were inclusive. */
  function ClipRange(s: int, e: int, len: int, w: VisibleWindow): Option<Clip>
  {
    var startGlobal := MaxInt(0, MinInt(s, e));
    var endGlobal := MinInt(len - 1, MaxInt(s, e));
    if startGlobal >= endGlobal then None
    else if endGlobal < w.startIndex || startGlobal > w.endIndex then None
    else Some(Clip(startGlobal, endGlobal,
                   MaxInt(startGlobal - w.startIndex, 0),
                   MinInt(endGlobal - w.startIndex, w.bars - 1)))
  }

  /** A range is kept exactly when, once ordered and cut to the series, it
      spans two candles or more and touches [startIndex, endIndex]; a kept
      range lies in the series and its local indices in the window. */
  lemma ClipRangeSound(s: int, e: int, len: int, w: VisibleWindow)
    ensures var sg := MaxInt(0, MinInt(s, e));
      var eg := MinInt(len - 1, MaxInt(s, e));
      ClipRange(s, e, len, w).Some? <==> sg < eg && w.startIndex <= eg && sg <= w.endIndex
    ensures var c := ClipRange(s, e, len, w);
      c.Some? ==>
        && 0 <= c.value.startGlobal < c.value.endGlobal <= len - 1
        && c.value.startGlobal == MaxInt(0, MinInt(s, e))
        && c.value.endGlobal == MinInt(len - 1, MaxInt(s, e))
        && 0 <= c.value.startLocal
        && c.value.endLocal <= w.bars - 1
  {
  }

  /** A range that starts inside the window gets ordered local indices. */
  lemma ClipInsideWindowIsOrdered(s: int, e: int, len: int, w: VisibleWindow)
    requires ClipRange(s, e, len, w).Some? && w.bars >= 1
    requires w.endIndex - w.startIndex == w.bars
    requires MaxInt(0, MinInt(s, e)) < w.endIndex
    ensures ClipRange(s, e, len, w).value.startLocal <= ClipRange(s, e, len, w).value.endLocal
  {
  }

  /** The exclusive endIndex read as inclusive: a range that starts exactly
      at endIndex, one slot past the window, is still kept, and its local
      start (bars) lies after its local end (bars - 1). */
  lemma ClipKeepsRangeStartingAtWindowEnd(e: int, len: int, w: VisibleWindow)
    requires w.bars >= 1 && 0 <= w.startIndex && w.endIndex - w.startIndex == w.bars
    requires w.endIndex < e <= len - 1
    ensures ClipRange(w.endIndex, e, len, w) == Some(Clip(w.endIndex, e, w.bars, w.bars - 1))
  {
  }

  /** An on-screen box over the price pane. */
  datatype Box = Box(x0: real, x1: real, y0: real, y1: real)

  /** From half a candle left of the first slot's centre to half a candle
      right of the last one's, over the price pane. */
  function BoxOf(g: Geometry, startLocal: int, endLocal: int): Box
  {
    Box(IndexToX(g, startLocal as real) - g.layout.candleWidth / 2.0,
        IndexToX(g, endLocal as real) + g.layout.candleWidth / 2.0,
        g.layout.priceTop, g.layout.priceBottom)
  }

  /** With ordered slots the box is (endLocal - startLocal) slots plus one
      candle wide. */
  lemma BoxWidth(g: Geometry, startLocal: int, endLocal: int)
    requires ValidGeometry(g) && g.layout.candleWidth > 0.0 && startLocal <= endLocal
    ensures var b := BoxOf(g, startLocal, endLocal);
      b.x1 - b.x0 == (endLocal - startLocal) as real * g.layout.candleSpacing + g.layout.candleWidth
      && b.x0 < b.x1
  {
    var d := (endLocal - startLocal) as real;
    assert endLocal as real * g.layout.candleSpacing - startLocal as real * g.layout.candleSpacing
        == d * g.layout.candleSpacing;
    MulMonotone(0.0, d, g.layout.candleSpacing);
  }

  /** The selectionBox memo: the selection is ordered but not cut to the
      series and may be a single candle; the same window test and local
      cut as ClipRange. */
  function SelectionBoxOf(g: Option<Geometry>, sel: Option<Selection>, w: VisibleWindow): Option<Box>
  {
    if g.None? || sel.None? || |w.visible| == 0 then None
    else
      var startGlobal := MaxInt(0, MinInt(sel.value.start, sel.value.end));
      var endGlobal := MaxInt(sel.value.start, sel.value.end);
      if endGlobal < w.startIndex || startGlobal > w.endIndex then None
      else Some(BoxOf(g.value, MaxInt(startGlobal - w.startIndex, 0), MinInt(endGlobal - w.startIndex, w.bars - 1)))
  }

  /** A just-clicked selection (both ends on one visible candle) is boxed
      as exactly that candle. */
  lemma ClickSelectsOneCandle(g: Geometry, i: int, w: VisibleWindow)
    requires ValidGeometry(g) && w.startIndex >= 0 && |w.visible| > 0
    requires w.endIndex - w.startIndex == w.bars && w.startIndex <= i < w.endIndex
    ensures var b := SelectionBoxOf(Some(g), Some(Selection(i, i)), w);
      b.Some? && b.value.x1 - b.value.x0 == g.layout.candleWidth
  {
  }

  // ---------------------------------------------------------------------
  // Profiles in boxes

  /** The range profile of the clipped candles, with the bin count
      estimated from their number and the price pane's height. */
  function ClipProfile(candles: seq<Candle>, c: Clip, g: Geometry): Option<RangeProfile>
    requires 0 <= c.startGlobal <= c.endGlobal < |candles|
  {
    var slice := candles[c.startGlobal..c.endGlobal + 1];
    var bins := EstimateRangeBins(|slice|, Some(g.layout.priceBottom - g.layout.priceTop));
    RangeProfileOf(slice, None, None, Count(bins as real))
  }

  /** A drawn auto profile, its id being `auto-<kind>`. */
  datatype AutoProfile = AutoProfile(kind: AutoKind, box: Box, profile: RangeProfile)

  /** buildProfile: resolve, clip, and profile one auto range. */
  function BuildAutoProfile(range: AutoRange, candles: seq<Candle>, w: VisibleWindow, g: Geometry): Option<AutoProfile>
  {
    var idx := IndexRangeOf(range, CandleTimes(candles), |candles|);
    if idx.None? then None
    else
      var c := ClipRange(idx.value.0, idx.value.1, |candles|, w);
      if c.None? then None
      else
        ClipRangeSound(idx.value.0, idx.value.1, |candles|, w);
        var p := ClipProfile(candles, c.value, g);
        if p.None? then None
        else Some(AutoProfile(range.kind, BoxOf(g, c.value.startLocal, c.value.endLocal), p.value))
  }

  /** `ranges.map(buildProfile).filter(Boolean)`. */
  function CollectAuto(ranges: seq<AutoRange>, candles: seq<Candle>, w: VisibleWindow, g: Geometry): seq<AutoProfile>
  {
    if |ranges| == 0 then []
    else
      var p := BuildAutoProfile(ranges[|ranges| - 1], candles, w, g);
      CollectAuto(ranges[..|ranges| - 1], candles, w, g) + (if p.Some? then [p.value] else [])
  }

  /** The autoProfiles memo. */
  function AutoProfilesOf(candles: seq<Candle>, w: VisibleWindow, g: Option<Geometry>,
                          day: bool, week: bool, session: bool): seq<AutoProfile>
  {
    var times := CandleTimes(candles);
    if g.None? || |candles| == 0 then []
    else if |times| == 0 || times[|times| - 1].None? then []
    else CollectAuto(AutoRangesOf(times, |candles|, day, week, session), candles, w, g.value)
  }

  /** buildProfile as written, with the loops of resolveIndexRange. */
  method ComputeAutoProfile(range: AutoRange, candles: seq<Candle>, times: seq<Option<int>>, w: VisibleWindow, g: Geometry)
    returns (r: Option<AutoProfile>)
    requires times == CandleTimes(candles)
    ensures r == BuildAutoProfile(range, candles, w, g)
  {
    var indexes := ResolveIndexRange(range, times, |candles|);
    if indexes.None? {
      return None;
    }
    var c := ClipRange(indexes.value.0, indexes.value.1, |candles|, w);
    if c.None? {
      return None;
    }
    ClipRangeSound(indexes.value.0, indexes.value.1, |candles|, w);
    var profile := ClipProfile(candles, c.value, g);
    if profile.None? {
      return None;
    }
    r := Some(AutoProfile(range.kind, BoxOf(g, c.value.startLocal, c.value.endLocal), profile.value));
  }

  /** The autoProfiles memo as written: ranges in the order day, week,
      session, the session found by the backward scan. */
  method ComputeAutoProfiles(candles: seq<Candle>, w: VisibleWindow, g: Option<Geometry>,
                             day: bool, week: bool, session: bool) returns (r: seq<AutoProfile>)
    ensures r == AutoProfilesOf(candles, w, g, day, week, session)
  {
    var times := CandleTimes(candles);
    if g.None? || |candles| == 0 {
      return [];
    }
    if |times| == 0 || times[|times| - 1].None? {
      return [];
    }
    var lastDayStart := DayStart(times[|times| - 1].value);
    var ranges: seq<AutoRange> := [];
    if day {
      ranges := ranges + [TsRange(Day, lastDayStart, lastDayStart + DayMs)];
    }
    if week {
      ranges := ranges + [TsRange(Week, lastDayStart - DayMs * 6, lastDayStart + DayMs)];
    }
    if session {
      var startIndex := SessionStart(times);
      ranges := ranges + [IndexRange(Session, startIndex, |candles| - 1)];
    }
    assert ranges == AutoRangesOf(times, |candles|, day, week, session);
    r := [];
    for k := 0 to |ranges|
      invariant r == CollectAuto(ranges[..k], candles, w, g.value)
    {
      assert ranges[..k + 1][..k] == ranges[..k];
      var p := ComputeAutoProfile(ranges[k], candles, times, w, g.value);
      assert CollectAuto(ranges[..k + 1], candles, w, g.value)
          == CollectAuto(ranges[..k], candles, w, g.value) + (if p.Some? then [p.value] else []);
      if p.Some? {
        r := r + [p.value];
      }
    }
    assert ranges[..|ranges|] == ranges;
  }

  /** Each auto profile comes from one of the requested ranges, in order,
      and there is at most one per range. */
  lemma {:induction false} CollectAutoFromRanges(ranges: seq<AutoRange>, candles: seq<Candle>, w: VisibleWindow, g: Geometry)
    ensures |CollectAuto(ranges, candles, w, g)| <= |ranges|
    ensures forall p :: p in CollectAuto(ranges, candles, w, g) ==>
      exists k :: 0 <= k < |ranges| && BuildAutoProfile(ranges[k], candles, w, g) == Some(p)
  {
    if |ranges| > 0 {
      var pre := ranges[..|ranges| - 1];
      CollectAutoFromRanges(pre, candles, w, g);
      forall p | p in CollectAuto(ranges, candles, w, g)
        ensures exists k :: 0 <= k < |ranges| && BuildAutoProfile(ranges[k], candles, w, g) == Some(p)
      {
        if p in CollectAuto(pre, candles, w, g) {
          var k :| 0 <= k < |pre| && BuildAutoProfile(pre[k], candles, w, g) == Some(p);
          assert ranges[k] == pre[k];
        } else {
          assert BuildAutoProfile(ranges[|ranges| - 1], candles, w, g) == Some(p);
        }
      }
    }
  }

  /** A range pinned by the user: its id and its two global indices. */
  datatype FixedRange = FixedRange(id: string, start: int, end: int)

  /** A drawn pinned profile. */
  datatype FixedProfile = FixedProfile(id: string, box: Box, profile: RangeProfile)

  /** The body of the fixedProfiles map for one pinned range. The slice
      bounds are cut to the series once more, which changes nothing. */
  function BuildFixedProfile(range: FixedRange, candles: seq<Candle>, w: VisibleWindow, g: Geometry): Option<FixedProfile>
  {
    var c := ClipRange(range.start, range.end, |candles|, w);
    if c.None? then None
    else
      ClipRangeSound(range.start, range.end, |candles|, w);
      var p := ClipProfile(candles, c.value, g);
      if p.None? then None
      else Some(FixedProfile(range.id, BoxOf(g, c.value.startLocal, c.value.endLocal), p.value))
  }

  /** `fixedRanges.map(...).filter(Boolean)`. */
  function CollectFixed(ranges: seq<FixedRange>, candles: seq<Candle>, w: VisibleWindow, g: Geometry): seq<FixedProfile>
  {
    if |ranges| == 0 then []
    else
      var p := BuildFixedProfile(ranges[|ranges| - 1], candles, w, g);
      CollectFixed(ranges[..|ranges| - 1], candles, w, g) + (if p.Some? then [p.value] else [])
  }

  /** The fixedProfiles memo. */
  function FixedProfilesOf(g: Option<Geometry>, candles: seq<Candle>, ranges: seq<FixedRange>, w: VisibleWindow): seq<FixedProfile>
  {
    if g.None? || |candles| == 0 || |ranges| == 0 then []
    else CollectFixed(ranges, candles, w, g.value)
  }

  /** Pinned profiles keep the ids of their ranges: each one is the profile
      of a pinned range, and there are no more of them than ranges. */
  lemma {:induction false} CollectFixedFromRanges(ranges: seq<FixedRange>, candles: seq<Candle>, w: VisibleWindow, g: Geometry)
    ensures |CollectFixed(ranges, candles, w, g)| <= |ranges|
    ensures forall p :: p in CollectFixed(ranges, candles, w, g) ==>
      exists k :: 0 <= k < |ranges| && ranges[k].id == p.id && BuildFixedProfile(ranges[k], candles, w, g) == Some(p)
  {
    if |ranges| > 0 {
      var pre := ranges[..|ranges| - 1];
      CollectFixedFromRanges(pre, candles, w, g);
      forall p | p in CollectFixed(ranges, candles, w, g)
        ensures exists k :: 0 <= k < |ranges| && ranges[k].id == p.id && BuildFixedProfile(ranges[k], candles, w, g) == Some(p)
      {
        if p in CollectFixed(pre, candles, w, g) {
          var k :| 0 <= k < |pre| && pre[k].id == p.id && BuildFixedProfile(pre[k], candles, w, g) == Some(p);
          assert ranges[k] == pre[k];
        } else {
          assert BuildFixedProfile(ranges[|ranges| - 1], candles, w, g) == Some(p);
        }
      }
    }
  }

  /** A pinned profile is the range profile of the candles from the lower
      to the upper end of its range, at least two of them, in a box
      anchored on the window. */
  lemma FixedProfileCoversRange(range: FixedRange, candles: seq<Candle>, w: VisibleWindow, g: Geometry)
    requires BuildFixedProfile(range, candles, w, g).Some?
    ensures var lo := MaxInt(0, MinInt(range.start, range.end));
      var hi := MinInt(|candles| - 1, MaxInt(range.start, range.end));
      && 0 <= lo < hi < |candles|
      && Some(BuildFixedProfile(range, candles, w, g).value.profile)
         == RangeProfileOf(candles[lo..hi + 1], None, None,
                           Count(EstimateRangeBins(hi - lo + 1, Some(g.layout.priceBottom - g.layout.priceTop)) as real))
  {
    ClipRangeSound(range.start, range.end, |candles|, w);
  }
}
