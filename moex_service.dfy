/** The server's MOEX ISS adapter: the timeframe-to-interval mapping, the
    checks on the `candles` block of an ISS response, the row filter, the
    tail truncation, the result summary, and the in-memory TTL cache keyed
    by `symbol|timeframe`. The HTTP request itself is not modelled: the
    parsed response body is a parameter. */
module MoexService {
  import opened Common

  /** At most this many candles are handed on to the client. */
  const MaxCandles: nat := 2000

  /** Lifetime of an in-memory cache entry, in milliseconds. */
  const CacheTtlMs: int := 60 * 1000

  /** The timeframe keys the API accepts. */
  const AllowedTimeframes: set<string> := {"10m", "1h", "1d"}

  /** The ISS `interval` code for a timeframe key: 60 for an hour, 10 for
      ten minutes, and the daily code 24 for anything else. */
  function MapTimeframeToInterval(tf: string): (r: int)
    ensures r == 60 <==> tf == "1h"
    ensures r == 10 <==> tf == "10m"
    ensures r == 24 <==> tf != "1h" && tf != "10m"
  {
    match tf
    case "1h" => 60
    case "10m" => 10
    case _ => 24
  }

  /** Each accepted timeframe asks ISS for a different interval. */
  lemma AllowedTimeframesHaveDistinctIntervals(a: string, b: string)
    requires a in AllowedTimeframes && b in AllowedTimeframes && a != b
    ensures MapTimeframeToInterval(a) != MapTimeframeToInterval(b)
  {
  }

  // ---------------------------------------------------------------------
  // The ISS response

  /** One cell of an ISS data row: its raw text and what `Number(...)`
      makes of it (None when that is not a finite number). */
  datatype Cell = Cell(text: string, number: Option<real>)

  type Row = seq<Cell>

  /** The `candles` block of the response: `data` and `columns` are None
      when absent. */
  datatype CandlesBlock = CandlesBlock(data: Option<seq<Row>>, columns: Option<seq<string>>)

  /** A candle as the server hands it on: `time` is the raw `begin` text
      (None when the row has no such cell); `volume` is not required to be
      finite. */
  datatype MoexCandle = MoexCandle(time: Option<string>, open: real, high: real, low: real, close: real, volume: Option<real>)

  /** The summary object returned to the controller. */
  datatype MoexResult = MoexResult(symbol: string, timeframe: string, from: Option<string>, till: Option<string>, candlesCount: nat, candles: seq<MoexCandle>)

  /** The errors the adapter throws on a malformed or empty response. */
  datatype MoexError = NoCandlesBlock | MissingColumns | EmptyCandles

  datatype Outcome<T> = Success(value: T) | Failure(error: MoexError)

  /** `Array.prototype.indexOf`: the first position of `name`, or -1. */
  function IndexOf(cols: seq<string>, name: string): (r: int)
    ensures -1 <= r < |cols|
    ensures r == -1 <==> name !in cols
    ensures r >= 0 ==> cols[r] == name && name !in cols[..r]
  {
    if |cols| == 0 then -1
    else if cols[0] == name then 0
    else
      var k := IndexOf(cols[1..], name);
      assert cols == [cols[0]] + cols[1..];
      if k < 0 then -1
      else
        assert cols[..k + 1] == [cols[0]] + cols[1..][..k];
        k + 1
  }

  /** Where the six columns the adapter reads sit in a row. */
  datatype Columns = Columns(begin: nat, open: nat, high: nat, low: nat, close: nat, volume: nat)

  predicate HasColumn(cols: seq<string>, name: string)
  {
    name in cols
  }

  /** The column lookup: None when any of begin, open, high, low, close or
      volume is missing; otherwise the first position of each. */
  function LocateColumns(cols: seq<string>): (r: Option<Columns>)
    ensures r.None? <==> !(HasColumn(cols, "begin") && HasColumn(cols, "open") && HasColumn(cols, "high")
                           && HasColumn(cols, "low") && HasColumn(cols, "close") && HasColumn(cols, "volume"))
    ensures r.Some? ==> r.value.begin < |cols| && r.value.open < |cols| && r.value.high < |cols|
                        && r.value.low < |cols| && r.value.close < |cols| && r.value.volume < |cols|
    ensures r.Some? ==> cols[r.value.begin] == "begin" && cols[r.value.open] == "open" && cols[r.value.high] == "high"
                        && cols[r.value.low] == "low" && cols[r.value.close] == "close" && cols[r.value.volume] == "volume"
    ensures r.Some? ==> "begin" !in cols[..r.value.begin] && "open" !in cols[..r.value.open]
                        && "high" !in cols[..r.value.high] && "low" !in cols[..r.value.low]
                        && "close" !in cols[..r.value.close] && "volume" !in cols[..r.value.volume]
  {
    var b := IndexOf(cols, "begin");
    var o := IndexOf(cols, "open");
    var h := IndexOf(cols, "high");
    var l := IndexOf(cols, "low");
    var c := IndexOf(cols, "close");
    var v := IndexOf(cols, "volume");
    if b < 0 || o < 0 || h < 0 || l < 0 || c < 0 || v < 0 then None
    else Some(Columns(b, o, h, l, c, v))
  }

  /** `Number(row[i])`: a position past the end of the row reads
      `undefined`, which is not a finite number. */
  function CellNumber(row: Row, i: nat): Option<real>
  {
    if i < |row| then row[i].number else None
  }

  function CellText(row: Row, i: nat): Option<string>
  {
    if i < |row| then Some(row[i].text) else None
  }

  /** A row survives the filter iff open, high, low and close are finite. */
  predicate RowFinite(row: Row, ix: Columns)
  {
    CellNumber(row, ix.open).Some? && CellNumber(row, ix.high).Some?
    && CellNumber(row, ix.low).Some? && CellNumber(row, ix.close).Some?
  }

  /** The map step: a candle for a finite row, None otherwise. */
  function ParseRow(row: Row, ix: Columns): (r: Option<MoexCandle>)
    ensures r.Some? <==> RowFinite(row, ix)
    ensures r.Some? ==> r.value.open == CellNumber(row, ix.open).value && r.value.close == CellNumber(row, ix.close).value
                        && r.value.high == CellNumber(row, ix.high).value && r.value.low == CellNumber(row, ix.low).value
                        && r.value.time == CellText(row, ix.begin) && r.value.volume == CellNumber(row, ix.volume)
  {
    var open := CellNumber(row, ix.open);
    var high := CellNumber(row, ix.high);
    var low := CellNumber(row, ix.low);
    var close := CellNumber(row, ix.close);
    if open.None? || high.None? || low.None? || close.None? then None
    else Some(MoexCandle(CellText(row, ix.begin), open.value, high.value, low.value, close.value, CellNumber(row, ix.volume)))
  }

  /** `data.map(parse).filter(Boolean)`. */
  function KeepRows(rows: seq<Row>, ix: Columns): (r: seq<MoexCandle>)
    ensures |r| <= |rows|
  {
    if |rows| == 0 then []
    else
      var rest := KeepRows(rows[1..], ix);
      match ParseRow(rows[0], ix)
      case Some(c) => [c] + rest
      case None => rest
  }

  /** A single row is kept, as its parsed candle, exactly when it is finite. */
  lemma KeepOneRow(row: Row, ix: Columns)
    ensures RowFinite(row, ix) ==> KeepRows([row], ix) == [ParseRow(row, ix).value]
    ensures !RowFinite(row, ix) ==> KeepRows([row], ix) == []
  {
    assert [row][1..] == [];
  }

  /** The filter keeps order: filtering a concatenation concatenates the
      filtered parts. */
  lemma {:induction false} KeepRowsAppend(a: seq<Row>, b: seq<Row>, ix: Columns)
    ensures KeepRows(a + b, ix) == KeepRows(a, ix) + KeepRows(b, ix)
  {
    if |a| == 0 {
      assert a + b == b;
    } else {
      assert (a + b)[1..] == a[1..] + b;
      assert (a + b)[0] == a[0];
      KeepRowsAppend(a[1..], b, ix);
    }
  }

  /** Nothing is dropped when every row is finite. */
  lemma {:induction false} KeepAllFinite(rows: seq<Row>, ix: Columns)
    requires forall i :: 0 <= i < |rows| ==> RowFinite(rows[i], ix)
    ensures |KeepRows(rows, ix)| == |rows|
  {
    if |rows| > 0 {
      KeepAllFinite(rows[1..], ix);
    }
  }

  /** `candles.slice(-max)` when there are more than `max`: the last
      `min(|cs|, max)` candles. */
  function TakeLast<T>(cs: seq<T>, max: nat): (r: seq<T>)
    ensures |r| == MinInt(|cs|, max)
    ensures r == cs[|cs| - |r|..]
  {
    if |cs| > max then cs[|cs| - max..] else cs
  }

  /** The processing of a response body, from the block checks to the
      summary. */
  function ProcessResponse(block: Option<CandlesBlock>, symbol: string, timeframe: string): (r: Outcome<MoexResult>)
  {
    if block.None? || block.value.data.None? || block.value.columns.None? then Failure(NoCandlesBlock)
    else
      var ix := LocateColumns(block.value.columns.value);
      if ix.None? then Failure(MissingColumns)
      else
        var candles := TakeLast(KeepRows(block.value.data.value, ix.value), MaxCandles);
        if |candles| == 0 then Failure(EmptyCandles)
        else Success(MoexResult(symbol, timeframe, candles[0].time, candles[|candles| - 1].time, |candles|, candles))
  }

  /** The error paths: a missing block, data or columns; any of the six
      columns missing; no row left after filtering. An intact block with a
      kept row succeeds. */
  lemma ProcessResponseErrors(block: Option<CandlesBlock>, symbol: string, timeframe: string)
    ensures (block.None? || block.value.data.None? || block.value.columns.None?)
            ==> ProcessResponse(block, symbol, timeframe) == Failure(NoCandlesBlock)
    ensures block.Some? && block.value.data.Some? && block.value.columns.Some?
            && LocateColumns(block.value.columns.value).None?
            ==> ProcessResponse(block, symbol, timeframe) == Failure(MissingColumns)
    ensures block.Some? && block.value.data.Some? && block.value.columns.Some?
            && LocateColumns(block.value.columns.value).Some?
            && KeepRows(block.value.data.value, LocateColumns(block.value.columns.value).value) != []
            ==> ProcessResponse(block, symbol, timeframe).Success?
    ensures ProcessResponse(block, symbol, timeframe) == Failure(EmptyCandles)
            <==> block.Some? && block.value.data.Some? && block.value.columns.Some?
                 && LocateColumns(block.value.columns.value).Some?
                 && KeepRows(block.value.data.value, LocateColumns(block.value.columns.value).value) == []
  {
  }

  /** A successful result holds the last min(kept, 2000) kept candles, in
      order, and its from/till/count describe exactly those candles. */
  lemma ProcessResponseResult(block: Option<CandlesBlock>, symbol: string, timeframe: string)
    requires ProcessResponse(block, symbol, timeframe).Success?
    ensures block.Some? && block.value.data.Some? && block.value.columns.Some?
    ensures LocateColumns(block.value.columns.value).Some?
    ensures var res := ProcessResponse(block, symbol, timeframe).value;
            var kept := KeepRows(block.value.data.value, LocateColumns(block.value.columns.value).value);
            && res.symbol == symbol && res.timeframe == timeframe
            && 1 <= res.candlesCount == |res.candles| <= MaxCandles
            && |res.candles| == MinInt(|kept|, MaxCandles)
            && res.candles == kept[|kept| - |res.candles|..]
            && res.from == res.candles[0].time
            && res.till == res.candles[|res.candles| - 1].time
  {
  }

  // ---------------------------------------------------------------------
  // The in-memory cache

  /** A cached summary and the instant (ms) it stops being served. */
  datatype CacheEntry = CacheEntry(data: MoexResult, expiresAt: int)

  /** The cache key `${symbol}|${timeframe}`. */
  function CacheKey(symbol: string, timeframe: string): string
  {
    symbol + "|" + timeframe
  }

  /** Distinct (symbol, timeframe) pairs get distinct keys as long as the
      symbol holds no '|' (accepted symbols are letters only). */
  lemma CacheKeyInjective(s1: string, t1: string, s2: string, t2: string)
    requires '|' !in s1 && '|' !in s2
    requires CacheKey(s1, t1) == CacheKey(s2, t2)
    ensures s1 == s2 && t1 == t2
  {
    var k := CacheKey(s1, t1);
    // The first '|' of the key sits right after the symbol, for both pairs.
    assert k[|s1|] == '|' && forall i :: 0 <= i < |s1| ==> k[i] == s1[i];
    assert k[|s2|] == '|' && forall i :: 0 <= i < |s2| ==> k[i] == s2[i];
    assert |s1| == |s2|;
    assert s1 == k[..|s1|] == s2;
    assert t1 == k[|s1| + 1..] == t2;
  }

  /** `cache.get(key)` followed by the freshness test `expiresAt > now`. */
  function CacheLookup(entries: map<string, CacheEntry>, key: string, now: int): (r: Option<MoexResult>)
    ensures r.Some? <==> key in entries && now < entries[key].expiresAt
    ensures r.Some? ==> r.value == entries[key].data
  {
    if key in entries && entries[key].expiresAt > now then Some(entries[key].data) else None
  }

  /** An entry stored at `t` is served for exactly the next 60 seconds:
      at every instant before t + 60000 and at none from then on. */
  lemma StoredEntryLivesOneTtl(entries: map<string, CacheEntry>, key: string, data: MoexResult, t: int, now: int)
    ensures now < t + CacheTtlMs ==> CacheLookup(entries[key := CacheEntry(data, t + CacheTtlMs)], key, now) == Some(data)
    ensures now >= t + CacheTtlMs ==> CacheLookup(entries[key := CacheEntry(data, t + CacheTtlMs)], key, now) == None
  {
  }

  /** Storing under one key leaves every other key's lookups as they were. */
  lemma StoreLeavesOtherKeys(entries: map<string, CacheEntry>, key: string, e: CacheEntry, other: string, now: int)
    requires other != key
    ensures CacheLookup(entries[key := e], other, now) == CacheLookup(entries, other, now)
  {
  }

  /** The module-level `cache` Map and the fetch that consults and fills it. */
  class MoexCache {
    var entries: map<string, CacheEntry>

    constructor()
      ensures entries == map[]
    {
      entries := map[];
    }

    /** A fresh entry is returned as it is and the cache is left alone.
        Otherwise the response body (the upstream answer at `now`) is
        processed; a successful summary is stored with expiresAt =
        now + 60000, and an error leaves the cache unchanged. */
    method Fetch(symbol: string, timeframe: string, now: int, response: Option<CandlesBlock>) returns (r: Outcome<MoexResult>)
      modifies this
      ensures old(CacheLookup(entries, CacheKey(symbol, timeframe), now)).Some? ==>
                r == Success(old(CacheLookup(entries, CacheKey(symbol, timeframe), now)).value) && entries == old(entries)
      ensures old(CacheLookup(entries, CacheKey(symbol, timeframe), now)).None? ==>
                r == ProcessResponse(response, symbol, timeframe)
                && entries == (if r.Success? then old(entries)[CacheKey(symbol, timeframe) := CacheEntry(r.value, now + CacheTtlMs)]
                               else old(entries))
    {
      var key := CacheKey(symbol, timeframe);
      var cached := CacheLookup(entries, key, now);
      if cached.Some? {
        return Success(cached.value);
      }
      r := ProcessResponse(response, symbol, timeframe);
      if r.Success? {
        entries := entries[key := CacheEntry(r.value, now + CacheTtlMs)];
      }
    }
  }
}
