/** The price step of the candle volume profile
    (step 1 of buildVolumeProfileFromCandles,
    client/src/indicators/volumeProfile.js): a fixed tick, a number of
    levels, or, by default, the smallest gap between any two OHLC prices. */
module PriceStep {
  import opened Common

  /** `options.mode`; any value other than 'levels' and 'tick' behaves as 'auto'. */
  datatype Mode = Auto | Levels | Tick

  /** The options of the profile. `levels` and `tickSize` are 0 when missing. */
  datatype ProfileOptions = ProfileOptions(mode: Mode, levels: real, tickSize: real)

  /** `allPrices`: open, high, low, close of every candle, in series order. */
  function AllPrices(cs: seq<Candle>): (p: seq<real>)
    ensures |p| == 4 * |cs|
  {
    if |cs| == 0 then []
    else
      var c := cs[|cs| - 1];
      AllPrices(cs[..|cs| - 1]) + [c.open, c.high, c.low, c.close]
  }

  predicate SortedAsc(s: seq<real>)
  {
    forall i, j :: 0 <= i < j < |s| ==> s[i] <= s[j]
  }

  /** Insert x into an ascending sequence, before the first element not
      below it. */
  function Insert(x: real, s: seq<real>): (r: seq<real>)
    ensures |r| == |s| + 1
  {
    if |s| == 0 then [x]
    else if x <= s[0] then [x] + s
    else [s[0]] + Insert(x, s[1..])
  }

  /** Inserting adds x and loses nothing. */
  lemma {:induction false} InsertPermutes(x: real, s: seq<real>)
    ensures multiset(Insert(x, s)) == multiset(s) + multiset{x}
  {
    if |s| > 0 && x > s[0] {
      InsertPermutes(x, s[1..]);
      assert s == [s[0]] + s[1..];
    }
  }

  lemma {:induction false} InsertSorted(x: real, s: seq<real>)
    requires SortedAsc(s)
    ensures SortedAsc(Insert(x, s))
  {
    if |s| > 0 && x > s[0] {
      var rest := Insert(x, s[1..]);
      InsertSorted(x, s[1..]);
      InsertPermutes(x, s[1..]);
      assert s == [s[0]] + s[1..];
      forall k | 0 <= k < |rest|
        ensures s[0] <= rest[k]
      {
        assert rest[k] in multiset(rest);
        assert rest[k] in multiset(s[1..]) || rest[k] == x;
        if rest[k] != x {
          var m :| 0 <= m < |s[1..]| && s[1..][m] == rest[k];
          assert s[m + 1] == rest[k];
        }
      }
    }
  }

  /** `allPrices.sort((a, b) => a - b)`: ascending order. Any correct sort
      yields this same sequence, since an ascending permutation is unique. */
  function SortAsc(s: seq<real>): (r: seq<real>)
    ensures |r| == |s|
  {
    if |s| == 0 then [] else Insert(s[|s| - 1], SortAsc(s[..|s| - 1]))
  }

  /** The sort yields an ascending permutation of its input. */
  lemma {:induction false} SortAscSorts(s: seq<real>)
    ensures SortedAsc(SortAsc(s)) && multiset(SortAsc(s)) == multiset(s)
  {
    if |s| > 0 {
      var sortedPrefix := SortAsc(s[..|s| - 1]);
      SortAscSorts(s[..|s| - 1]);
      InsertSorted(s[|s| - 1], sortedPrefix);
      InsertPermutes(s[|s| - 1], sortedPrefix);
      assert s == s[..|s| - 1] + [s[|s| - 1]];
    }
  }

  /** The running minimum of the positive adjacent differences; None stands
      for Infinity, when no two adjacent prices differ. */
  function MinPositiveGap(s: seq<real>): (g: Option<real>)
    ensures g.Some? ==> g.value > 0.0
  {
    if |s| < 2 then None
    else
      var prev := MinPositiveGap(s[..|s| - 1]);
      var diff := s[|s| - 1] - s[|s| - 2];
      if diff > 0.0 && (prev.None? || diff < prev.value) then Some(diff) else prev
  }

  /** The loop over `allPrices` that finds `minDiff`. */
  method SmallestGap(sorted: seq<real>) returns (minDiff: Option<real>)
    ensures minDiff == MinPositiveGap(sorted)
  {
    minDiff := None;
    var i := 1;
    while i < |sorted|
      invariant 1 <= i && (|sorted| == 0 || i <= |sorted|)
      invariant minDiff == MinPositiveGap(sorted[..MinInt(i, |sorted|)])
    {
      assert sorted[..i + 1][..i] == sorted[..i];
      var diff := sorted[i] - sorted[i - 1];
      if diff > 0.0 && (minDiff.None? || diff < minDiff.value) {
        minDiff := Some(diff);
      }
      i := i + 1;
    }
    assert sorted[..MinInt(i, |sorted|)] == sorted;
  }

  /** The scan finds a gap exactly when some neighbour is above its
      predecessor, and the gap it finds is one of the neighbour differences. */
  lemma {:induction false} MinPositiveGapFound(s: seq<real>)
    ensures MinPositiveGap(s).Some? <==> exists i :: 0 < i < |s| && s[i - 1] < s[i]
    ensures MinPositiveGap(s).Some? ==> exists i :: 0 < i < |s| && s[i] - s[i - 1] == MinPositiveGap(s).value
  {
    if |s| >= 2 {
      var n := |s|;
      var pre := s[..n - 1];
      MinPositiveGapFound(pre);
      var g := MinPositiveGap(s);
      var prev := MinPositiveGap(pre);
      if g.Some? {
        if g != prev {
          assert s[n - 1] - s[n - 2] == g.value;
        } else {
          var i :| 0 < i < |pre| && pre[i] - pre[i - 1] == g.value;
          assert s[i] - s[i - 1] == g.value;
        }
      } else {
        forall i | 0 < i < n
          ensures s[i - 1] >= s[i]
        {
          if i < n - 1 {
            assert pre[i - 1] >= pre[i];
          }
        }
      }
    }
  }

  /** On an ascending sequence the gap found is the smallest positive
      difference between ANY two elements, not only between neighbours. */
  lemma {:induction false} MinPositiveGapIsSmallest(s: seq<real>)
    requires SortedAsc(s)
    ensures MinPositiveGap(s).Some? ==>
      forall i, j :: 0 <= i < |s| && 0 <= j < |s| && s[i] < s[j] ==> MinPositiveGap(s).value <= s[j] - s[i]
  {
    if |s| >= 2 {
      var n := |s|;
      var pre := s[..n - 1];
      MinPositiveGapIsSmallest(pre);
      MinPositiveGapFound(pre);
      var g := MinPositiveGap(s);
      var prev := MinPositiveGap(pre);
      var d := s[n - 1] - s[n - 2];
      assert prev.Some? ==> g.Some? && g.value <= prev.value;
      assert d > 0.0 ==> g.Some? && g.value <= d;
      if g.Some? {
        forall i, j | 0 <= i < n && 0 <= j < n && s[i] < s[j]
          ensures g.value <= s[j] - s[i]
        {
          if j == n - 1 && d > 0.0 {
            assert i <= n - 2;
            assert s[i] <= s[n - 2];
          } else {
            var jj := if j == n - 1 then n - 2 else j;
            assert s[jj] == s[j];
            assert pre[i] < pre[jj];
            var k := FirstRise(pre, i, jj);
            assert pre[k - 1] < pre[k];
          }
        }
      }
    }
  }

  /** The automatic step is the smallest positive difference between any two
      of the candles' OHLC prices, and exists exactly when two of them differ. */
  lemma AutoStepIsSmallestPriceGap(cs: seq<Candle>)
    ensures var g := MinPositiveGap(SortAsc(AllPrices(cs)));
      && (g.Some? <==> exists x, y :: x in AllPrices(cs) && y in AllPrices(cs) && x < y)
      && (g.Some? ==> forall x, y :: x in AllPrices(cs) && y in AllPrices(cs) && x < y ==> g.value <= y - x)
      && (g.Some? ==> exists x, y :: x in AllPrices(cs) && y in AllPrices(cs) && y - x == g.value)
  {
    var p := AllPrices(cs);
    var s := SortAsc(p);
    SortAscSorts(p);
    SortedGapIsSmallest(s, p);
  }

  /** The same facts for any sequence p, through its ascending permutation s. */
  lemma SortedGapIsSmallest(s: seq<real>, p: seq<real>)
    requires SortedAsc(s) && multiset(s) == multiset(p)
    ensures var g := MinPositiveGap(s);
      && (g.Some? <==> exists x, y :: x in p && y in p && x < y)
      && (g.Some? ==> forall x, y :: x in p && y in p && x < y ==> g.value <= y - x)
      && (g.Some? ==> exists x, y :: x in p && y in p && y - x == g.value)
  {
    GapExistsIffTwoValues(s, p);
    GapBelowEveryDifference(s, p);
    GapIsADifference(s, p);
  }

  lemma GapExistsIffTwoValues(s: seq<real>, p: seq<real>)
    requires SortedAsc(s) && multiset(s) == multiset(p)
    ensures MinPositiveGap(s).Some? <==> exists x, y :: x in p && y in p && x < y
  {
    if exists x, y :: x in p && y in p && x < y {
      TwoValuesGiveGap(s, p);
    }
    GapIsADifference(s, p);
  }

  lemma TwoValuesGiveGap(s: seq<real>, p: seq<real>)
    requires SortedAsc(s) && multiset(s) == multiset(p)
    requires exists x, y :: x in p && y in p && x < y
    ensures MinPositiveGap(s).Some?
  {
    var x, y :| x in p && y in p && x < y;
    SameElements(s, p);
    var i :| 0 <= i < |s| && s[i] == x;
    var j :| 0 <= j < |s| && s[j] == y;
    var k := FirstRise(s, i, j);
    MinPositiveGapFound(s);
  }

  lemma GapBelowEveryDifference(s: seq<real>, p: seq<real>)
    requires SortedAsc(s) && multiset(s) == multiset(p)
    ensures MinPositiveGap(s).Some? ==> forall x, y :: x in p && y in p && x < y ==> MinPositiveGap(s).value <= y - x
  {
    MinPositiveGapIsSmallest(s);
    SameElements(s, p);
    if MinPositiveGap(s).Some? {
      forall x, y | x in p && y in p && x < y
        ensures MinPositiveGap(s).value <= y - x
      {
        var i :| 0 <= i < |s| && s[i] == x;
        var j :| 0 <= j < |s| && s[j] == y;
      }
    }
  }

  lemma GapIsADifference(s: seq<real>, p: seq<real>)
    requires SortedAsc(s) && multiset(s) == multiset(p)
    ensures MinPositiveGap(s).Some? ==> exists x, y :: x in p && y in p && y - x == MinPositiveGap(s).value
  {
    MinPositiveGapFound(s);
    SameElements(s, p);
    if MinPositiveGap(s).Some? {
      var i :| 0 < i < |s| && s[i] - s[i - 1] == MinPositiveGap(s).value;
      assert s[i] in p && s[i - 1] in p;
    }
  }

  lemma SameElements(s: seq<real>, p: seq<real>)
    requires multiset(s) == multiset(p)
    ensures forall x :: x in p <==> x in s
  {
    forall x
      ensures x in p <==> x in s
    {
      assert x in p <==> x in multiset(p);
      assert x in s <==> x in multiset(s);
    }
  }

  /** Between two different values of an ascending sequence lies a rise
      between neighbours. */
  lemma {:induction false} FirstRise(s: seq<real>, i: int, j: int) returns (k: int)
    requires SortedAsc(s) && 0 <= i < j < |s| && s[i] < s[j]
    ensures i < k <= j && s[k - 1] < s[k]
    decreases j - i
  {
    if s[i] < s[i + 1] {
      k := i + 1;
    } else {
      k := FirstRise(s, i + 1, j);
    }
  }

  /** `(maxPrice - minPrice) / 100 || 1`: a hundred levels, or 1 when the
      range is empty. */
  function FallbackStep(minPrice: real, maxPrice: real): (step: real)
    ensures step != 0.0
    ensures minPrice <= maxPrice ==> step > 0.0
  {
    if (maxPrice - minPrice) / 100.0 == 0.0 then 1.0 else (maxPrice - minPrice) / 100.0
  }

  /** The step the profile uses before it builds any bin. */
  function PriceStepOf(cs: seq<Candle>, minPrice: real, maxPrice: real, opts: ProfileOptions): real
  {
    var raw :=
      if opts.mode == Tick && opts.tickSize > 0.0 then opts.tickSize
      else if opts.mode == Levels && opts.levels > 0.0 && maxPrice > minPrice then (maxPrice - minPrice) / opts.levels
      else match MinPositiveGap(SortAsc(AllPrices(cs)))
        case None => FallbackStep(minPrice, maxPrice)
        case Some(d) => d;
    if raw <= 0.0 then FallbackStep(minPrice, maxPrice) else raw
  }

  /** The step is positive, except when the range runs downwards and no
      other rule applied; then it is the (negative) hundredth of the range,
      so that the first grid price already lies above the last one. */
  lemma PriceStepSign(cs: seq<Candle>, minPrice: real, maxPrice: real, opts: ProfileOptions)
    ensures var step := PriceStepOf(cs, minPrice, maxPrice, opts);
      && step != 0.0
      && (step < 0.0 ==> maxPrice < minPrice && step == (maxPrice - minPrice) / 100.0)
      && (step < 0.0 ==> minPrice > maxPrice + step * 0.5)
      && (opts.mode == Tick && opts.tickSize > 0.0 ==> step == opts.tickSize)
      && (opts.mode == Levels && opts.levels > 0.0 && maxPrice > minPrice && !(opts.mode == Tick) ==>
            step * opts.levels == maxPrice - minPrice)
  {
  }

  /** Step 1 of buildVolumeProfileFromCandles as written. */
  method ComputePriceStep(cs: seq<Candle>, minPrice: real, maxPrice: real, opts: ProfileOptions) returns (priceStep: real)
    ensures priceStep == PriceStepOf(cs, minPrice, maxPrice, opts)
  {
    if opts.mode == Tick && opts.tickSize > 0.0 {
      priceStep := opts.tickSize;
    } else if opts.mode == Levels && opts.levels > 0.0 && maxPrice > minPrice {
      priceStep := (maxPrice - minPrice) / opts.levels;
    } else {
      var allPrices := SortAsc(AllPrices(cs));
      var minDiff := SmallestGap(allPrices);
      if minDiff.None? {
        priceStep := FallbackStep(minPrice, maxPrice);
      } else {
        priceStep := minDiff.value;
      }
    }
    if priceStep <= 0.0 {
      priceStep := FallbackStep(minPrice, maxPrice);
    }
  }
}
