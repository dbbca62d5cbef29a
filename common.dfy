/** Values shared by the chart engine: the candle record, optional values,
    the clamp and rounding helpers of the JavaScript code, and sums and
    running extrema over candle series. */
module Common {

  datatype Option<+T> = None | Some(value: T)

  /** One OHLCV bar as the chart sees it. `time` is the parsed timestamp in
      milliseconds (None when the date did not parse); `volume` is None when
      the field is not a finite number. Prices are finite. */
  datatype Candle = Candle(time: Option<int>, open: real, high: real, low: real, close: real, volume: Option<real>)

  /** One histogram bar of a volume profile: its lower price edge and volume. */
  datatype Bin = Bin(price: real, volume: real)

  /** `Number(c.volume) || 0`: a missing or non-numeric volume counts as zero. */
  function VolumeOrZero(c: Candle): real
  {
    if c.volume.Some? then c.volume.value else 0.0
  }

  /** `Math.min(Math.max(value, lo), hi)` on reals. When lo > hi the upper
      bound wins, because it is applied last. */
  function Clamp(value: real, lo: real, hi: real): (r: real)
    ensures lo <= hi ==> lo <= r <= hi
    ensures lo <= value <= hi ==> r == value
    ensures r <= hi
  {
    var m := if value < lo then lo else value;
    if m > hi then hi else m
  }

  /** The same clamp on integers, for bar counts, offsets and indices. */
  function ClampInt(value: int, lo: int, hi: int): (r: int)
    ensures lo <= hi ==> lo <= r <= hi
    ensures lo <= value <= hi ==> r == value
    ensures r <= hi
  {
    var m := if value < lo then lo else value;
    if m > hi then hi else m
  }

  function MinInt(a: int, b: int): int { if a <= b then a else b }
  function MaxInt(a: int, b: int): int { if a >= b then a else b }
  function MaxReal(a: real, b: real): real { if a >= b then a else b }

  /** `Math.round(x)`: the nearest integer, halves rounded up. */
  function Round(x: real): (r: int)
    ensures r as real - 0.5 <= x < r as real + 0.5
  {
    (x + 0.5).Floor
  }

  /** Multiplying both sides by a positive factor keeps the order, both ways. */
  lemma MulMonotone(a: real, b: real, s: real)
    requires 0.0 < s
    ensures a < b <==> a * s < b * s
    ensures a <= b <==> a * s <= b * s
  {
    assert b * s - a * s == (b - a) * s;
  }

  /** Multiplying a quotient by its divisor gives the dividend back. */
  lemma DivCancels(a: real, s: real)
    requires s != 0.0
    ensures s * (a / s) == a && (a / s) * s == a
  {
  }

  /** Dividing both sides by a positive divisor keeps the order. */
  lemma DivMonotone(a: real, b: real, s: real)
    requires 0.0 < s && a <= b
    ensures a / s <= b / s
  {
    MulMonotone(a / s, b / s, s);
    assert (a / s) * s == a && (b / s) * s == b;
  }

  /** Sum of a sequence of reals, accumulated from the left as the loops do. */
  function Sum(s: seq<real>): real
  {
    if |s| == 0 then 0.0 else Sum(s[..|s| - 1]) + s[|s| - 1]
  }

  /** Sum of s[lo], ..., s[hi - 1], accumulated from the left. */
  function SumRange(s: seq<real>, lo: int, hi: int): real
    requires 0 <= lo <= hi <= |s|
    decreases hi - lo
  {
    if lo == hi then 0.0 else SumRange(s, lo, hi - 1) + s[hi - 1]
  }

  /** SumRange is the sum of the slice s[lo..hi). */
  lemma {:induction false} SumRangeIsSliceSum(s: seq<real>, lo: int, hi: int)
    requires 0 <= lo <= hi <= |s|
    ensures SumRange(s, lo, hi) == Sum(s[lo..hi])
    decreases hi - lo
  {
    if lo < hi {
      SumRangeIsSliceSum(s, lo, hi - 1);
      assert s[lo..hi][..hi - 1 - lo] == s[lo..hi - 1];
    }
  }

  lemma {:induction false} SumAppend(s: seq<real>, t: seq<real>)
    ensures Sum(s + t) == Sum(s) + Sum(t)
    decreases |t|
  {
    if |t| == 0 {
      assert s + t == s;
    } else {
      assert (s + t)[..|s + t| - 1] == s + t[..|t| - 1];
      SumAppend(s, t[..|t| - 1]);
    }
  }

  /** Adding v at one position adds v to the total. */
  lemma SumUpdate(s: seq<real>, k: int, v: real)
    requires 0 <= k < |s|
    ensures Sum(s[k := s[k] + v]) == Sum(s) + v
  {
    var t := s[k := s[k] + v];
    assert s == s[..k] + [s[k]] + s[k + 1..];
    assert t == s[..k] + [s[k] + v] + s[k + 1..];
    SumAppend(s[..k] + [s[k]], s[k + 1..]);
    SumAppend(s[..k], [s[k]]);
    SumAppend(s[..k] + [s[k] + v], s[k + 1..]);
    SumAppend(s[..k], [s[k] + v]);
    assert Sum([s[k]]) == s[k] by { assert [s[k]][..0] == []; }
    assert Sum([s[k] + v]) == s[k] + v by { assert [s[k] + v][..0] == []; }
  }

  /** Widening the range by one element on the left or right adds that element. */
  lemma {:induction false} SumRangeExtendLeft(s: seq<real>, lo: int, hi: int)
    requires 0 < lo <= hi <= |s|
    ensures SumRange(s, lo - 1, hi) == s[lo - 1] + SumRange(s, lo, hi)
    decreases hi - lo
  {
    if lo < hi {
      SumRangeExtendLeft(s, lo, hi - 1);
    }
  }

  lemma SumRangeExtendRight(s: seq<real>, lo: int, hi: int)
    requires 0 <= lo <= hi < |s|
    ensures SumRange(s, lo, hi + 1) == SumRange(s, lo, hi) + s[hi]
  {
  }

  /** Sequence of n zeros, the freshly allocated histogram. */
  function Zeros(n: nat): (z: seq<real>)
    ensures |z| == n && forall i :: 0 <= i < n ==> z[i] == 0.0
  {
    seq(n, _ => 0.0)
  }

  lemma {:induction false} SumZeros(n: nat)
    ensures Sum(Zeros(n)) == 0.0
  {
    if n > 0 {
      assert Zeros(n)[..n - 1] == Zeros(n - 1);
      SumZeros(n - 1);
    }
  }

  /** One step of `if (c.low < min) min = c.low`, with None standing for +Infinity. */
  function Lower(acc: Option<real>, x: real): Option<real>
  {
    if acc.None? || x < acc.value then Some(x) else acc
  }

  /** One step of `if (c.high > max) max = c.high`, with None standing for -Infinity. */
  function Higher(acc: Option<real>, x: real): Option<real>
  {
    if acc.None? || x > acc.value then Some(x) else acc
  }

  /** The running minimum of the lows after scanning cs from `init`. */
  function FoldLow(cs: seq<Candle>, init: Option<real>): Option<real>
  {
    if |cs| == 0 then init else Lower(FoldLow(cs[..|cs| - 1], init), cs[|cs| - 1].low)
  }

  /** The running maximum of the highs after scanning cs from `init`. */
  function FoldHigh(cs: seq<Candle>, init: Option<real>): Option<real>
  {
    if |cs| == 0 then init else Higher(FoldHigh(cs[..|cs| - 1], init), cs[|cs| - 1].high)
  }

  /** The folded minimum is finite once a candle was seen, lies below every
      low and below the initial value, and is one of them. */
  lemma {:induction false} FoldLowIsMin(cs: seq<Candle>, init: Option<real>)
    ensures |cs| > 0 || init.Some? <==> FoldLow(cs, init).Some?
    ensures FoldLow(cs, init).Some? ==> forall i :: 0 <= i < |cs| ==> FoldLow(cs, init).value <= cs[i].low
    ensures FoldLow(cs, init).Some? && init.Some? ==> FoldLow(cs, init).value <= init.value
    ensures FoldLow(cs, init) == init || exists i :: 0 <= i < |cs| && FoldLow(cs, init) == Some(cs[i].low)
  {
    if |cs| > 0 {
      FoldLowIsMin(cs[..|cs| - 1], init);
      var p := FoldLow(cs[..|cs| - 1], init);
      if p.Some? && !(cs[|cs| - 1].low < p.value) {
        if p != init {
          var i :| 0 <= i < |cs| - 1 && p.value == cs[..|cs| - 1][i].low;
          assert p.value == cs[i].low;
        }
      }
    }
  }

  lemma {:induction false} FoldHighIsMax(cs: seq<Candle>, init: Option<real>)
    ensures |cs| > 0 || init.Some? <==> FoldHigh(cs, init).Some?
    ensures FoldHigh(cs, init).Some? ==> forall i :: 0 <= i < |cs| ==> FoldHigh(cs, init).value >= cs[i].high
    ensures FoldHigh(cs, init).Some? && init.Some? ==> FoldHigh(cs, init).value >= init.value
    ensures FoldHigh(cs, init) == init || exists i :: 0 <= i < |cs| && FoldHigh(cs, init) == Some(cs[i].high)
  {
    if |cs| > 0 {
      FoldHighIsMax(cs[..|cs| - 1], init);
      var p := FoldHigh(cs[..|cs| - 1], init);
      if p.Some? && !(cs[|cs| - 1].high > p.value) {
        if p != init {
          var i :| 0 <= i < |cs| - 1 && p.value == cs[..|cs| - 1][i].high;
          assert p.value == cs[i].high;
        }
      }
    }
  }
}
