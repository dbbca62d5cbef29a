/** Point of Control and Value Area over a histogram of bin volumes, as
    specifications shared by the main profile
    (client/src/chart/renderMainProfile.js) and the candle volume profile
    (client/src/indicators/volumeProfile.js). Each of those files has its own
    loops; both are proved to compute the functions below. */
module ValueArea {
  import opened Common

  /** The running scan `if (b.volume > maxVol) { maxVol = b.volume; poc = i }`
      from maxVol = 0, poc = -1: the largest positive volume and the first
      index holding it, or (0, -1) when no volume is positive. */
  function PocOf(vols: seq<real>): (r: (real, int))
    ensures -1 <= r.1 < |vols| && r.0 >= 0.0
    ensures r.1 >= 0 ==> vols[r.1] == r.0 > 0.0
    ensures r.1 == -1 ==> r.0 == 0.0
  {
    if |vols| == 0 then (0.0, -1)
    else
      var prev := PocOf(vols[..|vols| - 1]);
      if vols[|vols| - 1] > prev.0 then (vols[|vols| - 1], |vols| - 1) else prev
  }

  /** PocOf finds the first maximum: a bin holding the maximum volume, no
      bin above it, every earlier bin strictly below it. */
  lemma {:induction false} PocOfIsFirstMax(vols: seq<real>)
    ensures var top := PocOf(vols); var maxVol := top.0; var poc := top.1;
      && -1 <= poc < |vols|
      && maxVol >= 0.0
      && (forall j :: 0 <= j < |vols| ==> vols[j] <= maxVol)
      && (poc == -1 <==> maxVol == 0.0)
      && (poc >= 0 ==> vols[poc] == maxVol && forall j :: 0 <= j < poc ==> vols[j] < maxVol)
  {
    if |vols| > 0 {
      var pre := vols[..|vols| - 1];
      PocOfIsFirstMax(pre);
      assert forall j :: 0 <= j < |pre| ==> pre[j] == vols[j];
    }
  }

  /** The forEach over the bins: total volume, maximum volume and POC. */
  method FindPoc(vols: seq<real>) returns (maxVol: real, poc: int, total: real)
    ensures (maxVol, poc) == PocOf(vols)
    ensures total == Sum(vols)
  {
    maxVol, poc, total := 0.0, -1, 0.0;
    for i := 0 to |vols|
      invariant (maxVol, poc) == PocOf(vols[..i])
      invariant total == Sum(vols[..i])
    {
      assert vols[..i + 1][..i] == vols[..i];
      total := total + vols[i];
      if vols[i] > maxVol {
        maxVol := vols[i];
        poc := i;
      }
    }
    assert vols[..|vols|] == vols;
  }

  /** Value Area expansion from the window [left, right] holding `acc`:
      while acc is below target and a side is left, take the neighbour with
      the greater volume, the left one on a tie, and the only one when the
      other side is exhausted. Returns the final window. */
  function ExpandValueArea(vols: seq<real>, left: int, right: int, acc: real, target: real): (w: (int, int))
    requires 0 <= left <= right < |vols|
    ensures 0 <= w.0 <= left && right <= w.1 < |vols|
    decreases left + (|vols| - 1 - right)
  {
    if acc >= target || (left == 0 && right == |vols| - 1) then (left, right)
    else if left > 0 && (right == |vols| - 1 || vols[left - 1] >= vols[right + 1]) then
      ExpandValueArea(vols, left - 1, right, acc + vols[left - 1], target)
    else
      ExpandValueArea(vols, left, right + 1, acc + vols[right + 1], target)
  }

  /** The expansion stops only when the window's volume reaches the target
      or the window covers every bin. */
  lemma {:induction false} ValueAreaReachesTarget(vols: seq<real>, left: int, right: int, acc: real, target: real)
    requires 0 <= left <= right < |vols|
    requires acc == SumRange(vols, left, right + 1)
    ensures var area := ExpandValueArea(vols, left, right, acc, target);
      SumRange(vols, area.0, area.1 + 1) >= target || (area.0 == 0 && area.1 == |vols| - 1)
    decreases left + (|vols| - 1 - right)
  {
    if acc >= target || (left == 0 && right == |vols| - 1) {
    } else if left > 0 && (right == |vols| - 1 || vols[left - 1] >= vols[right + 1]) {
      var grown := acc + vols[left - 1];
      assert grown == SumRange(vols, left - 1, right + 1) by { SumRangeExtendLeft(vols, left, right + 1); }
      assert ExpandValueArea(vols, left, right, acc, target) == ExpandValueArea(vols, left - 1, right, grown, target);
      ValueAreaReachesTarget(vols, left - 1, right, grown, target);
    } else {
      var grown := acc + vols[right + 1];
      assert grown == SumRange(vols, left, right + 2) by { SumRangeExtendRight(vols, left, right + 1); }
      assert ExpandValueArea(vols, left, right, acc, target) == ExpandValueArea(vols, left, right + 1, grown, target);
      ValueAreaReachesTarget(vols, left, right + 1, grown, target);
    }
  }

  /** The Value Area grown from the POC: brackets the POC and either holds
      at least `target` or covers every bin. */
  lemma ValueAreaFromPoc(vols: seq<real>, poc: int, target: real)
    requires 0 <= poc < |vols|
    ensures var area := ExpandValueArea(vols, poc, poc, vols[poc], target); var l := area.0; var r := area.1;
      && 0 <= l <= poc <= r < |vols|
      && (SumRange(vols, l, r + 1) >= target || (l == 0 && r == |vols| - 1))
  {
    ValueAreaReachesTarget(vols, poc, poc, vols[poc], target);
  }
}
