/** `drive` of `resources/tools/demo/demo_gps.py`: a car going along a route
    of stretches, seen once in every period. The lengths of the stretches are
    given; in the program they come from the haversine formula. */
module Drives {

  /** Where the car is seen: on which stretch, how far along it from 0 to 1,
      and at what speed. */
  datatype Fix = Fix(stretch: nat, fraction: real, speed: real)

  predicate Track(lengths: seq<real>, speeds: seq<real>) {
    && |lengths| == |speeds|
    && (forall i :: 0 <= i < |lengths| ==> lengths[i] >= 0.0)
    && (forall i :: 0 <= i < |speeds| ==> speeds[i] > 0.0)
  }

  /** The length of the first `i` stretches. */
  function Route(lengths: seq<real>, i: nat): real
    requires i <= |lengths|
  {
    if i == 0 then 0.0 else Route(lengths, i - 1) + lengths[i - 1]
  }

  predicate OnTrack(lengths: seq<real>, speeds: seq<real>, fix: Fix)
    requires |lengths| == |speeds|
  {
    fix.stretch < |lengths| && 0.0 <= fix.fraction <= 1.0 && fix.speed == speeds[fix.stretch]
  }

  /** The odometer at a fix. */
  function Odometer(lengths: seq<real>, fix: Fix): real
    requires fix.stretch < |lengths|
  {
    Route(lengths, fix.stretch) + fix.fraction * lengths[fix.stretch]
  }

  /** How far the car gets in a step. */
  function Ahead(fix: Fix, step: real): real { fix.speed * step }

  /** Where the odometer stands when the next fix is due. */
  function Due(lengths: seq<real>, step: real, fixes: seq<Fix>): real {
    if fixes == [] || fixes[|fixes| - 1].stretch >= |lengths| then 0.0
    else Odometer(lengths, fixes[|fixes| - 1]) + Ahead(fixes[|fixes| - 1], step)
  }

  /** From one fix to the next the odometer goes on by what the speed of the
      first gives in a step, across as many stretches as that takes. */
  ghost predicate Advances(lengths: seq<real>, speeds: seq<real>, step: real, fixes: seq<Fix>)
    requires |lengths| == |speeds|
  {
    && (forall k :: 0 <= k < |fixes| ==> OnTrack(lengths, speeds, fixes[k]))
    && (fixes != [] ==> Odometer(lengths, fixes[0]) == 0.0)
    && (forall k :: 0 < k < |fixes| ==> Odometer(lengths, fixes[k]) == Odometer(lengths, fixes[k - 1]) + Ahead(fixes[k - 1], step))
  }

  /** The inner loop: `advance` metres on from `into` metres into stretch
      `start`, or to the destination. */
  method GoOn(lengths: seq<real>, start: nat, begin: real, advance: real) returns (i: nat, into: real)
    requires forall k :: 0 <= k < |lengths| ==> lengths[k] >= 0.0
    requires start < |lengths| && advance > 0.0
    requires begin == 0.0 || 0.0 < begin < lengths[start]
    ensures start <= i <= |lengths|
    ensures i < |lengths| ==> (into == 0.0 || 0.0 < into < lengths[i]) && Route(lengths, i) + into == Route(lengths, start) + begin + advance
    ensures i == |lengths| ==> Route(lengths, i) <= Route(lengths, start) + begin + advance
    ensures i == start ==> into == begin + advance
  {
    i, into := start, begin;
    var left := advance;
    while i < |lengths| && left > 0.0
      invariant start <= i <= |lengths| && left >= 0.0
      invariant i < |lengths| ==> into == 0.0 || 0.0 < into < lengths[i]
      invariant i == |lengths| ==> into == 0.0
      invariant Route(lengths, i) + into + left == Route(lengths, start) + begin + advance
      invariant i == start ==> into + left == begin + advance
      decreases |lengths| - i, left > 0.0
    {
      var length := lengths[i];
      if into + left < length {
        into := into + left;
        left := 0.0;
      } else {
        left := left - (length - into);
        into := 0.0;
        i := i + 1;
      }
    }
  }

  /** Steps still to go on a stretch. */
  ghost function StepsLeft(lengths: seq<real>, speeds: seq<real>, step: real, i: nat, into: real): real
    requires |lengths| == |speeds| && step > 0.0
    requires forall k :: 0 <= k < |speeds| ==> speeds[k] > 0.0
  {
    if i < |lengths| then (lengths[i] - into) / (speeds[i] * step) else 0.0
  }

  /** All fixes of a drive: it starts at the beginning of the route, keeps to
      it, and ends with the last fix before the destination. */
  method Drive(lengths: seq<real>, speeds: seq<real>, step: real) returns (fixes: seq<Fix>)
    requires Track(lengths, speeds) && step > 0.0
    ensures Advances(lengths, speeds, step, fixes)
    ensures (fixes == []) == (lengths == [])
    ensures Due(lengths, step, fixes) >= Route(lengths, |lengths|)
  {
    hide Route, Odometer, Advances, Due, StepsLeft;
    fixes := [];
    var i: nat, into := 0, 0.0;
    NoFixes(lengths, speeds, step);
    while i < |lengths|
      invariant i <= |lengths|
      invariant i < |lengths| ==> into == 0.0 || 0.0 < into < lengths[i]
      invariant Advances(lengths, speeds, step, fixes)
      invariant (fixes == []) ==> i == 0
      invariant i > 0 ==> fixes != []
      invariant lengths == [] ==> fixes == []
      invariant i < |lengths| ==> Route(lengths, i) + into == Due(lengths, step, fixes)
      invariant i == |lengths| ==> Route(lengths, i) <= Due(lengths, step, fixes)
      decreases |lengths| - i, StepsLeft(lengths, speeds, step, i, into)
    {
      var fraction := if lengths[i] != 0.0 then into / lengths[i] else 1.0;
      FractionIsWhere(into, lengths[i], fraction);
      var fix := Fix(i, fraction, speeds[i]);
      OdometerAt(lengths, fix, into);
      NextFix(lengths, speeds, step, fixes, fix);
      fixes := fixes + [fix];
      Positive(speeds[i], step);
      ghost var before, there := i, into;
      i, into := GoOn(lengths, i, into, speeds[i] * step);
      if i == before {
        OneStepLess(lengths, speeds, step, i, there, into);
      }
    }
  }

  lemma OdometerAt(lengths: seq<real>, fix: Fix, into: real)
    requires fix.stretch < |lengths| && fix.fraction * lengths[fix.stretch] == into
    ensures Odometer(lengths, fix) == Route(lengths, fix.stretch) + into
  {
  }

  lemma NoFixes(lengths: seq<real>, speeds: seq<real>, step: real)
    requires |lengths| == |speeds|
    ensures Advances(lengths, speeds, step, []) && Due(lengths, step, []) == Route(lengths, 0) == 0.0
  {
  }

  lemma Positive(x: real, y: real)
    requires x > 0.0 && y > 0.0
    ensures x * y > 0.0
  {
  }

  lemma FractionIsWhere(into: real, length: real, fraction: real)
    requires length >= 0.0 && (into == 0.0 || 0.0 < into < length)
    requires fraction == if length != 0.0 then into / length else 1.0
    ensures 0.0 <= fraction <= 1.0 && fraction * length == into
  {
  }

  lemma OneStepLess(lengths: seq<real>, speeds: seq<real>, step: real, i: nat, before: real, into: real)
    requires |lengths| == |speeds| && i < |lengths| && step > 0.0
    requires forall k :: 0 <= k < |speeds| ==> speeds[k] > 0.0
    requires into == before + speeds[i] * step && before <= lengths[i]
    ensures StepsLeft(lengths, speeds, step, i, into) == StepsLeft(lengths, speeds, step, i, before) - 1.0
    ensures StepsLeft(lengths, speeds, step, i, before) >= 0.0
  {
    var advance := speeds[i] * step;
    Positive(speeds[i], step);
    var steps := (lengths[i] - before) / advance;
    DivideBack(steps - 1.0, advance, lengths[i] - into);
  }

  lemma DivideBack(x: real, y: real, product: real)
    requires y > 0.0 && product == x * y
    ensures product / y == x
  {
    var q := product / y;
    assert q * y == x * y;
    if q < x {
      Positive(x - q, y);
    } else if q > x {
      Positive(q - x, y);
    }
  }

  lemma NextFix(lengths: seq<real>, speeds: seq<real>, step: real, fixes: seq<Fix>, fix: Fix)
    requires |lengths| == |speeds| && Advances(lengths, speeds, step, fixes) && OnTrack(lengths, speeds, fix)
    requires Odometer(lengths, fix) == Due(lengths, step, fixes)
    ensures Advances(lengths, speeds, step, fixes + [fix])
    ensures Due(lengths, step, fixes + [fix]) == Odometer(lengths, fix) + Ahead(fix, step)
  {
    assert fix.stretch < |lengths| && forall k :: 0 <= k < |fixes| ==> fixes[k].stretch < |lengths|;
    hide Odometer, Ahead, OnTrack;
    var all := fixes + [fix];
    assert forall k :: 0 <= k < |fixes| ==> all[k] == fixes[k];
    assert all[|fixes|] == fix;
  }

  /** At one speed all along, the k-th fix is k steps down the road. */
  lemma {:induction false} EvenSpeed(lengths: seq<real>, speeds: seq<real>, step: real, fixes: seq<Fix>, speed: real, k: nat)
    requires Track(lengths, speeds) && Advances(lengths, speeds, step, fixes) && k < |fixes|
    requires forall i :: 0 <= i < |speeds| ==> speeds[i] == speed
    ensures Odometer(lengths, fixes[k]) == k as real * (speed * step)
    ensures k as real * (speed * step) <= Route(lengths, |lengths|)
    decreases k
  {
    hide Odometer, Route;
    assert OnTrack(lengths, speeds, fixes[k]);
    OnRoute(lengths, fixes[k]);
    if k > 0 {
      EvenSpeed(lengths, speeds, step, fixes, speed, k - 1);
      assert OnTrack(lengths, speeds, fixes[k - 1]);
      assert Ahead(fixes[k - 1], step) == speed * step;
      OneMore(k, speed * step);
    }
  }

  lemma OneMore(k: nat, x: real)
    requires k > 0
    ensures k as real * x == (k - 1) as real * x + x
  {
  }

  lemma OnRoute(lengths: seq<real>, fix: Fix)
    requires fix.stretch < |lengths| && 0.0 <= fix.fraction <= 1.0 && forall k :: 0 <= k < |lengths| ==> lengths[k] >= 0.0
    ensures Odometer(lengths, fix) <= Route(lengths, |lengths|)
  {
    RouteGrows(lengths, fix.stretch + 1, |lengths|);
    Part(fix.fraction, lengths[fix.stretch]);
  }

  lemma Part(fraction: real, whole: real)
    requires 0.0 <= fraction <= 1.0 && whole >= 0.0
    ensures fraction * whole <= whole
  {
  }

  lemma {:induction false} RouteGrows(lengths: seq<real>, i: nat, j: nat)
    requires i <= j <= |lengths| && forall k :: 0 <= k < |lengths| ==> lengths[k] >= 0.0
    ensures Route(lengths, i) <= Route(lengths, j)
    decreases j - i
  {
    if i < j {
      RouteGrows(lengths, i, j - 1);
    }
  }
}
