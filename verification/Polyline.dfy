/** `decode_polyline6` of `resources/tools/demo/demo_gps.py`, and the encoder of
    Google's Encoded Polyline Algorithm Format at precision 6. */
module PolylineModel {
  import opened Wrappers

  /** Latitude and longitude in millionths of a degree. */
  type Point = (int, int)

  function Pow2(n: nat): (r: nat)
    ensures r > 0
  {
    if n == 0 then 1 else 2 * Pow2(n - 1)
  }

  /** `|` of two numbers that are not negative. */
  function Or(a: nat, b: nat): (r: nat)
    decreases a + b
  {
    if a == 0 || b == 0 then a + b
    else 2 * Or(a / 2, b / 2) + (if a % 2 == 1 || b % 2 == 1 then 1 else 0)
  }

  /** What a character carries: five bits, and whether more follow. */
  function Code(c: char): int { c as int - 63 }

  function Bits(c: char): nat { Code(c) % 32 }

  predicate Last(c: char) { Code(c) < 0x20 }

  /** The innermost loop from `i` on: the number and where it ends; none if the
      string ends first. */
  function Number(s: string, i: nat, result: nat, shift: nat): (r: Option<(nat, nat)>)
    ensures r.Some? ==> i < r.value.1 <= |s|
    decreases |s| - i
  {
    if i >= |s| then None
    else
      var grown := Or(result, Bits(s[i]) * Pow2(shift));
      if Last(s[i]) then Some((grown, i + 1)) else Number(s, i + 1, grown, shift + 5)
  }

  /** `~(result >> 1) if result & 1 else result >> 1`. */
  function Delta(result: nat): int {
    if result % 2 == 1 then -(result / 2) - 1 else result / 2
  }

  function DecodeFrom(s: string, i: nat, lat: int, lon: int): Option<seq<Point>>
    decreases |s| - i
  {
    if i >= |s| then Some([])
    else
      var first := Number(s, i, 0, 0);
      if first.None? then None
      else
        var second := Number(s, first.value.1, 0, 0);
        if second.None? then None
        else
          var point := (lat + Delta(first.value.0), lon + Delta(second.value.0));
          var rest := DecodeFrom(s, second.value.1, point.0, point.1);
          if rest.None? then None else Some([point] + rest.value)
  }

  function Decode(s: string): Option<seq<Point>> { DecodeFrom(s, 0, 0, 0) }

  // ----------------------------------------------------------------- encoding

  function Chunks(n: nat): (r: string)
    ensures r != ""
  {
    if n < 32 then [(n + 63) as char] else [(n % 32 + 32 + 63) as char] + Chunks(n / 32)
  }

  /** Left shifted by one, and inverted when negative. */
  function ZigZag(delta: int): nat {
    if delta < 0 then -2 * delta - 1 else 2 * delta
  }

  function EncodeFrom(points: seq<Point>, lat: int, lon: int): string {
    if points == [] then ""
    else Chunks(ZigZag(points[0].0 - lat)) + Chunks(ZigZag(points[0].1 - lon)) + EncodeFrom(points[1..], points[0].0, points[0].1)
  }

  function Encode(points: seq<Point>): string { EncodeFrom(points, 0, 0) }

  /** How many numbers end in `s` from `i` on. */
  function Ends(s: string, i: nat): nat
    decreases |s| - i
  {
    if i >= |s| then 0 else (if Last(s[i]) then 1 else 0) + Ends(s, i + 1)
  }
}

module PolylineProofs {
  import opened Wrappers
  import opened PolylineModel

  // --------------------------------------------------------------- arithmetic

  /** Bits shifted above all those of `a` are simply added. */
  lemma {:induction false} OrAdds(a: nat, bits: nat, shift: nat)
    requires a < Pow2(shift)
    ensures Or(a, bits * Pow2(shift)) == a + bits * Pow2(shift)
    decreases shift
  {
    if shift > 0 {
      var half := bits * Pow2(shift - 1);
      assert bits * Pow2(shift) == 2 * half;
      OrAdds(a / 2, bits, shift - 1);
    }
  }

  lemma {:induction false} FiveMore(shift: nat)
    ensures Pow2(shift + 5) == 32 * Pow2(shift)
  {
    assert Pow2(shift + 5) == 2 * Pow2(shift + 4) && Pow2(shift + 4) == 2 * Pow2(shift + 3);
    assert Pow2(shift + 3) == 2 * Pow2(shift + 2) && Pow2(shift + 2) == 2 * Pow2(shift + 1);
  }

  lemma ZigZagBack(delta: int)
    ensures Delta(ZigZag(delta)) == delta
  {
  }

  // --------------------------------------------------------------- round trip

  /** The chunks of `n` in any surroundings are read as `n`. */
  lemma {:induction false} NumberReadsChunks(before: string, n: nat, after: string, result: nat, shift: nat)
    requires result < Pow2(shift)
    ensures Number(before + Chunks(n) + after, |before|, result, shift) == Some((result + n * Pow2(shift), |before + Chunks(n)|))
    decreases n
  {
    hide Or, Pow2;
    var s, i := before + Chunks(n) + after, |before|;
    assert s[i] == Chunks(n)[0];
    OrAdds(result, Bits(s[i]), shift);
    if n >= 32 {
      var bits, first := n % 32, Chunks(n)[..1];
      FiveMore(shift);
      assert Bits(s[i]) == bits;
      Bounded(result, bits, Pow2(shift));
      assert Chunks(n) == first + Chunks(n / 32);
      assert s == before + first + Chunks(n / 32) + after;
      NumberReadsChunks(before + first, n / 32, after, result + bits * Pow2(shift), shift + 5);
      Regroup(n, Pow2(shift));
    }
  }

  lemma Bounded(result: nat, bits: nat, power: nat)
    requires result < power && bits < 32
    ensures result + bits * power < 32 * power
  {
    assert bits * power <= 31 * power;
  }

  lemma Regroup(n: nat, power: nat)
    ensures n % 32 * power + n / 32 * (32 * power) == n * power
  {
    assert n == n % 32 + n / 32 * 32;
    assert n * power == n % 32 * power + n / 32 * 32 * power;
  }

  lemma {:induction false} DecodesWhatFollows(before: string, points: seq<Point>, lat: int, lon: int)
    ensures DecodeFrom(before + EncodeFrom(points, lat, lon), |before|, lat, lon) == Some(points)
    decreases |points|
  {
    hide Number, Delta, ZigZag;
    if points != [] {
      var p := points[0];
      var a, b := Chunks(ZigZag(p.0 - lat)), Chunks(ZigZag(p.1 - lon));
      var rest := EncodeFrom(points[1..], p.0, p.1);
      var s := before + EncodeFrom(points, lat, lon);
      assert s == before + a + (b + rest) == before + a + b + rest;
      assert Pow2(0) == 1;
      NumberReadsChunks(before, ZigZag(p.0 - lat), b + rest, 0, 0);
      NumberReadsChunks(before + a, ZigZag(p.1 - lon), rest, 0, 0);
      ZigZagBack(p.0 - lat);
      ZigZagBack(p.1 - lon);
      DecodesWhatFollows(before + a + b, points[1..], p.0, p.1);
      assert [p] + points[1..] == points;
    }
  }

  /** Decoding inverts the format's encoding, for all points and to the end of
      the string. */
  lemma {:induction false} RoundTrip(points: seq<Point>)
    ensures Decode(Encode(points)) == Some(points)
  {
    DecodesWhatFollows("", points, 0, 0);
    assert "" + Encode(points) == Encode(points);
  }

  // -------------------------------------------------------------------- errors

  lemma {:induction false} NumberExactly(s: string, i: nat, result: nat, shift: nat)
    ensures Number(s, i, result, shift).Some? <==> Ends(s, i) > 0
    ensures var number := Number(s, i, result, shift);
      number.Some? ==> Ends(s, number.value.1) == Ends(s, i) - 1 && Last(s[number.value.1 - 1])
    decreases |s| - i
  {
    hide Or, Pow2, Last;
    if i < |s| && !Last(s[i]) {
      NumberExactly(s, i + 1, Or(result, Bits(s[i]) * Pow2(shift)), shift + 5);
    }
  }

  /** Decoding fails exactly when the string ends inside a number or after a
      latitude; else it gives a point for every two numbers. */
  lemma {:induction false} DecodesExactly(s: string, i: nat, lat: int, lon: int)
    requires i <= |s|
    ensures var points := DecodeFrom(s, i, lat, lon);
      && (points.Some? <==> Ends(s, i) % 2 == 0 && (i < |s| ==> Last(s[|s| - 1])))
      && (points.Some? ==> 2 * |points.value| == Ends(s, i))
    decreases |s| - i
  {
    hide Number, Delta, Last;
    if i < |s| {
      NumberExactly(s, i, 0, 0);
      LastCounts(s, i);
      var first := Number(s, i, 0, 0);
      if first.Some? {
        NumberExactly(s, first.value.1, 0, 0);
        var second := Number(s, first.value.1, 0, 0);
        if second.Some? {
          DecodesExactly(s, second.value.1, lat + Delta(first.value.0), lon + Delta(second.value.0));
        }
      }
    }
  }

  lemma {:induction false} LastCounts(s: string, i: nat)
    requires i < |s|
    ensures Last(s[|s| - 1]) ==> Ends(s, i) > 0
    decreases |s| - i
  {
    if i + 1 < |s| {
      LastCounts(s, i + 1);
    }
  }
}

module Polylines {
  import opened Wrappers
  import opened PolylineModel
  import Proofs = PolylineProofs

  /** In degrees. */
  function Degrees(points: seq<Point>): (r: seq<(real, real)>)
    ensures |r| == |points|
  {
    seq(|points|, k requires 0 <= k < |points| => (points[k].0 as real / 1000000.0, points[k].1 as real / 1000000.0))
  }

  function InDegrees(points: Option<seq<Point>>): Option<seq<(real, real)>> {
    if points.None? then None else Some(Degrees(points.value))
  }

  /** What a route's points, in millionths of a degree, are decoded to: those
      degrees, latitude first. */
  lemma {:induction false} RoundTripInDegrees(points: seq<Point>)
    ensures var decoded := InDegrees(Decode(Encode(points)));
      && decoded.Some? && |decoded.value| == |points|
      && forall k :: 0 <= k < |points| ==>
           decoded.value[k].0 * 1000000.0 == points[k].0 as real && decoded.value[k].1 * 1000000.0 == points[k].1 as real
  {
    hide Decode, Encode;
    Proofs.RoundTrip(points);
  }

  /** The innermost loop: a number from `begin` on, and where it ends. */
  method ReadNumber(shape: string, begin: nat) returns (read: Option<(nat, nat)>)
    ensures read == Number(shape, begin, 0, 0)
  {
    hide Or, Pow2;
    var i, result, shift := begin, 0, 0;
    while true
      invariant begin <= i && 0 <= result && 0 <= shift
      invariant Number(shape, begin, 0, 0) == Number(shape, i, result, shift)
      decreases |shape| - i
    {
      if i >= |shape| {
        return None;
      }
      var b := shape[i] as int - 63;
      i := i + 1;
      result := Or(result, b % 32 * Pow2(shift));
      shift := shift + 5;
      if b < 0x20 {
        return Some((result, i));
      }
    }
  }

  /** `decode_polyline6`; none where `shape[i]` raises IndexError. */
  method DecodePolyline6(shape: string) returns (points: Option<seq<(real, real)>>)
    ensures points == InDegrees(Decode(shape))
  {
    hide Number;
    var found: seq<(real, real)>, i, lat, lon := [], 0, 0, 0;
    ghost var exact: seq<Point> := [];
    AddsNothing(DecodeFrom(shape, 0, 0, 0));
    while i < |shape|
      invariant 0 <= i <= |shape| && found == Degrees(exact)
      invariant Decode(shape) == After(exact, DecodeFrom(shape, i, lat, lon))
    {
      ghost var from, lat0, lon0 := i, lat, lon;
      for which := 0 to 2
        invariant 0 <= i <= |shape|
        invariant which == 0 ==> i == from && lat == lat0 && lon == lon0
        invariant which > 0 ==> Number(shape, from, 0, 0).Some? && lat == lat0 + Delta(Number(shape, from, 0, 0).value.0)
        invariant which == 1 ==> i == Number(shape, from, 0, 0).value.1 && lon == lon0
        invariant which == 2 ==>
          var second := Number(shape, Number(shape, from, 0, 0).value.1, 0, 0);
          second.Some? && lon == lon0 + Delta(second.value.0) && i == second.value.1
      {
        var number := ReadNumber(shape, i);
        if number.None? {
          return None;
        }
        i := number.value.1;
        var result: int := number.value.0;
        var delta: int := if result % 2 == 1 then -(result / 2) - 1 else result / 2;
        if which == 0 {
          lat := lat + delta;
        } else {
          lon := lon + delta;
        }
      }
      Joins(exact, (lat, lon), DecodeFrom(shape, i, lat, lon));
      found := found + [(lat as real / 1000000.0, lon as real / 1000000.0)];
      exact := exact + [(lat, lon)];
    }
    assert exact + [] == exact;
    points := Some(found);
  }

  function After(points: seq<Point>, rest: Option<seq<Point>>): Option<seq<Point>> {
    if rest.None? then None else Some(points + rest.value)
  }

  lemma AddsNothing(points: Option<seq<Point>>)
    ensures After([], points) == points
  {
    if points.Some? {
      assert [] + points.value == points.value;
    }
  }

  lemma Joins(points: seq<Point>, point: Point, rest: Option<seq<Point>>)
    ensures After(points + [point], rest) == After(points, After([point], rest))
  {
    if rest.Some? {
      assert points + [point] + rest.value == points + ([point] + rest.value);
    }
  }
}
