/** Where a custom floating image is placed (`spawnCustomImage`,
    script.js): a random horizontal offset that keeps the image inside the
    window, pushed one minimum distance past the previous image when it
    lands too close, wrapping with JavaScript's `%`. */
module Placement {
  import opened Random

  /** A JavaScript number as far as this rule needs: finite, or NaN. */
  datatype Num = Finite(v: real) | NaN

  const ImageWidth: real := 125.0

  /** The image width plus 20 px of padding. */
  const MinDistance: real := 145.0

  /** `lastCustomImageLeft` before the first image. */
  const Unset: real := -999.0

  /** How many image files the spawner chooses from. */
  const ImageSources: nat := 7

  datatype CustomImage = CustomImage(source: int, left: Num, width: real)

  function Abs(x: real): real
  {
    if x < 0.0 then -x else x
  }

  /** Truncation toward zero. */
  function Trunc(q: real): int
  {
    if q >= 0.0 then q.Floor else -((-q).Floor)
  }

  /** The remainder of `x / y` with the quotient truncated toward zero. */
  function TruncRem(x: real, y: real): real
    requires y != 0.0
  {
    x - y * Trunc(x / y) as real
  }

  /** JavaScript's `%` on finite operands: the remainder of the quotient
      truncated toward zero, so it takes the dividend's sign; NaN for a zero
      divisor. */
  function JsRem(x: real, y: real): (r: Num)
    ensures r.NaN? <==> y == 0.0
    ensures y > 0.0 && x >= 0.0 ==> 0.0 <= r.v < y
    ensures y > 0.0 && 0.0 <= x < y ==> r.v == x
    ensures y > 0.0 && y <= x < y + y ==> r.v == x - y
  {
    if y == 0.0 then NaN
    else
      if y > 0.0 && x >= 0.0 then
        RemainderBounds(x, y);
        Finite(TruncRem(x, y))
      else
        Finite(TruncRem(x, y))
  }

  lemma RemainderBounds(x: real, y: real)
    requires y > 0.0 && x >= 0.0
    ensures 0.0 <= TruncRem(x, y) < y
    ensures x < y ==> TruncRem(x, y) == x
    ensures y <= x < y + y ==> TruncRem(x, y) == x - y
  {
    var f := (x / y).Floor;
    assert Trunc(x / y) == f;
    RemainderInRange(x, y, f);
    if x < y {
      if f >= 1 {
        MulNonneg(f as real - 1.0, y);
      }
      assert f == 0;
    }
    if y <= x < y + y {
      if f <= 0 {
        MulNonneg(-(f as real), y);
      }
      if f >= 2 {
        MulNonneg(f as real - 2.0, y);
      }
      assert f == 1;
    }
  }

  /** Subtracting the floor of the quotient leaves a remainder in `[0, y)`. */
  lemma RemainderInRange(x: real, y: real, f: int)
    requires y > 0.0 && f == (x / y).Floor
    ensures 0.0 <= x - y * (f as real) < y
  {
    var fr := f as real;
    var d := x / y - fr;
    assert 0.0 <= d < 1.0;
    assert x - y * fr == d * y by {
      assert x == (x / y) * y;
      Distrib(x / y, fr, y);
    }
    MulNonneg(d, y);
    assert 0.0 <= x - y * fr;
    MulPos(1.0 - d, y);
    Distrib(1.0, d, y);
    assert d * y < y;
    assert x - y * fr < y;
  }

  lemma Distrib(a: real, b: real, y: real)
    ensures (a - b) * y == a * y - b * y
  {
  }

  lemma MulNonneg(a: real, b: real)
    requires a >= 0.0 && b >= 0.0
    ensures a * b >= 0.0
  {
  }

  lemma MulPos(a: real, b: real)
    requires a > 0.0 && b > 0.0
    ensures a * b > 0.0
  {
  }

  /** The draw before any push: `Math.random() * (innerWidth - 125)`. */
  function Drawn(r: real, innerWidth: int): (d: real)
    requires IsUnit(r)
    ensures innerWidth as real > ImageWidth ==> 0.0 <= d < innerWidth as real - ImageWidth
    ensures innerWidth as real == ImageWidth ==> d == 0.0
  {
    var span := innerWidth as real - ImageWidth;
    if span > 0.0 then
      UnitTimesBelow(r, span);
      r * span
    else
      r * span
  }

  /** The placement rule. With room to spare (`innerWidth > 125`) and a
      previous offset that is unset, NaN or not far left of the window, the
      new offset lies in `[0, innerWidth - 125)`. When the push does not
      wrap, the new image is at least the minimum distance from the previous
      one. A window exactly 125 px wide turns a pushed offset into NaN. */
  function PlaceImage(last: Num, innerWidth: int, r: real): (left: Num)
    requires IsUnit(r)
    ensures var span := innerWidth as real - ImageWidth;
      span > 0.0 && (last.NaN? || last.v <= Unset || last.v >= -MinDistance) ==>
        left.Finite? && 0.0 <= left.v < span
    ensures var span := innerWidth as real - ImageWidth;
      span > 0.0 && last.Finite? && 0.0 <= last.v && last.v + MinDistance < span ==>
        left.Finite? && Abs(left.v - last.v) >= MinDistance
    ensures last.NaN? || last.v <= Unset ==> left == Finite(Drawn(r, innerWidth))
    ensures innerWidth as real == ImageWidth && last.Finite? && -MinDistance < last.v < MinDistance ==> left.NaN?
  {
    var span := innerWidth as real - ImageWidth;
    var drawn := Drawn(r, innerWidth);
    if last.Finite? && last.v > Unset && Abs(drawn - last.v) < MinDistance then
      JsRem(last.v + MinDistance, span)
    else
      Finite(drawn)
  }

  /** When the push wraps, the minimum distance is lost: in a 300 px window
      an image drawn at 100 px next to one at 100 px goes to 70 px. */
  lemma WrapCanOverlap()
    ensures PlaceImage(Finite(100.0), 300, 100.0 / 175.0) == Finite(70.0)
    ensures Abs(70.0 - 100.0) < MinDistance
  {
    assert JsRem(245.0, 175.0) == Finite(70.0);
  }

  /** One spawned image: the source file, the offset and the width, from
      three draws in the order the spawner takes them. */
  function Spawn(last: Num, innerWidth: int, rs: seq<real>): (img: CustomImage)
    requires |rs| == 3 && IsRandomStream(rs)
    ensures 0 <= img.source < ImageSources
    ensures 100.0 <= img.width < 150.0
    ensures img.left == PlaceImage(last, innerWidth, rs[1])
  {
    CustomImage(Pick(rs[0], ImageSources), PlaceImage(last, innerWidth, rs[1]), 100.0 + rs[2] * 50.0)
  }
}
