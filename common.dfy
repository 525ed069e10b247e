/**
 * Value types and the engine's scalar helpers that the locomotion code relies on.
 *
 * Engine floats are modelled as mathematical reals: rounding is not part of this model.
 * `MapRangeClamped` follows the engine's GetMappedRangeValueClamped: the value is turned
 * into a fraction of the input range, the fraction is clamped to [0, 1], and the output
 * range is interpolated linearly with it. For a zero-width input range the fraction is a
 * step (1 at or above the bound, 0 below).
 */
module Common {

  datatype Option<T> = None | Some(value: T)

  /** A 3-component vector of reals (engine FVector). */
  datatype Vec3 = Vec3(x: real, y: real, z: real)
  {
    function Add(o: Vec3): Vec3 { Vec3(x + o.x, y + o.y, z + o.z) }
    function Sub(o: Vec3): Vec3 { Vec3(x - o.x, y - o.y, z - o.z) }
    function Scale(k: real): Vec3 { Vec3(k * x, k * y, k * z) }
  }

  const Zero: Vec3 := Vec3(0.0, 0.0, 0.0)

  /** An engine rotator, in degrees. */
  datatype Rotator = Rotator(pitch: real, yaw: real, roll: real)

  const ZeroRotator: Rotator := Rotator(0.0, 0.0, 0.0)

  /** A transform with unit scale: a rotation and a location. */
  datatype Transform = Transform(rotation: Rotator, location: Vec3)

  const Identity: Transform := Transform(ZeroRotator, Zero)

  function Abs(x: real): (r: real)
    ensures r >= 0.0 && (r == x || r == -x)
  {
    if x < 0.0 then -x else x
  }

  function Min(a: real, b: real): real { if a <= b then a else b }
  function Max(a: real, b: real): real { if a <= b then b else a }

  /** Engine Clamp: the low bound is tested first. */
  function Clamp(x: real, lo: real, hi: real): (r: real)
    requires lo <= hi
    ensures lo <= r <= hi
    ensures lo <= x <= hi ==> r == x
    ensures x < lo ==> r == lo
    ensures x > hi ==> r == hi
  {
    if x < lo then lo else if x < hi then x else hi
  }

  /** Linear interpolation A + alpha * (B - A). */
  function Lerp(a: real, b: real, alpha: real): real { a + alpha * (b - a) }

  function LerpVec(a: Vec3, b: Vec3, alpha: real): Vec3
  {
    Vec3(Lerp(a.x, b.x, alpha), Lerp(a.y, b.y, alpha), Lerp(a.z, b.z, alpha))
  }

  /** Fraction of the way `v` lies along [inLo, inHi]; a step for a zero-width range. */
  function RangePct(inLo: real, inHi: real, v: real): real
  {
    if inLo == inHi then (if v >= inHi then 1.0 else 0.0)
    else (v - inLo) / (inHi - inLo)
  }

  function MapRangeClamped(inLo: real, inHi: real, outLo: real, outHi: real, v: real): (r: real)
    ensures Min(outLo, outHi) <= r <= Max(outLo, outHi)
  {
    var alpha := Clamp(RangePct(inLo, inHi, v), 0.0, 1.0);
    LerpBetween(outLo, outHi, alpha);
    Lerp(outLo, outHi, alpha)
  }

  lemma LerpBetween(a: real, b: real, alpha: real)
    requires 0.0 <= alpha <= 1.0
    ensures Min(a, b) <= Lerp(a, b, alpha) <= Max(a, b)
  {
    if a <= b {
      ScaleWithin(alpha, b - a);
    } else {
      ScaleWithin(alpha, a - b);
      assert alpha * (b - a) == -(alpha * (a - b));
    }
  }

  lemma ScaleWithin(alpha: real, d: real)
    requires 0.0 <= alpha <= 1.0 && d >= 0.0
    ensures 0.0 <= alpha * d <= d
  {
    assert (1.0 - alpha) * d >= 0.0;
  }

  lemma DivMonotone(x: real, y: real, d: real)
    requires d > 0.0 && x <= y
    ensures x / d <= y / d
  {
    assert (y - x) / d >= 0.0;
    assert y / d - x / d == (y - x) / d;
  }

  lemma ScaleMonotone(a: real, b: real, k: real)
    requires a <= b && k >= 0.0
    ensures a * k <= b * k
  {
    assert (b - a) * k >= 0.0;
  }

  /** At and beyond the ends of a proper input range the mapped value is the matching output end. */
  lemma MapRangeClampedEnds(inLo: real, inHi: real, outLo: real, outHi: real, v: real)
    requires inLo < inHi
    ensures v <= inLo ==> MapRangeClamped(inLo, inHi, outLo, outHi, v) == outLo
    ensures v >= inHi ==> MapRangeClamped(inLo, inHi, outLo, outHi, v) == outHi
  {
    var d := inHi - inLo;
    if v <= inLo {
      assert (v - inLo) / d <= 0.0;
    }
    if v >= inHi {
      assert (v - inLo) / d >= d / d;
    }
  }

  /** With a proper input range and a rising output range the mapping is non-decreasing. */
  lemma MapRangeClampedMonotone(inLo: real, inHi: real, outLo: real, outHi: real, v: real, w: real)
    requires inLo < inHi && outLo <= outHi && v <= w
    ensures MapRangeClamped(inLo, inHi, outLo, outHi, v) <= MapRangeClamped(inLo, inHi, outLo, outHi, w)
  {
    DivMonotone(v - inLo, w - inLo, inHi - inLo);
    var a := Clamp(RangePct(inLo, inHi, v), 0.0, 1.0);
    var b := Clamp(RangePct(inLo, inHi, w), 0.0, 1.0);
    ScaleMonotone(a, b, outHi - outLo);
  }

  /**
   * Engine FRotator::NormalizeAxis: the angle brought into (-180, 180] by whole turns.
   * The source reduces modulo 360 and then shifts the upper half down.
   */
  function NormalizeAxis(a: real): (r: real)
    ensures -180.0 < r <= 180.0
  {
    var m := a - 360.0 * (a / 360.0).Floor as real;
    if m > 180.0 then m - 360.0 else m
  }

  /** An angle that is already normalised is left as it is. */
  lemma NormalizeAxisIdentity(a: real)
    requires -180.0 < a <= 180.0
    ensures NormalizeAxis(a) == a
  {
    if a >= 0.0 {
      assert (a / 360.0).Floor == 0;
    } else {
      assert (a / 360.0).Floor == -1;
    }
  }

  /** Adding a whole turn does not change the normalised angle. */
  lemma NormalizeAxisPeriodic(a: real)
    ensures NormalizeAxis(a + 360.0) == NormalizeAxis(a)
  {
    assert (a + 360.0) / 360.0 == a / 360.0 + 1.0;
    assert ((a + 360.0) / 360.0).Floor == (a / 360.0).Floor + 1;
  }
}
