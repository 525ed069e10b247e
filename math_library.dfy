/**
 * Static helpers of the locomotion math library (ALSMathLibrary.cpp): the gamepad
 * diagonal fix, the buffered angle-range test, the movement-direction quadrant with
 * hysteresis, and the capsule base/centre offsets.
 */
module AlsMathLibrary {
  import opened Common
  import opened AlsEnums

  /** Result of FixDiagonalGamepadValues: `first` is derived from X, `second` from Y. */
  datatype GamepadPair = GamepadPair(first: real, second: real)

  /** Scale factor 1..1.2 driven by the magnitude of the other axis. */
  function DiagonalScale(other: real): (k: real)
    ensures 1.0 <= k <= 1.2
  {
    MapRangeClamped(0.0, 0.6, 1.0, 1.2, Abs(other))
  }

  function FixDiagonalGamepadValues(x: real, y: real): (r: GamepadPair)
    ensures -1.0 <= r.first <= 1.0 && -1.0 <= r.second <= 1.0
    ensures x == 0.0 ==> r.first == 0.0
    ensures y == 0.0 ==> r.second == 0.0
  {
    GamepadPair(Clamp(x * DiagonalScale(y), -1.0, 1.0), Clamp(y * DiagonalScale(x), -1.0, 1.0))
  }

  /** A purely axial input inside the unit range is passed through unchanged. */
  lemma AxialInputUnchanged(x: real)
    requires -1.0 <= x <= 1.0
    ensures FixDiagonalGamepadValues(x, 0.0) == GamepadPair(x, 0.0)
    ensures FixDiagonalGamepadValues(0.0, x) == GamepadPair(0.0, x)
  {
    MapRangeClampedEnds(0.0, 0.6, 1.0, 1.2, 0.0);
    assert DiagonalScale(0.0) == 1.0;
  }

  /** A full sideways deflection boosts the forward component by 1.2 before clamping. */
  lemma FullDeflectionBoost(x: real, y: real)
    requires Abs(y) >= 0.6
    ensures FixDiagonalGamepadValues(x, y).first == Clamp(1.2 * x, -1.0, 1.0)
  {
    MapRangeClampedEnds(0.0, 0.6, 1.0, 1.2, Abs(y));
  }

  /** Capsule base: the component location moved down its up vector by half height plus offset. */
  function GetCapsuleBaseLocation(zOffset: real, componentLocation: Vec3, up: Vec3, halfHeight: real): (r: Vec3)
    ensures r.Add(up.Scale(halfHeight + zOffset)) == componentLocation
  {
    componentLocation.Sub(up.Scale(halfHeight + zOffset))
  }

  function GetCapsuleLocationFromBase(base: Vec3, zOffset: real, halfHeight: real): (r: Vec3)
    ensures r.x == base.x && r.y == base.y
    ensures r.z - base.z == halfHeight + zOffset
  {
    base.(z := base.z + halfHeight + zOffset)
  }

  /** With the capsule's up vector along +Z the two capsule helpers invert each other. */
  lemma CapsuleBaseRoundTrip(zOffset: real, location: Vec3, base: Vec3, halfHeight: real)
    ensures GetCapsuleLocationFromBase(GetCapsuleBaseLocation(zOffset, location, Vec3(0.0, 0.0, 1.0), halfHeight), zOffset, halfHeight) == location
    ensures GetCapsuleBaseLocation(zOffset, GetCapsuleLocationFromBase(base, zOffset, halfHeight), Vec3(0.0, 0.0, 1.0), halfHeight) == base
  {
  }

  /**
   * Buffered range test. With `increaseBuffer` the range is widened by the buffer on
   * both sides, otherwise narrowed by it.
   */
  predicate AngleInRange(angle: real, minAngle: real, maxAngle: real, buffer: real, increaseBuffer: bool): (r: bool)
    ensures r ==> minAngle - Abs(buffer) <= angle <= maxAngle + Abs(buffer)
    ensures buffer >= 0.0 && increaseBuffer && minAngle <= angle <= maxAngle ==> r
    ensures buffer >= 0.0 && !increaseBuffer && r ==> minAngle <= angle <= maxAngle
  {
    if increaseBuffer then minAngle - buffer <= angle <= maxAngle + buffer
    else minAngle + buffer <= angle <= maxAngle - buffer
  }

  /** With a non-negative buffer the narrowed test implies the widened one. */
  lemma AngleInRangeNarrowImpliesWide(angle: real, minAngle: real, maxAngle: real, buffer: real)
    requires buffer >= 0.0
    ensures AngleInRange(angle, minAngle, maxAngle, buffer, false) ==> AngleInRange(angle, minAngle, maxAngle, buffer, true)
  {
  }

  /**
   * The movement direction of an angle, tested against the forward, right and left ranges in
   * that order. Each range is widened by the buffer while the current direction lies on its
   * axis and narrowed otherwise.
   */
  function CalculateQuadrant(current: MovementDirection, fr: real, fl: real, br: real, bl: real, buffer: real, angle: real): (r: MovementDirection)
    ensures r == Forward ==> fl - Abs(buffer) <= angle <= fr + Abs(buffer)
    ensures r == Right ==> fr - Abs(buffer) <= angle <= br + Abs(buffer)
    ensures r == Left ==> bl - Abs(buffer) <= angle <= fl + Abs(buffer)
    ensures r == Backward ==> !(fl + Abs(buffer) <= angle <= fr - Abs(buffer))
  {
    if AngleInRange(angle, fl, fr, buffer, current == Forward || current == Backward) then Forward
    else if AngleInRange(angle, fr, br, buffer, current == Right || current == Left) then Right
    else if AngleInRange(angle, bl, fl, buffer, current == Right || current == Left) then Left
    else Backward
  }

  /** The quadrant tests run as a priority chain: Forward, then Right, then Left, else Backward. */
  lemma QuadrantPriority(current: MovementDirection, fr: real, fl: real, br: real, bl: real, buffer: real, angle: real)
    ensures var inF := AngleInRange(angle, fl, fr, buffer, current == Forward || current == Backward);
            var inR := AngleInRange(angle, fr, br, buffer, current == Right || current == Left);
            var inL := AngleInRange(angle, bl, fl, buffer, current == Right || current == Left);
            var q := CalculateQuadrant(current, fr, fl, br, bl, buffer, angle);
            (q == Forward <==> inF) && (q == Right <==> !inF && inR) &&
            (q == Left <==> !inF && !inR && inL) && (q == Backward <==> !inF && !inR && !inL)
  {
  }

  /** Hysteresis: while moving forward or backward, the widened forward range keeps the result Forward. */
  lemma ForwardHysteresis(current: MovementDirection, fr: real, fl: real, br: real, bl: real, buffer: real, angle: real)
    requires current == Forward || current == Backward
    requires fl - buffer <= angle <= fr + buffer
    ensures CalculateQuadrant(current, fr, fl, br, bl, buffer, angle) == Forward
  {
  }

  /**
   * While moving sideways the forward range is narrowed: an angle inside the widened
   * right range but outside the narrowed forward range stays Right.
   */
  lemma RightHysteresis(current: MovementDirection, fr: real, fl: real, br: real, bl: real, buffer: real, angle: real)
    requires current == Right || current == Left
    requires fr - buffer <= angle <= br + buffer
    requires !(fl + buffer <= angle <= fr - buffer)
    ensures CalculateQuadrant(current, fr, fl, br, bl, buffer, angle) == Right
  {
  }
  /**
   * Frame-rate aware interpolation speed: (speed + 1) times a factor that falls from 1.25
   * at 15 frames per second to 0.77 at 160 frames per second.
   */
  function GetInterpSpeed(speed: real, deltaTime: real): (r: real)
    requires deltaTime > 0.0
    ensures speed >= -1.0 ==> 0.77 * (speed + 1.0) <= r <= 1.25 * (speed + 1.0)
  {
    var factor := MapRangeClamped(15.0, 160.0, 1.25, 0.77, 1.0 / deltaTime);
    if speed >= -1.0 then
      ScaleMonotone(0.77, factor, speed + 1.0);
      ScaleMonotone(factor, 1.25, speed + 1.0);
      (speed + 1.0) * factor
    else
      (speed + 1.0) * factor
  }

  /** At 15 frames per second or slower the factor is 1.25, at 160 or faster it is 0.77. */
  lemma InterpSpeedEnds(speed: real, deltaTime: real)
    requires deltaTime > 0.0
    ensures 1.0 / deltaTime <= 15.0 ==> GetInterpSpeed(speed, deltaTime) == (speed + 1.0) * 1.25
    ensures 1.0 / deltaTime >= 160.0 ==> GetInterpSpeed(speed, deltaTime) == (speed + 1.0) * 0.77
  {
    MapRangeClampedEnds(15.0, 160.0, 1.25, 0.77, 1.0 / deltaTime);
  }
}
