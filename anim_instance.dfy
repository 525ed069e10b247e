/**
 * Decision logic of the character animation instance (ALSCharacterAnimInstance.cpp):
 * foot-lock alpha hysteresis, the foot-offset guard, the pelvis target, rotate-in-place
 * and turn-in-place timers, turn and corner asset choice, the velocity blend and the
 * grounded move/rotate predicates.
 *
 * Curve values are read from `curveValues`, an engine-owned view of the current pose.
 * Slot-animation playback is abstracted to the set `playing` of slot animations that
 * the engine reports as playing; starting one adds it. Vector and rotator interpolation
 * (VInterpTo, RInterpTo), the foot-lock offset geometry and the normal-to-rotation
 * conversion are function parameters.
 */
module AlsAnim {
  import opened Common
  import opened AlsEnums

  /** The anim curves the decision logic reads. */
  datatype CurveName =
    | EnableTransition | EnableFootIK_L | EnableFootIK_R | FootLock_L | FootLock_R | RotationAmount
    | LocationAmount_X | LocationAmount_Y | LocationAmount_Z
    | LocationDistance_X | LocationDistance_Y | LocationDistance_Z

  /** The eight turn-in-place animations. */
  datatype TurnAsset =
    | N_TurnIP_L90 | N_TurnIP_R90 | N_TurnIP_L180 | N_TurnIP_R180
    | CLF_TurnIP_L90 | CLF_TurnIP_R90 | CLF_TurnIP_L180 | CLF_TurnIP_R180
  {
    predicate Left() { N_TurnIP_L90? || N_TurnIP_L180? || CLF_TurnIP_L90? || CLF_TurnIP_L180? }
    predicate Big() { N_TurnIP_L180? || N_TurnIP_R180? || CLF_TurnIP_L180? || CLF_TurnIP_R180? }
    predicate Crouched() { CLF_TurnIP_L90? || CLF_TurnIP_R90? || CLF_TurnIP_L180? || CLF_TurnIP_R180? }
  }

  /** The four 90-degree corner rotation animations used while climbing. */
  datatype ClimbCornerAsset = H_Rotate_90_R | H_Rotate_90_L | FH_Rotate_90_R | FH_Rotate_90_L
  {
    predicate Right() { H_Rotate_90_R? || FH_Rotate_90_R? }
    predicate IsFreeHanging() { FH_Rotate_90_R? || FH_Rotate_90_L? }
  }

  datatype SlotAnimation = Turn(turn: TurnAsset) | Corner(corner: ClimbCornerAsset)

  /** Per-asset settings of a turn animation (FALSTurnInPlaceAsset). */
  datatype TurnAssetConfig = TurnAssetConfig(animatedAngle: real, playRate: real, scaleTurnAngle: bool)

  /** Per-asset settings of a corner animation; `timeLength` is 0 when no animation is set. */
  datatype ClimbAssetConfig = ClimbAssetConfig(playRate: real, timeLength: real)
  {
    function ScaledPlayRate(playRateScale: real): real { playRate * playRateScale }
  }

  /** What StartCornerClimb hands to the character's corner-parameter delegate. */
  datatype CornerClimbParam = CornerClimbParam(timeLength: real, startTime: real, playRate: real)

  /** Turn-in-place thresholds (FALSAnimTurnInPlace without the assets). */
  datatype TurnInPlaceConfig = TurnInPlaceConfig(
    turnCheckMinAngle: real, turn180Threshold: real, aimYawRateLimit: real,
    minAngleDelay: real, maxAngleDelay: real)

  const DefaultTurnInPlace := TurnInPlaceConfig(45.0, 130.0, 50.0, 0.0, 0.75)

  /** Rotate-in-place thresholds and play-rate mapping (FALSAnimRotateInPlace). */
  datatype RotateInPlaceConfig = RotateInPlaceConfig(
    rotateMinThreshold: real, rotateMaxThreshold: real,
    aimYawRateMinRange: real, aimYawRateMaxRange: real,
    minPlayRate: real, maxPlayRate: real)

  const DefaultRotateInPlace := RotateInPlaceConfig(-50.0, 50.0, 90.0, 270.0, 1.15, 3.0)

  /** Foot-lock state of one foot: alpha, curve-use flag and the locked transform. */
  datatype FootLock = FootLock(alpha: real, useCurve: bool, loc: Vec3, rot: Rotator)

  /** Foot-offset state of one foot. */
  datatype FootOffsets = FootOffsets(locationTarget: Vec3, locationOffset: Vec3, rotationOffset: Rotator)

  /** Forward/backward/left/right velocity blend weights. */
  datatype VelocityBlend = VelocityBlend(f: real, b: real, l: real, r: real)

  /** Vector interpolation toward a target: (current, target, delta seconds, speed). */
  type VInterp = (Vec3, Vec3, real, real) -> Vec3
  type RInterp = (Rotator, Rotator, real, real) -> Rotator

  /**
   * Turn asset choice: stance picks the normal or crouched set, |angle| against the
   * 180 threshold picks 90 or 180, the sign picks left or right.
   */
  function SelectTurnAsset(stance: Stance, turnAngle: real, turn180Threshold: real): (a: TurnAsset)
    ensures a.Crouched() <==> stance == Crouching
    ensures a.Big() <==> Abs(turnAngle) >= turn180Threshold
    ensures a.Left() <==> turnAngle < 0.0
  {
    if stance == Standing then
      if Abs(turnAngle) < turn180Threshold then
        (if turnAngle < 0.0 then N_TurnIP_L90 else N_TurnIP_R90)
      else
        (if turnAngle < 0.0 then N_TurnIP_L180 else N_TurnIP_R180)
    else
      assert stance == Crouching;
      if Abs(turnAngle) < turn180Threshold then
        (if turnAngle < 0.0 then CLF_TurnIP_L90 else CLF_TurnIP_R90)
      else
        (if turnAngle < 0.0 then CLF_TurnIP_L180 else CLF_TurnIP_R180)
  }

  /** The three choices identify a turn asset, so the selection is the only one meeting its contract. */
  lemma TurnAssetDetermined(a: TurnAsset, b: TurnAsset)
    requires a.Left() == b.Left() && a.Big() == b.Big() && a.Crouched() == b.Crouched()
    ensures a == b
  {
  }

  /** Corner asset choice: the climbing type picks hanging or free hanging, the side picks R or L. */
  function SelectCornerAsset(climbingType: ClimbingType, isRight: bool): (a: ClimbCornerAsset)
    ensures a.Right() <==> isRight
    ensures a.IsFreeHanging() <==> climbingType == FreeHanging
  {
    if climbingType == Hanging then (if isRight then H_Rotate_90_R else H_Rotate_90_L)
    else assert climbingType == FreeHanging; (if isRight then FH_Rotate_90_R else FH_Rotate_90_L)
  }

  /** Rotation scale of a started turn: scaled by the ratio of turn angle to animated angle when the asset asks for it. */
  function TurnRotationScale(cfg: TurnAssetConfig, turnAngle: real, playRateScale: real): (s: real)
    requires cfg.scaleTurnAngle ==> cfg.animatedAngle != 0.0
    ensures !cfg.scaleTurnAngle ==> s == cfg.playRate * playRateScale
    ensures cfg.scaleTurnAngle && turnAngle == cfg.animatedAngle ==> s == cfg.playRate * playRateScale
  {
    if cfg.scaleTurnAngle then turnAngle / cfg.animatedAngle * cfg.playRate * playRateScale
    else cfg.playRate * playRateScale
  }

  /** Delay before a turn in place, mapped from the signed aiming angle over [min angle, 180]. */
  function TurnDelay(cfg: TurnInPlaceConfig, aimingAngle: real): (d: real)
    ensures Min(cfg.minAngleDelay, cfg.maxAngleDelay) <= d <= Max(cfg.minAngleDelay, cfg.maxAngleDelay)
  {
    MapRangeClamped(cfg.turnCheckMinAngle, 180.0, cfg.minAngleDelay, cfg.maxAngleDelay, aimingAngle)
  }

  /**
   * The delay is mapped from the signed angle, so every angle at or left of the minimum
   * check angle (all left turns) gets the minimum delay, however wide the turn.
   */
  lemma TurnDelayLeftTurns(cfg: TurnInPlaceConfig, aimingAngle: real)
    requires cfg.turnCheckMinAngle < 180.0 && aimingAngle <= cfg.turnCheckMinAngle
    ensures TurnDelay(cfg, aimingAngle) == cfg.minAngleDelay
  {
    MapRangeClampedEnds(cfg.turnCheckMinAngle, 180.0, cfg.minAngleDelay, cfg.maxAngleDelay, aimingAngle);
  }

  /** A right turn of 180 degrees or more waits the maximum delay. */
  lemma TurnDelayFullRightTurn(cfg: TurnInPlaceConfig, aimingAngle: real)
    requires cfg.turnCheckMinAngle < 180.0 && aimingAngle >= 180.0
    ensures TurnDelay(cfg, aimingAngle) == cfg.maxAngleDelay
  {
    MapRangeClampedEnds(cfg.turnCheckMinAngle, 180.0, cfg.minAngleDelay, cfg.maxAngleDelay, aimingAngle);
  }

  /** Pelvis target: the foot offset with the lower Z, the right foot on a tie. */
  function PelvisTarget(footL: Vec3, footR: Vec3): (t: Vec3)
    ensures t == footL || t == footR
    ensures t.z == Min(footL.z, footR.z)
    ensures footL.z == footR.z ==> t == footR
  {
    if footL.z < footR.z then footL else footR
  }

  /** The sampled foot-lock value: the curve scaled by the update rate while the curve is in use, else 0. */
  function FootLockSample(useCurve: bool, curve: real, updateRate: int): real
    requires updateRate > 0
  {
    if useCurve then curve * (1.0 / updateRate as real) else 0.0
  }

  /**
   * Foot-lock alpha hysteresis: the new sample is taken only if it is a full lock
   * (>= 0.99) or lower than the current alpha.
   */
  function NextFootLockAlpha(sample: real, alpha: real): (a: real)
    ensures a == alpha || a == sample
    ensures a <= alpha || a >= 0.99
    ensures sample >= 0.99 ==> a == sample
  {
    if sample >= 0.99 || sample < alpha then sample else alpha
  }

  /** Alpha never climbs to a partial value: from any alpha, a run of samples below 0.99 never raises it. */
  lemma {:induction false} FootLockAlphaNeverRisesPartially(samples: seq<real>, alpha: real)
    requires forall i :: 0 <= i < |samples| ==> samples[i] < 0.99
    ensures FoldFootLock(samples, alpha) <= alpha
    decreases |samples|
  {
    if |samples| > 0 {
      FootLockAlphaNeverRisesPartially(samples[1..], NextFootLockAlpha(samples[0], alpha));
    }
  }

  /** Alpha after feeding a run of samples, first to last. */
  function FoldFootLock(samples: seq<real>, alpha: real): real
    decreases |samples|
  {
    if |samples| == 0 then alpha else FoldFootLock(samples[1..], NextFootLockAlpha(samples[0], alpha))
  }

  /**
   * Location target of a foot on a walkable hit: the offset that carries the foot from its
   * flat-floor position (the floor location raised by the foot height) to the impact point
   * lifted along the normal by the foot height.
   */
  function FootLocationTarget(impactPoint: Vec3, impactNormal: Vec3, footFloor: Vec3, footHeight: real): (t: Vec3)
    ensures footFloor.Add(Vec3(0.0, 0.0, footHeight)).Add(t) == impactPoint.Add(impactNormal.Scale(footHeight))
  {
    impactPoint.Add(impactNormal.Scale(footHeight)).Sub(footFloor.Add(Vec3(0.0, 0.0, footHeight)))
  }

  /** On a flat floor (normal straight up) the target is simply the impact point relative to the floor location. */
  lemma FlatFloorTarget(impactPoint: Vec3, footFloor: Vec3, footHeight: real)
    ensures FootLocationTarget(impactPoint, Vec3(0.0, 0.0, 1.0), footFloor, footHeight) == impactPoint.Sub(footFloor)
  {
  }

  /**
   * Velocity blend of an actor-relative velocity direction: the direction is divided by
   * the sum of its absolute components and split into forward/backward and right/left.
   */
  function CalculateVelocityBlend(dir: Vec3): (v: VelocityBlend)
    requires Abs(dir.x) + Abs(dir.y) + Abs(dir.z) > 0.0
    ensures 0.0 <= v.f <= 1.0 && 0.0 <= v.b <= 1.0 && 0.0 <= v.l <= 1.0 && 0.0 <= v.r <= 1.0
    ensures v.f * v.b == 0.0 && v.l * v.r == 0.0
    ensures v.f + v.b + v.l + v.r <= 1.0
    ensures v.f - v.b == dir.x / (Abs(dir.x) + Abs(dir.y) + Abs(dir.z))
    ensures v.r - v.l == dir.y / (Abs(dir.x) + Abs(dir.y) + Abs(dir.z))
  {
    var sum := Abs(dir.x) + Abs(dir.y) + Abs(dir.z);
    var rx := dir.x / sum;
    var ry := dir.y / sum;
    ShareBound(dir.x, dir.y, dir.z, sum);
    VelocityBlend(Clamp(rx, 0.0, 1.0), Abs(Clamp(rx, -1.0, 0.0)), Abs(Clamp(ry, -1.0, 0.0)), Clamp(ry, 0.0, 1.0))
  }

  /** Each normalised component is in [-1, 1] and the two planar magnitudes add up to at most 1. */
  lemma ShareBound(x: real, y: real, z: real, sum: real)
    requires sum == Abs(x) + Abs(y) + Abs(z) && sum > 0.0
    ensures -1.0 <= x / sum <= 1.0 && -1.0 <= y / sum <= 1.0
    ensures Abs(x / sum) + Abs(y / sum) <= 1.0
  {
    AbsDiv(x, sum);
    AbsDiv(y, sum);
    DivNonNegative(Abs(x), sum);
    DivNonNegative(Abs(y), sum);
    DivAdd(Abs(x), Abs(y), sum);
    DivMonotone(Abs(x) + Abs(y), sum, sum);
    DivSelf(sum);
  }

  lemma DivSelf(s: real)
    requires s > 0.0
    ensures s / s == 1.0
  {
  }

  lemma DivNonNegative(a: real, s: real)
    requires a >= 0.0 && s > 0.0
    ensures a / s >= 0.0
  {
  }

  lemma DivAdd(a: real, b: real, s: real)
    requires s > 0.0
    ensures a / s + b / s == (a + b) / s
  {
    assert (a / s) * s == a;
    assert (b / s) * s == b;
    assert ((a + b) / s) * s == a + b;
    assert (a / s + b / s) * s == a + b;
  }

  lemma AbsDiv(x: real, s: real)
    requires s > 0.0
    ensures Abs(x / s) == Abs(x) / s
  {
    if x < 0.0 {
      assert x / s == -(Abs(x) / s);
    }
  }

  /** A diagonal forward-right velocity is split evenly: half forward, half right. */
  lemma DiagonalVelocityBlend(d: real)
    requires d > 0.0
    ensures CalculateVelocityBlend(Vec3(d, d, 0.0)) == VelocityBlend(0.5, 0.0, 0.0, 0.5)
  {
    assert d / (d + d + 0.0) == 0.5;
  }

  class AnimInstance {
    // Mirror of the owning character's state, written by the character's change hooks.
    var movementState: MovementState
    var prevMovementState: MovementState
    var movementAction: MovementAction
    var rotationMode: RotationMode
    var gait: Gait
    var stance: Stance
    var viewMode: ViewMode
    var overlayState: OverlayState
    var lastOverlayState: OverlayState
    var desiredLaddering: bool
    var rotateInClimbAngle: real
    var climbingType: ClimbingType
    /** Direction of a climb jump, each in [-1, 1], written when the jump starts. */
    var jumpInClimbLR: real
    var jumpInClimbUD: real

    // Character information sampled from the owner each frame.
    var isMoving: bool
    var hasMovementInput: bool
    var speed: real
    var aimYawRate: real
    var aimingYaw: real
    var actorYaw: real
    var aimingAngleX: real

    /** Curve values of the current pose. */
    var curveValues: CurveName -> real
    /** Slot animations currently playing. */
    var playing: set<SlotAnimation>

    // Grounded values.
    var shouldMove: bool
    var rotateL: bool
    var rotateR: bool
    var rotateRate: real
    var rotationScale: real

    // Turn and rotate in place.
    var turnInPlace: TurnInPlaceConfig
    var elapsedDelayTime: real
    var rotateInPlace: RotateInPlaceConfig
    var turnAssets: TurnAsset -> TurnAssetConfig
    var cornerAssets: ClimbCornerAsset -> ClimbAssetConfig

    // Foot IK.
    var footHeight: real
    var pelvisAlpha: real
    var pelvisOffset: Vec3

    // In air.
    var jumped: bool
    var jumpPlayRate: real

    /** Every turn asset that scales by the turn angle has a non-zero animated angle. */
    predicate TurnAssetsValid()
      reads this
    {
      forall a: TurnAsset :: turnAssets(a).scaleTurnAngle ==> turnAssets(a).animatedAngle != 0.0
    }

    /** Header defaults of the animation instance. */
    constructor (turnAssets: TurnAsset -> TurnAssetConfig, cornerAssets: ClimbCornerAsset -> ClimbAssetConfig,
                 curveValues: CurveName -> real)
      ensures movementState == MovementState.None && prevMovementState == MovementState.None
      ensures movementAction == MovementAction.None
      ensures rotationMode == LookingDirection && gait == Walking && stance == Standing
      ensures viewMode == ThirdPerson && overlayState == Default && lastOverlayState == Default
      ensures !desiredLaddering && rotateInClimbAngle == 0.0 && climbingType == Hanging
      ensures !shouldMove && !rotateL && !rotateR && rotateRate == 1.0 && rotationScale == 0.0
      ensures turnInPlace == DefaultTurnInPlace && rotateInPlace == DefaultRotateInPlace && elapsedDelayTime == 0.0
      ensures this.turnAssets == turnAssets && this.cornerAssets == cornerAssets && this.curveValues == curveValues
      ensures playing == {} && footHeight == 13.5 && pelvisAlpha == 0.0 && pelvisOffset == Zero
      ensures !jumped && jumpPlayRate == 1.2
    {
      movementState := MovementState.None;
      prevMovementState := MovementState.None;
      movementAction := MovementAction.None;
      rotationMode := LookingDirection;
      gait := Walking;
      stance := Standing;
      viewMode := ThirdPerson;
      overlayState := Default;
      lastOverlayState := Default;
      desiredLaddering := false;
      rotateInClimbAngle := 0.0;
      climbingType := Hanging;
      jumpInClimbLR := 0.0;
      jumpInClimbUD := 0.0;
      isMoving := false;
      hasMovementInput := false;
      speed := 0.0;
      aimYawRate := 0.0;
      aimingYaw := 0.0;
      actorYaw := 0.0;
      aimingAngleX := 0.0;
      this.curveValues := curveValues;
      playing := {};
      shouldMove := false;
      rotateL := false;
      rotateR := false;
      rotateRate := 1.0;
      rotationScale := 0.0;
      turnInPlace := DefaultTurnInPlace;
      elapsedDelayTime := 0.0;
      rotateInPlace := DefaultRotateInPlace;
      this.turnAssets := turnAssets;
      this.cornerAssets := cornerAssets;
      footHeight := 13.5;
      pelvisAlpha := 0.0;
      pelvisOffset := Zero;
      jumped := false;
      jumpPlayRate := 1.2;
    }

    /** Moving animations run when the owner moves with input, or faster than 150. */
    predicate ShouldMoveCheck()
      reads this
    {
      (isMoving && hasMovementInput) || speed > 150.0
    }

    /** Rotating in place is allowed while aiming or in first person. */
    predicate CanRotateInPlace()
      reads this
    {
      rotationMode == Aiming || viewMode == FirstPerson
    }

    /** Turning in place needs looking-direction, third person and a fully weighted transition curve. */
    predicate CanTurnInPlace()
      reads this
    {
      rotationMode == LookingDirection && viewMode == ThirdPerson && curveValues(EnableTransition) >= 0.99
    }

    predicate CanDynamicTransition()
      reads this
    {
      curveValues(EnableTransition) >= 0.99
    }

    /**
     * Rotate in place: each side's flag is set exactly when the aiming angle is past that
     * side's threshold; while rotating, the rate follows the aim yaw rate within the play-rate range.
     */
    method RotateInPlaceCheck()
      modifies this`rotateL, this`rotateR, this`rotateRate
      ensures rotateL <==> aimingAngleX < rotateInPlace.rotateMinThreshold
      ensures rotateR <==> aimingAngleX > rotateInPlace.rotateMaxThreshold
      ensures (rotateL || rotateR) ==>
        rotateRate == MapRangeClamped(rotateInPlace.aimYawRateMinRange, rotateInPlace.aimYawRateMaxRange,
                                      rotateInPlace.minPlayRate, rotateInPlace.maxPlayRate, aimYawRate) &&
        Min(rotateInPlace.minPlayRate, rotateInPlace.maxPlayRate) <= rotateRate <= Max(rotateInPlace.minPlayRate, rotateInPlace.maxPlayRate)
      ensures !(rotateL || rotateR) ==> rotateRate == old(rotateRate)
    {
      rotateL := aimingAngleX < rotateInPlace.rotateMinThreshold;
      rotateR := aimingAngleX > rotateInPlace.rotateMaxThreshold;
      if rotateL || rotateR {
        rotateRate := MapRangeClamped(rotateInPlace.aimYawRateMinRange, rotateInPlace.aimYawRateMaxRange,
                                      rotateInPlace.minPlayRate, rotateInPlace.maxPlayRate, aimYawRate);
      }
    }

    /** The effect of a turn in place toward `targetYaw` on the slot animations and the rotation scale. */
    ghost predicate TurnedInPlace(playing0: set<SlotAnimation>, scale0: real, targetYaw: real, playRateScale: real, overrideCurrent: bool)
      requires TurnAssetsValid()
      reads this
    {
      var angle := NormalizeAxis(targetYaw - actorYaw);
      var asset := SelectTurnAsset(stance, angle, turnInPlace.turn180Threshold);
      if !overrideCurrent && Turn(asset) in playing0 then
        playing == playing0 && rotationScale == scale0
      else
        playing == playing0 + {Turn(asset)} &&
        rotationScale == TurnRotationScale(turnAssets(asset), angle, playRateScale)
    }

    /**
     * Turns toward a target yaw: picks the asset for the normalised yaw delta; unless
     * overriding, an asset already playing is left alone; otherwise it is started and the
     * rotation scale is set from it.
     */
    method TurnInPlace(targetYaw: real, playRateScale: real, startTime: real, overrideCurrent: bool)
      requires TurnAssetsValid()
      modifies this`playing, this`rotationScale
      ensures TurnedInPlace(old(playing), old(rotationScale), targetYaw, playRateScale, overrideCurrent)
    {
      var turnAngle := NormalizeAxis(targetYaw - actorYaw);
      var asset := SelectTurnAsset(stance, turnAngle, turnInPlace.turn180Threshold);
      if !overrideCurrent && Turn(asset) in playing {
        return;
      }
      playing := playing + {Turn(asset)};
      rotationScale := TurnRotationScale(turnAssets(asset), turnAngle, playRateScale);
    }

    /**
     * Turn-in-place timer: reset while the aiming angle is within the minimum angle or the
     * camera turns too fast; otherwise it accumulates, and once past the mapped delay a turn
     * toward the aiming yaw is started.
     */
    method TurnInPlaceCheck(deltaSeconds: real)
      requires TurnAssetsValid()
      modifies this`elapsedDelayTime, this`playing, this`rotationScale
      ensures Abs(aimingAngleX) <= turnInPlace.turnCheckMinAngle || aimYawRate >= turnInPlace.aimYawRateLimit ==>
        elapsedDelayTime == 0.0 && playing == old(playing) && rotationScale == old(rotationScale)
      ensures !(Abs(aimingAngleX) <= turnInPlace.turnCheckMinAngle || aimYawRate >= turnInPlace.aimYawRateLimit) ==>
        elapsedDelayTime == old(elapsedDelayTime) + deltaSeconds &&
        (if elapsedDelayTime > TurnDelay(turnInPlace, aimingAngleX)
         then TurnedInPlace(old(playing), old(rotationScale), aimingYaw, 1.0, false)
         else playing == old(playing) && rotationScale == old(rotationScale))
    {
      if Abs(aimingAngleX) <= turnInPlace.turnCheckMinAngle || aimYawRate >= turnInPlace.aimYawRateLimit {
        elapsedDelayTime := 0.0;
        return;
      }
      elapsedDelayTime := elapsedDelayTime + deltaSeconds;
      var delay := TurnDelay(turnInPlace, aimingAngleX);
      if elapsedDelayTime > delay {
        TurnInPlace(aimingYaw, 1.0, 0.0, false);
      }
    }

    /**
     * The grounded part of the per-frame update. A rising edge of the move check clears
     * the timer and both rotate flags; while standing still, rotate in place runs only when
     * allowed (flags cleared otherwise) and the turn timer runs only when turning is allowed
     * (reset otherwise). The moving-state updates and dynamic transitions are not modelled.
     */
    method UpdateGrounded(deltaSeconds: real)
      requires TurnAssetsValid()
      modifies this`shouldMove, this`elapsedDelayTime, this`rotateL, this`rotateR, this`rotateRate,
               this`playing, this`rotationScale
      ensures shouldMove == ShouldMoveCheck()
      ensures shouldMove && !old(shouldMove) ==> elapsedDelayTime == 0.0 && !rotateL && !rotateR
      ensures shouldMove ==> playing == old(playing) && rotationScale == old(rotationScale)
      ensures !shouldMove && !CanRotateInPlace() ==> !rotateL && !rotateR
      ensures !shouldMove && CanRotateInPlace() ==>
        (rotateL <==> aimingAngleX < rotateInPlace.rotateMinThreshold) &&
        (rotateR <==> aimingAngleX > rotateInPlace.rotateMaxThreshold)
      ensures !shouldMove && !CanTurnInPlace() ==>
        elapsedDelayTime == 0.0 && playing == old(playing) && rotationScale == old(rotationScale)
      ensures (rotateL || rotateR) && !shouldMove ==> !CanTurnInPlace()
    {
      var prevShouldMove := shouldMove;
      shouldMove := ShouldMoveCheck();
      if !prevShouldMove && shouldMove {
        elapsedDelayTime := 0.0;
        rotateL := false;
        rotateR := false;
      }
      if !shouldMove {
        if CanRotateInPlace() {
          RotateInPlaceCheck();
        } else {
          rotateL := false;
          rotateR := false;
        }
        if CanTurnInPlace() {
          TurnInPlaceCheck(deltaSeconds);
        } else {
          elapsedDelayTime := 0.0;
        }
      }
    }

    /**
     * Starts a corner rotation while climbing: picks the asset for the climbing type and
     * side; unless overriding, an asset already playing is left alone. Otherwise the asset is
     * started and its time length, start time and scaled play rate are returned for the
     * character's corner-parameter delegate.
     */
    method StartCornerClimb(isRight: bool, rotateAngle: real, playRateScale: real, startTime: real, overrideCurrent: bool)
      returns (param: Option<CornerClimbParam>)
      modifies this`playing
      ensures !overrideCurrent && Corner(SelectCornerAsset(climbingType, isRight)) in old(playing) ==>
        param == Option.None && playing == old(playing)
      ensures !(!overrideCurrent && Corner(SelectCornerAsset(climbingType, isRight)) in old(playing)) ==>
        var cfg := cornerAssets(SelectCornerAsset(climbingType, isRight));
        playing == old(playing) + {Corner(SelectCornerAsset(climbingType, isRight))} &&
        param == Option.Some(CornerClimbParam(cfg.timeLength, startTime, cfg.ScaledPlayRate(playRateScale)))
    {
      var asset := SelectCornerAsset(climbingType, isRight);
      if !overrideCurrent && Corner(asset) in playing {
        return Option.None;
      }
      playing := playing + {Corner(asset)};
      var cfg := cornerAssets(asset);
      param := Some(CornerClimbParam(cfg.timeLength, startTime, cfg.ScaledPlayRate(playRateScale)));
    }

    /**
     * Foot locking for one foot (a const member: the new state is returned). With the
     * enable curve at or below 0 nothing changes. Otherwise the curve-use flag is
     * re-evaluated, the alpha follows the hysteresis rule, a full lock recaptures the foot
     * transform and any remaining lock applies the lock offsets.
     */
    method SetFootLocking(enableFootIKCurve: CurveName, footLockCurve: CurveName, isAutonomousProxy: bool, updateRate: int,
                          socketLoc: Vec3, socketRot: Rotator, lockOffsets: (Vec3, Rotator) -> (Vec3, Rotator), cur: FootLock)
      returns (r: FootLock)
      requires updateRate > 0
      ensures curveValues(enableFootIKCurve) <= 0.0 ==> r == cur
      ensures curveValues(enableFootIKCurve) > 0.0 ==>
        var sample := FootLockSample(cur.useCurve, curveValues(footLockCurve), updateRate);
        (r.useCurve <==> if cur.useCurve then Abs(curveValues(RotationAmount)) <= 0.001 || !isAutonomousProxy
                         else curveValues(footLockCurve) >= 0.99) &&
        (r.alpha == cur.alpha || r.alpha == sample) &&
        (r.alpha <= cur.alpha || r.alpha >= 0.99) &&
        (sample >= 0.99 || sample < cur.alpha ==> r.alpha == sample) &&
        (r.alpha >= 0.99 ==> (r.loc, r.rot) == lockOffsets(socketLoc, socketRot)) &&
        (0.0 < r.alpha < 0.99 ==> (r.loc, r.rot) == lockOffsets(cur.loc, cur.rot)) &&
        (r.alpha <= 0.0 ==> r.loc == cur.loc && r.rot == cur.rot)
    {
      r := cur;
      if curveValues(enableFootIKCurve) <= 0.0 {
        return;
      }
      var sample;
      if cur.useCurve {
        r := r.(useCurve := Abs(curveValues(RotationAmount)) <= 0.001 || !isAutonomousProxy);
        sample := curveValues(footLockCurve) * (1.0 / updateRate as real);
      } else {
        r := r.(useCurve := curveValues(footLockCurve) >= 0.99);
        sample := 0.0;
      }
      if sample >= 0.99 || sample < r.alpha {
        r := r.(alpha := sample);
      }
      if r.alpha >= 0.99 {
        r := r.(loc := socketLoc, rot := socketRot);
      }
      if r.alpha > 0.0 {
        var (loc, rot) := lockOffsets(r.loc, r.rot);
        r := r.(loc := loc, rot := rot);
      }
    }

    /**
     * Foot offsets for one foot (a const member: the new state is returned). With the
     * enable curve at or below 0 both offsets are zeroed. Otherwise a walkable hit
     * refreshes the location target, the location offset moves toward it faster when it
     * must come down (30) than up (15), and the rotation offset moves toward the surface
     * rotation (zero without a walkable hit).
     */
    method SetFootOffsets(enableFootIKCurve: CurveName, walkable: bool, impactPoint: Vec3, impactNormal: Vec3,
                          footFloor: Vec3, deltaSeconds: real, vInterp: VInterp, rInterp: RInterp,
                          surfaceRotation: Vec3 -> Rotator, cur: FootOffsets)
      returns (r: FootOffsets)
      ensures curveValues(enableFootIKCurve) <= 0.0 ==>
        r == FootOffsets(cur.locationTarget, Zero, ZeroRotator)
      ensures curveValues(enableFootIKCurve) > 0.0 ==>
        r.locationTarget == (if walkable then FootLocationTarget(impactPoint, impactNormal, footFloor, footHeight) else cur.locationTarget) &&
        r.locationOffset == vInterp(cur.locationOffset, r.locationTarget, deltaSeconds,
                                    if cur.locationOffset.z > r.locationTarget.z then 30.0 else 15.0) &&
        r.rotationOffset == rInterp(cur.rotationOffset, if walkable then surfaceRotation(impactNormal) else ZeroRotator,
                                    deltaSeconds, 30.0)
    {
      if curveValues(enableFootIKCurve) <= 0.0 {
        return FootOffsets(cur.locationTarget, Zero, ZeroRotator);
      }
      var target := cur.locationTarget;
      var targetRot := ZeroRotator;
      if walkable {
        target := FootLocationTarget(impactPoint, impactNormal, footFloor, footHeight);
        targetRot := surfaceRotation(impactNormal);
      }
      var speed := if cur.locationOffset.z > target.z then 30.0 else 15.0;
      r := FootOffsets(target, vInterp(cur.locationOffset, target, deltaSeconds, speed),
                       rInterp(cur.rotationOffset, targetRot, deltaSeconds, 30.0));
    }

    /**
     * Pelvis offset: alpha is the mean of the two foot-IK enable curves; with a positive
     * alpha the offset moves toward the lower foot target (slower going up: 10, than
     * down: 15), otherwise it is cleared.
     */
    method SetPelvisIKOffset(deltaSeconds: real, footOffsetLTarget: Vec3, footOffsetRTarget: Vec3, vInterp: VInterp)
      modifies this`pelvisAlpha, this`pelvisOffset
      ensures pelvisAlpha == (curveValues(EnableFootIK_L) + curveValues(EnableFootIK_R)) / 2.0
      ensures pelvisAlpha > 0.0 ==>
        var target := PelvisTarget(footOffsetLTarget, footOffsetRTarget);
        pelvisOffset == vInterp(old(pelvisOffset), target, deltaSeconds, if target.z > old(pelvisOffset).z then 10.0 else 15.0)
      ensures pelvisAlpha <= 0.0 ==> pelvisOffset == Zero
    {
      pelvisAlpha := (curveValues(EnableFootIK_L) + curveValues(EnableFootIK_R)) / 2.0;
      if pelvisAlpha > 0.0 {
        var target := PelvisTarget(footOffsetLTarget, footOffsetRTarget);
        var interpSpeed := if target.z > pelvisOffset.z then 10.0 else 15.0;
        pelvisOffset := vInterp(pelvisOffset, target, deltaSeconds, interpSpeed);
      } else {
        pelvisOffset := Zero;
      }
    }

    /** Jump start: the jumped flag is raised and the jump play rate follows speed within [1.2, 1.5]. */
    method OnJumped()
      modifies this`jumped, this`jumpPlayRate
      ensures jumped
      ensures jumpPlayRate == MapRangeClamped(0.0, 600.0, 1.2, 1.5, speed) && 1.2 <= jumpPlayRate <= 1.5
    {
      jumped := true;
      jumpPlayRate := MapRangeClamped(0.0, 600.0, 1.2, 1.5, speed);
    }
  }

  /** Rotating in place and turning in place are never allowed together. */
  lemma RotateAndTurnExclusive(a: AnimInstance)
    ensures !(a.CanRotateInPlace() && a.CanTurnInPlace())
  {
  }
}
