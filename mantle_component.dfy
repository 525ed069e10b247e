/**
 * Mantling and ledge climbing (ALSMantleComponent.cpp): the mantle check's rejection
 * chain and type choice, the mantle start parameters, the corrected position blend that
 * carries the character from its start offset onto the ledge, the candidate scan that
 * grabs a ledge, the climbing input step with corner turns, and the climb-jump flags.
 *
 * Every world trace is replaced by what it reports (a probe parameter). Targets that the
 * source stores relative to the hit component are kept in world space: the component is
 * taken to stay where it was for the duration of one climb or mantle. Rotation blending,
 * vector rotation, vector length and vector interpolation are engine functions passed in.
 */
module AlsMantle {
  import opened Common
  import opened AlsEnums
  import opened AlsMathLibrary
  import opened AlsMovement
  import opened AlsAnim
  import opened AlsCharacter

  /** A target and the component it was found on (none when the trace hit no component). */
  datatype ComponentAndTransform = ComponentAndTransform(component: Option<nat>, transform: Transform)

  function RotatorAdd(a: Rotator, b: Rotator): Rotator
  {
    Rotator(a.pitch + b.pitch, a.yaw + b.yaw, a.roll + b.roll)
  }

  function RotatorSub(a: Rotator, b: Rotator): Rotator
  {
    Rotator(a.pitch - b.pitch, a.yaw - b.yaw, a.roll - b.roll)
  }

  /** The library's transform sum and difference work component by component. */
  function TransformAdd(a: Transform, b: Transform): Transform
  {
    Transform(RotatorAdd(a.rotation, b.rotation), a.location.Add(b.location))
  }

  function TransformSub(a: Transform, b: Transform): Transform
  {
    Transform(RotatorSub(a.rotation, b.rotation), a.location.Sub(b.location))
  }

  /** An offset taken from a base and added back to it gives the original transform. */
  lemma TransformSubAdd(a: Transform, b: Transform)
    ensures TransformAdd(b, TransformSub(a, b)) == a
  {
  }

  /** The engine's rotation blend used by transform interpolation. */
  type RotationBlend = (Rotator, Rotator, real) -> Rotator

  /** Transform interpolation: the location is interpolated linearly. */
  function TLerp(a: Transform, b: Transform, alpha: real, blend: RotationBlend): Transform
  {
    Transform(blend(a.rotation, b.rotation, alpha), LerpVec(a.location, b.location, alpha))
  }

  // ---------------------------------------------------------------------------------
  // The corrected position blend of the mantle and corner timelines.

  /**
   * Which axis is corrected on its own: the mantle blends X and Y together and Z apart,
   * the corner turn blends X and Z together and Y apart.
   */
  datatype AxisSplit = ZApart | YApart

  /** `grouped` on the two grouped axes and `apart` on the separate one. */
  function Pick(grouped: Vec3, apart: Vec3, split: AxisSplit): Vec3
  {
    match split
    case ZApart => Vec3(grouped.x, grouped.y, apart.z)
    case YApart => Vec3(grouped.x, apart.y, grouped.z)
  }

  /**
   * The timeline update. `alphas` is the correction curve's sample: x the position alpha,
   * y the alpha of the grouped axes and z the alpha of the separate axis. The actual start
   * offset is blended toward the animated one per axis group, the result is added to the
   * target and moved toward the target by the position alpha, and the whole is faded in
   * from the actual start by `blendIn`.
   */
  function CorrectedBlend(target: Transform, actual: Transform, animated: Transform, alphas: Vec3,
                          blendIn: real, split: AxisSplit, blend: RotationBlend): Transform
  {
    var hzTarget := Transform(animated.rotation, Pick(animated.location, actual.location, split));
    var hz := TLerp(actual, hzTarget, alphas.y, blend);
    var vtTarget := Transform(actual.rotation, Pick(actual.location, animated.location, split));
    var vt := TLerp(actual, vtTarget, alphas.z, blend);
    var result := Transform(hz.rotation, Pick(hz.location, vt.location, split));
    var resultLerp := TLerp(TransformAdd(target, result), target, alphas.x, blend);
    TLerp(TransformAdd(target, actual), resultLerp, blendIn, blend)
  }

  /** With no blend-in the character stays where it was: at the target plus its actual offset. */
  lemma BlendStartsAtActualOffset(target: Transform, actual: Transform, animated: Transform, alphas: Vec3,
                                  split: AxisSplit, blend: RotationBlend)
    ensures CorrectedBlend(target, actual, animated, alphas, 0.0, split, blend).location ==
            target.location.Add(actual.location)
  {
  }

  /** Fully blended in with a full position alpha the character is exactly on the target. */
  lemma BlendEndsAtTarget(target: Transform, actual: Transform, animated: Transform, alphas: Vec3,
                          split: AxisSplit, blend: RotationBlend)
    requires alphas.x == 1.0
    ensures CorrectedBlend(target, actual, animated, alphas, 1.0, split, blend).location == target.location
  {
  }

  /** Fully blended in, with no position progress and full corrections, it is at the animation's start. */
  lemma BlendAtAnimatedStart(target: Transform, actual: Transform, animated: Transform,
                             split: AxisSplit, blend: RotationBlend)
    ensures CorrectedBlend(target, actual, animated, Vec3(0.0, 1.0, 1.0), 1.0, split, blend).location ==
            target.location.Add(animated.location)
  {
  }

  /** The grouped-axis alpha never moves the separate axis and the separate alpha never moves the grouped ones. */
  lemma BlendAxesIndependent(target: Transform, actual: Transform, animated: Transform, p: real,
                             a: real, a2: real, b: real, b2: real, blendIn: real, split: AxisSplit, blend: RotationBlend)
    ensures var l1 := CorrectedBlend(target, actual, animated, Vec3(p, a, b), blendIn, split, blend).location;
            var l2 := CorrectedBlend(target, actual, animated, Vec3(p, a2, b), blendIn, split, blend).location;
            Pick(Zero, l1, split) == Pick(Zero, l2, split)
    ensures var l1 := CorrectedBlend(target, actual, animated, Vec3(p, a, b), blendIn, split, blend).location;
            var l2 := CorrectedBlend(target, actual, animated, Vec3(p, a, b2), blendIn, split, blend).location;
            Pick(l1, Zero, split) == Pick(l2, Zero, split)
  {
  }

  // ---------------------------------------------------------------------------------
  // Mantle check and start.

  /** One mantle animation setup (FALSMantleAsset); `curve` names its position-correction curve. */
  datatype MantleAsset = MantleAsset(
    montage: Option<nat>, curve: nat, startingOffset: Vec3,
    lowHeight: real, lowPlayRate: real, lowStartPosition: real,
    highHeight: real, highPlayRate: real, highStartPosition: real)

  /** The parameters a mantle runs with (FALSMantleParams). */
  datatype MantleParams = MantleParams(
    montage: Option<nat>, curve: nat, startingOffset: Vec3, startingPosition: real, playRate: real)

  /** A timeline: its length, play rate, playback position and whether it runs. */
  datatype Timeline = Timeline(length: real, playRate: real, position: real, playing: bool)

  const Stopped: Timeline := Timeline(0.0, 1.0, 0.0, false)

  /** What the three mantle traces report. */
  datatype MantleProbe = MantleProbe(
    /** The forward sweep found a valid blocking hit ... */
    forwardBlockingHit: bool,
    /** ... on a surface the character could simply walk onto ... */
    forwardWalkable: bool,
    /** ... and the speed of the component it hit, if it hit one. */
    forwardComponentSpeed: Option<real>,
    /** The downward sweep's hit is walkable; where it landed (hit x, y and impact z); what it hit. */
    downwardWalkable: bool,
    downwardLocation: Vec3,
    downwardComponent: Option<nat>,
    /** The capsule fits at the landing place. */
    capsuleHasRoom: bool,
    /** Orientation facing into the wall, and its unit forward vector. */
    ledgeRotation: Rotator,
    ledgeForward: Vec3)

  /** What a successful check hands to the mantle start. */
  datatype MantleStartArgs = MantleStartArgs(height: real, ledge: ComponentAndTransform, mantleType: MantleType)

  /** A falling catch while in the air, otherwise a high mantle above 125 and a low one up to it. */
  function MantleTypeFor(state: MovementState, height: real): (t: MantleType)
    ensures t == FallingCatch <==> state == InAir
    ensures t == MantleType.HighMantle <==> state != InAir && height > 125.0
    ensures t == MantleType.LowMantle <==> state != InAir && height <= 125.0
  {
    if state == InAir then FallingCatch
    else if height > 125.0 then MantleType.HighMantle else MantleType.LowMantle
  }

  /**
   * The mantle check on what the traces report: rejected when the forward hit is missing or
   * walkable, when the hit component moves faster than `maxSpeed`, when the ledge top is not
   * walkable, or when the capsule has no room there; otherwise the ledge is the capsule
   * position above the landing place, and the height is measured from the actor.
   */
  function MantleCheckResult(p: MantleProbe, state: MovementState, actorLocation: Vec3,
                             halfHeight: real, maxSpeed: real): Option<MantleStartArgs>
  {
    if !p.forwardBlockingHit || p.forwardWalkable then Option.None
    else if p.forwardComponentSpeed.Some? && p.forwardComponentSpeed.value > maxSpeed then Option.None
    else if !p.downwardWalkable then Option.None
    else if !p.capsuleHasRoom then Option.None
    else
      var location := GetCapsuleLocationFromBase(p.downwardLocation, 2.0, halfHeight);
      var height := location.z - actorLocation.z;
      Some(MantleStartArgs(height, ComponentAndTransform(p.downwardComponent, Transform(p.ledgeRotation, location)),
                           MantleTypeFor(state, height)))
  }

  /** The check succeeds exactly when none of the four rejections applies, and then classifies the height. */
  lemma MantleCheckRejections(p: MantleProbe, state: MovementState, actorLocation: Vec3, halfHeight: real, maxSpeed: real)
    ensures var r := MantleCheckResult(p, state, actorLocation, halfHeight, maxSpeed);
            r.Some? <==>
              p.forwardBlockingHit && !p.forwardWalkable &&
              !(p.forwardComponentSpeed.Some? && p.forwardComponentSpeed.value > maxSpeed) &&
              p.downwardWalkable && p.capsuleHasRoom
    ensures var r := MantleCheckResult(p, state, actorLocation, halfHeight, maxSpeed);
            r.Some? ==>
              r.value.height == p.downwardLocation.z + halfHeight + 2.0 - actorLocation.z &&
              r.value.ledge.component == p.downwardComponent &&
              r.value.mantleType == MantleTypeFor(state, r.value.height)
  {
  }

  /** Start position and play rate follow the height along the asset's low/high ranges. */
  function MantleParamsFor(a: MantleAsset, height: real): (p: MantleParams)
    ensures p.montage == a.montage && p.curve == a.curve && p.startingOffset == a.startingOffset
    ensures Min(a.lowStartPosition, a.highStartPosition) <= p.startingPosition <= Max(a.lowStartPosition, a.highStartPosition)
    ensures Min(a.lowPlayRate, a.highPlayRate) <= p.playRate <= Max(a.lowPlayRate, a.highPlayRate)
  {
    MantleParams(a.montage, a.curve, a.startingOffset,
                 MapRangeClamped(a.lowHeight, a.highHeight, a.lowStartPosition, a.highStartPosition, height),
                 MapRangeClamped(a.lowHeight, a.highHeight, a.lowPlayRate, a.highPlayRate, height))
  }

  /** At or below the low height the low values apply, at or above the high height the high ones. */
  lemma MantleParamsAtEnds(a: MantleAsset, height: real)
    requires a.lowHeight < a.highHeight
    ensures height <= a.lowHeight ==>
      MantleParamsFor(a, height).startingPosition == a.lowStartPosition && MantleParamsFor(a, height).playRate == a.lowPlayRate
    ensures height >= a.highHeight ==>
      MantleParamsFor(a, height).startingPosition == a.highStartPosition && MantleParamsFor(a, height).playRate == a.highPlayRate
  {
    MapRangeClampedEnds(a.lowHeight, a.highHeight, a.lowStartPosition, a.highStartPosition, height);
    MapRangeClampedEnds(a.lowHeight, a.highHeight, a.lowPlayRate, a.highPlayRate, height);
  }

  /**
   * The animated start offset relative to the target: behind the target along its forward
   * vector by the asset's Y offset, and below it by the Z offset.
   */
  function AnimatedStartOffset(target: Transform, forward: Vec3, offset: Vec3): Transform
  {
    var back := Vec3(forward.x * offset.y, forward.y * offset.y, offset.z);
    TransformSub(Transform(target.rotation, target.location.Sub(back)), target)
  }

  lemma AnimatedStartOffsetValue(target: Transform, forward: Vec3, offset: Vec3)
    ensures AnimatedStartOffset(target, forward, offset) ==
            Transform(ZeroRotator, Vec3(-(forward.x * offset.y), -(forward.y * offset.y), -offset.z))
  {
  }

  /** The montage request of a mantle, if its asset has a montage. */
  function MontageRequests(p: MantleParams): seq<EngineRequest>
  {
    if p.montage.Some? then [PlayMontage(p.montage.value, p.playRate, p.startingPosition)] else []
  }

  // ---------------------------------------------------------------------------------
  // Ledge grab.

  /** The ledge trace settings that the candidate scan uses. */
  datatype MantleTraceSettings = MantleTraceSettings(
    maxLedgeHeight: real, minLedgeHeight: real, reachDistance: real,
    forwardTraceRadius: real, downwardTraceRadius: real)

  /** A wall hit: the component, impact point and normal, and the yaw of the normal's orientation. */
  datatype WallHit = WallHit(component: Option<nat>, impactPoint: Vec3, impactNormal: Vec3, normalYaw: real)

  /** What the two sweeps at one candidate height report: the forward hit, and whether the space above it is blocked. */
  datatype LedgeSweep = LedgeSweep(forward: Option<WallHit>, topBlocked: bool)

  /** Float-to-int conversion: truncation toward zero. */
  function TruncToInt(x: real): (n: int)
    ensures x >= 0.0 ==> n >= 0 && n as real <= x < n as real + 1.0
    ensures x < 0.0 ==> n <= 0 && n as real - 1.0 < x <= n as real
  {
    if x >= 0.0 then x.Floor else -((-x).Floor)
  }

  /** Number of candidate heights: one per trace radius between the ledge heights, plus one. */
  function LedgeCandidateCount(s: MantleTraceSettings): int
    requires s.forwardTraceRadius != 0.0
  {
    TruncToInt((s.maxLedgeHeight - s.minLedgeHeight) / s.forwardTraceRadius + 1.0)
  }

  predicate LedgeCandidateOk(s: LedgeSweep)
  {
    s.forward.Some? && !s.topBlocked
  }

  /** The first candidate in [i, n) with a wall hit and free space above it. */
  function FirstLedgeFrom(sweeps: nat -> LedgeSweep, i: nat, n: int): (r: Option<nat>)
    ensures r.Some? ==> i <= r.value < n && LedgeCandidateOk(sweeps(r.value))
    decreases n - i
  {
    if i >= n then Option.None
    else if LedgeCandidateOk(sweeps(i)) then Some(i)
    else FirstLedgeFrom(sweeps, i + 1, n)
  }

  /** The scan finds the least good candidate, and finds none only when there is none. */
  lemma {:induction false} FirstLedgeIsLeast(sweeps: nat -> LedgeSweep, i: nat, n: int)
    ensures var r := FirstLedgeFrom(sweeps, i, n);
            r.Some? ==> i <= r.value < n && LedgeCandidateOk(sweeps(r.value)) &&
                        forall j :: i <= j < r.value ==> !LedgeCandidateOk(sweeps(j))
    ensures FirstLedgeFrom(sweeps, i, n).None? ==> forall j :: i <= j < n ==> !LedgeCandidateOk(sweeps(j))
    decreases n - i
  {
    if i < n && !LedgeCandidateOk(sweeps(i)) {
      FirstLedgeIsLeast(sweeps, i + 1, n);
    }
  }

  /** The ledge component after scanning candidates [0, k): every forward hit overwrites it. */
  function ComponentAfterScan(sweeps: nat -> LedgeSweep, k: nat, c0: Option<nat>): Option<nat>
  {
    if k == 0 then c0
    else if sweeps(k - 1).forward.Some? then sweeps(k - 1).forward.value.component
    else ComponentAfterScan(sweeps, k - 1, c0)
  }

  /** The hanging target below a wall hit: 40 down and 35 out along the normal, facing the wall. */
  function LedgeTargetFor(h: WallHit): Transform
  {
    Transform(Rotator(0.0, h.normalYaw - 180.0, 0.0),
              h.impactPoint.(z := h.impactPoint.z - 40.0).Add(h.impactNormal.Scale(35.0)))
  }

  /**
   * Rotation and view after a ledge grab asks for velocity-direction rotation, given the
   * rotation, view and desired rotation before (`r0`, `v0`, `d0`): a change into velocity
   * direction while in first person switches to third person and takes the desired mode;
   * otherwise the rotation is velocity direction and the view stays.
   */
  predicate GrabbedRotation(r0: RotationMode, v0: ViewMode, d0: RotationMode, r: RotationMode, v: ViewMode)
  {
    if r0 != VelocityDirection && v0 == FirstPerson then v == ThirdPerson && r == d0
    else r == VelocityDirection && v == v0
  }

  // ---------------------------------------------------------------------------------
  // Climbing movement and corners.

  /** The hand traces of the climbing move check. */
  datatype HandProbe = HandProbe(
    /** The forward hand sweep: impact point, yaw of the wall's orientation, its forward vector,
        and the angle in degrees between the actor's forward vector and the wall normal. */
    wall: Option<HandWall>,
    /** The downward sweep onto the ledge top. */
    top: Option<WallHit>)

  datatype HandWall = HandWall(impactPoint: Vec3, normalYaw: real, normalForward: Vec3, normalAngle: real)

  /**
   * The hold for the hand, or none: no wall, a wall at less than 120 degrees from the facing,
   * no ledge top, or a top whose normal is 0.1 or less upright.
   */
  function HandHold(p: HandProbe): Option<ComponentAndTransform>
  {
    if p.wall.None? || p.wall.value.normalAngle < 120.0 || p.top.None? || p.top.value.impactNormal.z <= 0.1 then Option.None
    else
      var w := p.wall.value;
      var location := w.impactPoint.Sub(w.normalForward.Scale(35.0)).(z := p.top.value.impactPoint.z - 40.0);
      Some(ComponentAndTransform(p.top.value.component, Transform(Rotator(0.0, w.normalYaw - 180.0, 0.0), location)))
  }

  /** A hold exists exactly when every step of the detection passes. */
  lemma HandHoldConditions(p: HandProbe)
    ensures HandHold(p).Some? <==>
      p.wall.Some? && p.wall.value.normalAngle >= 120.0 && p.top.Some? && p.top.value.impactNormal.z > 0.1
    ensures HandHold(p).Some? ==>
              HandHold(p).value.component == p.top.value.component &&
              HandHold(p).value.transform.location.z == p.top.value.impactPoint.z - 40.0
  {
  }

  /** What the corner traces report: the side sweep, the top sweep's hit, the wall angle and the room check. */
  datatype CornerProbe = CornerProbe(
    side: Option<WallHit>,
    topBlocking: bool, topStartPenetrating: bool, topImpactZ: real, topComponent: Option<nat>,
    /** Angle in degrees between the actor's forward vector and the side wall's normal. */
    normalAngle: real,
    capsuleHasRoom: bool)

  /** The three answers of the corner check: no wall (0), blocked (-1), or a turn target (1). */
  datatype CornerOutcome = NoWall | Blocked | CanTurn(target: ComponentAndTransform, turnAngle: real)
  {
    function Code(): int
    {
      match this
      case NoWall => 0
      case Blocked => -1
      case CanTurn(_, _) => 1
    }
  }

  /** Turn angle for an outer corner (the supplement of the wall angle) or an inner one. */
  function CornerTurnAngle(isOuter: bool, normalAngle: real): real
  {
    if isOuter then 180.0 - normalAngle else Abs(normalAngle)
  }

  /**
   * One corner test: no side wall gives 0; a top sweep that starts inside geometry, a turn of
   * less than 10 degrees, or no room for the capsule gives -1; otherwise the target hangs
   * below the top, out from the side wall, facing it.
   */
  function CornerTest(isOuter: bool, p: CornerProbe): (o: CornerOutcome)
    ensures o.NoWall? <==> p.side.None?
    ensures o.CanTurn? ==> o.turnAngle >= 10.0 && p.capsuleHasRoom && !(p.topBlocking && p.topStartPenetrating)
  {
    if p.side.None? then NoWall
    else if p.topBlocking && p.topStartPenetrating then Blocked
    else if CornerTurnAngle(isOuter, p.normalAngle) < 10.0 then Blocked
    else if !p.capsuleHasRoom then Blocked
    else
      var s := p.side.value;
      var location := s.impactPoint.(z := p.topImpactZ - 40.0).Add(s.impactNormal.Scale(35.0));
      CanTurn(ComponentAndTransform(p.topComponent, Transform(Rotator(0.0, s.normalYaw - 180.0, 0.0), location)),
              CornerTurnAngle(isOuter, p.normalAngle))
  }

  /**
   * Corner arbitration: the outer corner is tried only when allowed and the inner test found
   * no wall; an inner turn wins, an outer one is taken only after an empty inner test.
   */
  function CornerChoice(inner: CornerOutcome, outer: CornerOutcome, canTraceOuter: bool): Option<CornerClimbType>
  {
    if inner.Code() == 1 then Some(Inner)
    else if inner.Code() == 0 && canTraceOuter && outer.Code() == 1 then Some(Outer)
    else Option.None
  }

  lemma CornerChoiceCases(inner: CornerOutcome, outer: CornerOutcome, canTraceOuter: bool)
    ensures CornerChoice(inner, outer, canTraceOuter) == Some(Inner) <==> inner.CanTurn?
    ensures CornerChoice(inner, outer, canTraceOuter) == Some(Outer) <==> inner.NoWall? && canTraceOuter && outer.CanTurn?
    ensures inner.Blocked? ==> CornerChoice(inner, outer, canTraceOuter).None?
    ensures !canTraceOuter ==> CornerChoice(inner, outer, canTraceOuter) != Some(Outer)
  {
  }

  /**
   * Sideways shift of the corner animation's start, as the source writes it: the offset is
   * added to the angle inside the test, so the result is the half-excess over 90 degrees
   * (which is negative below 90) or nothing, never the offset itself.
   */
  function SideShiftAsWritten(offsetX: real, turnAngle: real): real
  {
    if offsetX + turnAngle > 90.0 then (turnAngle - 90.0) * 0.5 else 0.0
  }

  /** The intended shift: the asset's sideways offset, plus half the turn beyond 90 degrees. */
  function SideShift(offsetX: real, turnAngle: real): (r: real)
    ensures turnAngle <= 90.0 ==> r == offsetX
    ensures turnAngle > 90.0 ==> r == offsetX + (turnAngle - 90.0) / 2.0
  {
    offsetX + (if turnAngle > 90.0 then (turnAngle - 90.0) * 0.5 else 0.0)
  }

  /** The intended shift never falls below the asset's offset and grows with the turn angle. */
  lemma SideShiftMonotone(offsetX: real, a: real, b: real)
    requires a <= b
    ensures offsetX <= SideShift(offsetX, a) <= SideShift(offsetX, b)
  {
  }

  /** With a 20 offset, an 80-degree turn shifts by -5 as written (20 intended), a 90-degree one by 0 (20 intended). */
  lemma SideShiftAsWrittenDiffers()
    ensures SideShiftAsWritten(20.0, 80.0) == -5.0 && SideShift(20.0, 80.0) == 20.0
    ensures SideShiftAsWritten(20.0, 90.0) == 0.0 && SideShift(20.0, 90.0) == 20.0
  {
  }

  /** The corner turn bookkeeping (FALSCornerClimbValues). */
  datatype CornerClimbValues = CornerClimbValues(
    cornerType: CornerClimbType, target: ComponentAndTransform, turnAngle: real, directionValue: real,
    startingOffset: Vec3)

  /** The actor's basis vectors. */
  datatype ActorAxes = ActorAxes(forward: Vec3, right: Vec3, up: Vec3)

  /** Start of the corner animation, relative to the actor: back, sideways toward the turn, and up to the target. */
  function CornerStartShift(axes: ActorAxes, v: CornerClimbValues, cornerZ: real, actorZ: real): Vec3
  {
    axes.forward.Scale(-v.startingOffset.y)
      .Add(axes.right.Scale(v.directionValue * SideShift(v.startingOffset.x, v.turnAngle)))
      .Add(axes.up.Scale(cornerZ - actorZ + 20.0))
  }

  // ---------------------------------------------------------------------------------
  // Climb jump.

  /** Growth rate and maximum of the climb-jump length (FALSClimbJumpParams). */
  datatype ClimbJumpParams = ClimbJumpParams(jumpGrowRate: real, jumpLengthMax: real)

  /** What the climb-jump traces report: the wall hit, the ledge hit beside it, and the room check. */
  datatype JumpProbe = JumpProbe(wall: Option<WallHit>, ledge: Option<WallHit>, capsuleHasRoom: bool)

  /** Engine FVector::Equals: every component within the tolerance. */
  predicate NearlyEqual(a: Vec3, b: Vec3, tolerance: real)
  {
    Abs(a.x - b.x) <= tolerance && Abs(a.y - b.y) <= tolerance && Abs(a.z - b.z) <= tolerance
  }

  /**
   * Readiness of the jump move: the sampled distance curve is away from zero and agrees
   * with the previous frame's sample, both within 0.1.
   */
  predicate JumpMoveReady(sample: Vec3, cached: Vec3)
  {
    !NearlyEqual(sample, Zero, 0.1) && NearlyEqual(sample, cached, 0.1)
  }

  /** A zero sample never starts the move, and a sample far from the cached one does not either. */
  lemma JumpMoveReadyNeedsStableSample(sample: Vec3, cached: Vec3)
    ensures sample == Zero ==> !JumpMoveReady(sample, cached)
    ensures Abs(sample.x - cached.x) > 0.1 ==> !JumpMoveReady(sample, cached)
    ensures JumpMoveReady(sample, cached) ==> !NearlyEqual(cached, Zero, 0.0)
  {
  }

  /** One axis of the jump location correction: applied only when all three terms are non-zero. */
  function JumpAxisFix(loc: real, delta: real, animDistance: real, diff: real, add: bool): real
  {
    if Abs(delta) > 0.0 && Abs(animDistance) > 0.0 && Abs(diff) > 0.0 then
      (if add then loc + delta * Abs(diff) / animDistance else loc - delta * diff / animDistance)
    else loc
  }

  /** The jump target scaled by how far the animation has moved: X and Y are pulled back, Z is pushed up by |diff|. */
  function JumpLocationFix(loc: Vec3, delta: Vec3, animDistance: Vec3, diff: Vec3): Vec3
  {
    Vec3(JumpAxisFix(loc.x, delta.x, animDistance.x, diff.x, false),
         JumpAxisFix(loc.y, delta.y, animDistance.y, diff.y, false),
         JumpAxisFix(loc.z, delta.z, animDistance.z, diff.z, true))
  }

  /** An axis where the animation did not move, has no distance, or there is no difference is left as it is. */
  lemma JumpLocationFixAxes(loc: Vec3, delta: Vec3, animDistance: Vec3, diff: Vec3)
    ensures delta.x == 0.0 || animDistance.x == 0.0 || diff.x == 0.0 ==> JumpLocationFix(loc, delta, animDistance, diff).x == loc.x
    ensures delta.z == 0.0 || animDistance.z == 0.0 || diff.z == 0.0 ==> JumpLocationFix(loc, delta, animDistance, diff).z == loc.z
    ensures delta == Zero ==> JumpLocationFix(loc, delta, animDistance, diff) == loc
  {
  }

  lemma DivCancel(a: real, b: real)
    requires a != 0.0
    ensures a * b / a == b
  {
  }

  /** Once the animation has covered its whole distance on an axis, the whole difference is taken back. */
  lemma JumpAxisFullMove(loc: real, distance: real, diff: real)
    requires distance != 0.0 && diff != 0.0
    ensures JumpAxisFix(loc, distance, distance, diff, false) == loc - diff
    ensures JumpAxisFix(loc, distance, distance, diff, true) == loc + Abs(diff)
  {
    DivCancel(distance, diff);
    DivCancel(distance, Abs(diff));
  }

  /** The engine rotates a vector by a rotator, or back. */
  type RotateVector = (Rotator, Vec3) -> Vec3

  function SizeSquared(v: Vec3): real { v.x * v.x + v.y * v.y + v.z * v.z }

  /** One component of the jump, as a fraction of the longest jump, clamped to [-1, 1]. */
  function JumpDirectionValue(lengthMax: real, reach: real): (r: real)
    ensures -1.0 <= r <= 1.0
  {
    MapRangeClamped(-lengthMax, lengthMax, -1.0, 1.0, reach)
  }

  class MantleComponent {
    const owner: Character

    // Configuration.
    /** The mantle asset for a mantle type and overlay (the blueprint's GetMantleAsset). */
    const mantleAssets: (MantleType, OverlayState) -> MantleAsset
    /** Samples and end time of the position-correction curves, by curve. */
    const curveValue: (nat, real) -> Vec3
    const curveMaxTime: nat -> real
    /** The corner turn's movement curve. */
    const cornerMoveCurve: real -> Vec3
    const acceptableVelocityWhileMantling: real
    /** Half height of the owner's capsule. */
    const capsuleHalfHeight: real
    const jumpParams: ClimbJumpParams

    var tickEnabled: bool

    // Mantle.
    var mantleParams: MantleParams
    var mantleLedge: ComponentAndTransform
    var mantleTarget: Transform
    var mantleActualStartOffset: Transform
    var mantleAnimatedStartOffset: Transform
    var mantleTimeline: Timeline

    // Ledge climbing.
    var ledgeClimb: ComponentAndTransform
    var ledgeTarget: Transform
    /** Climbing velocity of the last update. */
    var speed: Vec3
    var canMoving: bool

    // Corner.
    var cornerTimeline: Timeline
    var cornerActualStartOffset: Transform
    var cornerAnimatedStartOffset: Transform
    var cornerClimbValues: CornerClimbValues

    // Jump.
    var lastJumpInputTime: real
    var jumpUpValue: real
    var jumpRightValue: real
    var jumpPressed: bool
    var canJumping: bool
    var canExit: bool
    var hasBlock: bool
    var jumpLength: real
    var jumpDistanceDiff: Vec3
    var animJumpDistance: Vec3
    var canJumpMove: bool
    var jumpTarget: ComponentAndTransform

    /** Header defaults: ticking, nothing running, every climbing flag clear. */
    constructor (owner: Character, mantleAssets: (MantleType, OverlayState) -> MantleAsset,
                 curveValue: (nat, real) -> Vec3, curveMaxTime: nat -> real, cornerMoveCurve: real -> Vec3,
                 capsuleHalfHeight: real, cornerStartingOffset: Vec3, jumpParams: ClimbJumpParams)
      ensures this.owner == owner && this.mantleAssets == mantleAssets && this.capsuleHalfHeight == capsuleHalfHeight
      ensures this.curveValue == curveValue && this.curveMaxTime == curveMaxTime && this.cornerMoveCurve == cornerMoveCurve
      ensures this.jumpParams == jumpParams && cornerClimbValues.startingOffset == cornerStartingOffset
      ensures acceptableVelocityWhileMantling == 10.0 && tickEnabled
      ensures mantleTimeline == Stopped && cornerTimeline == Stopped
      ensures !canMoving && !jumpPressed && !canJumping && !canExit && !hasBlock && !canJumpMove
    {
      this.owner := owner;
      this.mantleAssets := mantleAssets;
      this.curveValue := curveValue;
      this.curveMaxTime := curveMaxTime;
      this.cornerMoveCurve := cornerMoveCurve;
      acceptableVelocityWhileMantling := 10.0;
      this.capsuleHalfHeight := capsuleHalfHeight;
      this.jumpParams := jumpParams;
      tickEnabled := true;
      mantleParams := MantleParams(Option.None, 0, Zero, 0.0, 1.0);
      mantleLedge := ComponentAndTransform(Option.None, Identity);
      mantleTarget := Identity;
      mantleActualStartOffset := Identity;
      mantleAnimatedStartOffset := Identity;
      mantleTimeline := Stopped;
      ledgeClimb := ComponentAndTransform(Option.None, Identity);
      ledgeTarget := Identity;
      speed := Zero;
      canMoving := false;
      cornerTimeline := Stopped;
      cornerActualStartOffset := Identity;
      cornerAnimatedStartOffset := Identity;
      cornerClimbValues := CornerClimbValues(Inner, ComponentAndTransform(Option.None, Identity), 0.0, 1.0, cornerStartingOffset);
      lastJumpInputTime := 0.0;
      jumpUpValue := 0.0;
      jumpRightValue := 0.0;
      jumpPressed := false;
      canJumping := false;
      canExit := false;
      hasBlock := false;
      jumpLength := 0.0;
      jumpDistanceDiff := Zero;
      animJumpDistance := Zero;
      canJumpMove := false;
      jumpTarget := ComponentAndTransform(Option.None, Identity);
    }

    function ActorTransform(): Transform
      reads owner
    {
      Transform(owner.actorRotation, owner.actorLocation)
    }

    /** The state a mantle start leaves behind, given the owner's overlay, transform and requests before it. */
    ghost predicate MantleStarted(args: MantleStartArgs, forward: Vec3, overlay0: OverlayState, actor0: Transform,
                                  requests0: seq<EngineRequest>)
      reads this, owner, owner.movement
    {
      var p := MantleParamsFor(mantleAssets(args.mantleType, overlay0), args.height);
      mantleParams == p && mantleLedge == args.ledge && mantleTarget == args.ledge.transform &&
      mantleActualStartOffset == TransformSub(actor0, args.ledge.transform) &&
      mantleAnimatedStartOffset == AnimatedStartOffset(args.ledge.transform, forward, p.startingOffset) &&
      mantleTimeline == Timeline(curveMaxTime(p.curve) - p.startingPosition, p.playRate, 0.0, true) &&
      !tickEnabled && owner.movementState == Mantling && owner.movement.movementMode == MoveNone &&
      owner.requests == requests0 + MontageRequests(p)
    }

    /**
     * Starts a mantle onto `ledge` (nothing happens without a ledge component): loads the
     * asset's parameters for the height, records the target and both start offsets, clears
     * the engine movement mode, enters the mantling state, runs the timeline for the curve's
     * remaining time at the mantle's play rate and plays the montage.
     */
    method MantleStart(height: real, ledge: ComponentAndTransform, mantleType: MantleType, ledgeForward: Vec3)
      modifies this`tickEnabled, this`mantleParams, this`mantleLedge, this`mantleTarget, this`mantleActualStartOffset,
        this`mantleAnimatedStartOffset, this`mantleTimeline,
        owner.movement`movementMode, owner`movementState, owner`prevMovementState, owner`canInputMove,
        owner`inAirRotation, owner`requests, owner.anim`movementState, owner.anim`prevMovementState
      ensures ledge.component.None? ==> unchanged(this, owner, owner.anim, owner.movement)
      ensures ledge.component.Some? ==>
        MantleStarted(MantleStartArgs(height, ledge, mantleType), ledgeForward, old(owner.overlayState),
                      old(ActorTransform()), old(owner.requests))
    {
      if ledge.component.None? {
        return;
      }
      tickEnabled := false;
      var asset := mantleAssets(mantleType, owner.overlayState);
      mantleParams := MantleParamsFor(asset, height);
      mantleLedge := ledge;
      mantleTarget := ledge.transform;
      mantleActualStartOffset := TransformSub(ActorTransform(), mantleTarget);
      mantleAnimatedStartOffset := AnimatedStartOffset(mantleTarget, ledgeForward, mantleParams.startingOffset);
      owner.SetEngineMovementMode(MoveNone);
      owner.SetMovementState(Mantling, false);
      mantleTimeline := Timeline(curveMaxTime(mantleParams.curve) - mantleParams.startingPosition, mantleParams.playRate, 0.0, true);
      owner.requests := owner.requests + MontageRequests(mantleParams);
    }

    /** Runs the mantle check on what the traces report and starts the mantle when it passes. */
    method MantleCheck(p: MantleProbe) returns (ok: bool)
      modifies this`tickEnabled, this`mantleParams, this`mantleLedge, this`mantleTarget, this`mantleActualStartOffset,
        this`mantleAnimatedStartOffset, this`mantleTimeline,
        owner.movement`movementMode, owner`movementState, owner`prevMovementState, owner`canInputMove,
        owner`inAirRotation, owner`requests, owner.anim`movementState, owner.anim`prevMovementState
      ensures var r := MantleCheckResult(p, old(owner.movementState), old(owner.actorLocation), capsuleHalfHeight,
                                         acceptableVelocityWhileMantling);
              ok == r.Some? &&
              (r.None? || r.value.ledge.component.None? ==> unchanged(this, owner, owner.anim, owner.movement)) &&
              (r.Some? && r.value.ledge.component.Some? ==>
                MantleStarted(r.value, p.ledgeForward, old(owner.overlayState), old(ActorTransform()), old(owner.requests)))
    {
      var r := MantleCheckResult(p, owner.movementState, owner.actorLocation, capsuleHalfHeight, acceptableVelocityWhileMantling);
      if r.None? {
        return false;
      }
      MantleStart(r.value.height, r.value.ledge, r.value.mantleType, p.ledgeForward);
      return true;
    }

    /** The mantle timeline step: the owner is placed on the corrected blend for the curve sample. */
    method MantleUpdate(blendIn: real, blend: RotationBlend)
      modifies this`mantleTarget, owner`actorLocation, owner`actorRotation, owner`targetRotation
      ensures mantleTarget == mantleLedge.transform
      ensures var t := CorrectedBlend(mantleTarget, mantleActualStartOffset, mantleAnimatedStartOffset,
                                      curveValue(mantleParams.curve, mantleParams.startingPosition + mantleTimeline.position),
                                      blendIn, ZApart, blend);
              owner.actorLocation == t.location && owner.actorRotation == t.rotation && owner.targetRotation == t.rotation
    {
      mantleTarget := mantleLedge.transform;
      var alphas := curveValue(mantleParams.curve, mantleParams.startingPosition + mantleTimeline.position);
      var t := CorrectedBlend(mantleTarget, mantleActualStartOffset, mantleAnimatedStartOffset, alphas, blendIn, ZApart, blend);
      owner.SetActorLocationAndTargetRotation(t.location, t.rotation);
    }

    /** The end of the mantle timeline walks the owner again and re-enables ticking. */
    method MantleEnd()
      modifies this`tickEnabled, owner`movementState, owner`prevMovementState, owner`canInputMove,
        owner`inAirRotation, owner`requests, owner.movement`movementMode, owner.anim`movementState, owner.anim`prevMovementState
      ensures tickEnabled && owner.movement.movementMode == MoveWalking
      ensures old(owner.movement.movementMode) != MoveWalking ==> owner.movementState == Grounded
      ensures old(owner.StateMirrored()) ==> owner.StateMirrored()
    {
      owner.SetEngineMovementMode(MoveWalking);
      tickEnabled := true;
    }

    /** Entering ragdoll stops the mantle timeline. */
    method OnOwnerRagdollStateChanged(ragdoll: bool)
      modifies this`mantleTimeline
      ensures mantleTimeline == (if ragdoll then old(mantleTimeline).(playing := false) else old(mantleTimeline))
    {
      if ragdoll {
        mantleTimeline := mantleTimeline.(playing := false);
      }
    }

    /** Hangs the owner on a ledge: flying movement, climbing state, velocity-direction rotation and laddering. */
    method GrabLedge()
      modifies
        owner.movement`movementMode, owner`movementState, owner`prevMovementState, owner`canInputMove,
        owner`inAirRotation, owner`requests, owner.anim`movementState, owner.anim`prevMovementState,
        owner`rotationMode, owner`viewMode, owner.anim`rotationMode, owner.anim`viewMode,
        owner.movement`currentMovementSettings, owner.movement`requestMovementSettingsChange,
        owner`desiredRotationMode, owner`desiredLaddering, owner.anim`desiredLaddering
      ensures owner.movement.movementMode == MoveFlying && owner.movementState == Climbing
      ensures owner.desiredRotationMode == VelocityDirection && owner.desiredLaddering && owner.anim.desiredLaddering
      ensures GrabbedRotation(old(owner.rotationMode), old(owner.viewMode), old(owner.desiredRotationMode),
                              owner.rotationMode, owner.viewMode)
      ensures old(owner.StateMirrored()) ==> owner.StateMirrored()
    {
      owner.SetEngineMovementMode(MoveFlying);
      owner.SetMovementState(Climbing, false);
      owner.SetRotationMode(VelocityDirection, false);
      owner.SetDesiredRotationMode(VelocityDirection);
      owner.SetDesiredLaddering(true);
    }

    /**
     * Scans the candidate heights from the bottom. A candidate without a wall hit is skipped;
     * a wall hit makes its component the ledge component, and if the space above is free the
     * character grabs the ledge there: flying movement, climbing state, velocity-direction
     * rotation as desired, the rotation change as `GrabbedRotation` describes, and the laddering flag.
     */
    method LadgeClimbCheck(settings: MantleTraceSettings, sweeps: nat -> LedgeSweep) returns (ok: bool)
      requires settings.forwardTraceRadius != 0.0
      modifies this`ledgeClimb, this`ledgeTarget,
        owner.movement`movementMode, owner`movementState, owner`prevMovementState, owner`canInputMove,
        owner`inAirRotation, owner`requests, owner.anim`movementState, owner.anim`prevMovementState,
        owner`rotationMode, owner`viewMode, owner.anim`rotationMode, owner.anim`viewMode,
        owner.movement`currentMovementSettings, owner.movement`requestMovementSettingsChange,
        owner`desiredRotationMode, owner`desiredLaddering, owner.anim`desiredLaddering
      ensures var n := LedgeCandidateCount(settings);
              var found := FirstLedgeFrom(sweeps, 0, n);
              ok == found.Some? &&
              (found.None? ==>
                ledgeClimb == old(ledgeClimb).(component := ComponentAfterScan(sweeps, if n < 0 then 0 else n, old(ledgeClimb.component))) &&
                ledgeTarget == old(ledgeTarget) && unchanged(owner, owner.anim, owner.movement)) &&
              (found.Some? ==>
                var hit := sweeps(found.value).forward.value;
                ledgeTarget == LedgeTargetFor(hit) && ledgeClimb == ComponentAndTransform(hit.component, ledgeTarget) &&
                owner.movement.movementMode == MoveFlying && owner.movementState == Climbing &&
                owner.desiredRotationMode == VelocityDirection && owner.desiredLaddering &&
                GrabbedRotation(old(owner.rotationMode), old(owner.viewMode), old(owner.desiredRotationMode),
                                owner.rotationMode, owner.viewMode))
    {
      var n := LedgeCandidateCount(settings);
      var i: nat := 0;
      while i < n
        invariant i <= (if n < 0 then 0 else n)
        invariant FirstLedgeFrom(sweeps, 0, n) == FirstLedgeFrom(sweeps, i, n)
        invariant ledgeClimb == old(ledgeClimb).(component := ComponentAfterScan(sweeps, i, old(ledgeClimb.component)))
        invariant ledgeTarget == old(ledgeTarget)
        invariant unchanged(owner, owner.anim, owner.movement)
      {
        var s := sweeps(i);
        if s.forward.None? {
          i := i + 1;
          continue;
        }
        ledgeClimb := ledgeClimb.(component := s.forward.value.component);
        if s.topBlocked {
          i := i + 1;
          continue;
        }
        ledgeTarget := LedgeTargetFor(s.forward.value);
        ledgeClimb := ledgeClimb.(transform := ledgeTarget);
        GrabLedge();
        return true;
      }
      return false;
    }

    /** The climbing move check for one hand: a hold, when found, becomes the ledge. */
    method ClimbingMovingDetection(p: HandProbe) returns (ok: bool)
      modifies this`ledgeClimb
      ensures ok == HandHold(p).Some?
      ensures ledgeClimb == (if ok then HandHold(p).value else old(ledgeClimb))
    {
      var hold := HandHold(p);
      if hold.None? {
        return false;
      }
      ledgeClimb := hold.value;
      return true;
    }

    /** One corner test; a turn target replaces the corner values and `target0`. */
    method CanCornerClimbing(isOuter: bool, isRight: bool, p: CornerProbe, target0: Transform) returns (code: int, target: Transform)
      modifies this`cornerClimbValues
      ensures var o := CornerTest(isOuter, p);
              code == o.Code() &&
              (o.CanTurn? ==>
                target == o.target.transform &&
                cornerClimbValues == old(cornerClimbValues).(target := o.target, turnAngle := o.turnAngle,
                                                              directionValue := if isRight then 1.0 else -1.0)) &&
              (!o.CanTurn? ==> target == target0 && cornerClimbValues == old(cornerClimbValues))
    {
      var o := CornerTest(isOuter, p);
      code := o.Code();
      target := target0;
      if o.CanTurn? {
        cornerClimbValues := cornerClimbValues.(target := o.target, turnAngle := o.turnAngle,
                                                directionValue := if isRight then 1.0 else -1.0);
        target := o.target.transform;
      }
    }

    /**
     * The state a successful corner check leaves: the arbitration picked a corner, the chosen
     * test's target, turn angle and side direction are stored with the corner type, ticking
     * stops, the owner holds the turn angle and climbs the corner, the actual start offset is
     * the actor relative to the target and the animated one the actor shifted back, sideways
     * and up, relative to the target.
     */
    ghost predicate CornerTaken(isRight: bool, canTraceOuter: bool, inner: CornerProbe, outer: CornerProbe, axes: ActorAxes)
      reads this, owner
    {
      var choice := CornerChoice(CornerTest(false, inner), CornerTest(true, outer), canTraceOuter);
      choice.Some? &&
      var t := if choice.value == Inner then CornerTest(false, inner) else CornerTest(true, outer);
      var actor := ActorTransform();
      t.CanTurn? &&
      cornerClimbValues.cornerType == choice.value &&
      cornerClimbValues.target == t.target && cornerClimbValues.turnAngle == t.turnAngle &&
      cornerClimbValues.directionValue == (if isRight then 1.0 else -1.0) &&
      !tickEnabled && owner.rotateInClimbAngle == t.turnAngle && owner.movementAction == CornerClimbing &&
      cornerActualStartOffset == TransformSub(actor, t.target.transform) &&
      cornerAnimatedStartOffset ==
        TransformSub(Transform(actor.rotation, actor.location.Add(
          CornerStartShift(axes, cornerClimbValues, t.target.transform.location.z, actor.location.z))),
          t.target.transform)
    }

    /**
     * The owner's side of a corner turn: a new corner-climbing action is mirrored to the
     * animation instance and runs the action hook (the corner montage and its broadcast, the
     * roll-end stance restore); an action that already was corner climbing changes nothing.
     */
    ghost predicate CornerActionStarted(action0: MovementAction, requests0: seq<EngineRequest>, animAction0: MovementAction,
                                        playing0: set<SlotAnimation>)
      reads this, owner, owner.anim
    {
      if action0 != CornerClimbing then
        owner.anim.movementAction == CornerClimbing && owner.ActionHookDone(action0, requests0, playing0)
      else
        owner.requests == requests0 && owner.anim.movementAction == animAction0 && owner.anim.playing == playing0
    }

    /**
     * Tries to turn a corner: the inner test first, the outer one only when allowed and the
     * inner test found no wall. A turn stops ticking, hands the turn angle to the owner,
     * records both start offsets from the chosen target (the animated one shifted back, to the
     * side and up from the actor) and starts the corner-climbing action.
     */
    method CornerCheck(isRight: bool, canTraceOuter: bool, inner: CornerProbe, outer: CornerProbe, axes: ActorAxes)
      returns (ok: bool)
      modifies this`cornerClimbValues, this`tickEnabled, this`cornerActualStartOffset, this`cornerAnimatedStartOffset,
        owner`rotateInClimbAngle, owner.anim`rotateInClimbAngle, owner`movementAction, owner`requests,
        owner.anim`movementAction, owner.anim`playing
      ensures ok == CornerChoice(CornerTest(false, inner), CornerTest(true, outer), canTraceOuter).Some?
      ensures !ok ==> unchanged(this, owner, owner.anim)
      ensures ok ==> CornerTaken(isRight, canTraceOuter, inner, outer, axes) && CornerActionStarted(old(owner.movementAction), old(owner.requests), old(owner.anim.movementAction), old(owner.anim.playing))
    {
      var target: Transform := Identity;
      var outerRet := -1;
      var innerRet;
      innerRet, target := CanCornerClimbing(false, isRight, inner, target);
      if canTraceOuter && innerRet == 0 {
        outerRet, target := CanCornerClimbing(true, isRight, outer, target);
      }
      if innerRet == 1 {
        cornerClimbValues := cornerClimbValues.(cornerType := Inner);
      } else if innerRet == 0 && outerRet == 1 {
        cornerClimbValues := cornerClimbValues.(cornerType := Outer);
      } else {
        return false;
      }
      tickEnabled := false;
      var actor := ActorTransform();
      owner.SetRotateInClimbAngle(cornerClimbValues.turnAngle);
      cornerActualStartOffset := TransformSub(actor, target);
      var shift := CornerStartShift(axes, cornerClimbValues, target.location.z, actor.location.z);
      cornerAnimatedStartOffset := TransformSub(Transform(actor.rotation, actor.location.Add(shift)), target);
      owner.SetMovementAction(CornerClimbing, false);
      return true;
    }

    /** The corner delegate starts the corner timeline with the animation's remaining time. */
    method ClimbCornerStart(timeLength: real, startTime: real, playRate: real)
      modifies this`ledgeClimb, this`cornerTimeline
      ensures ledgeClimb == cornerClimbValues.target
      ensures cornerTimeline == Timeline(timeLength - startTime, playRate, 0.0, true)
    {
      ledgeClimb := cornerClimbValues.target;
      cornerTimeline := Timeline(timeLength - startTime, playRate, 0.0, true);
    }

    /** The corner timeline step: the owner is placed on the corrected blend for the corner curve. */
    method ClimbCornerUpdate(blendIn: real, blend: RotationBlend)
      modifies owner`actorLocation, owner`actorRotation, owner`targetRotation
      ensures var t := CorrectedBlend(cornerClimbValues.target.transform, cornerActualStartOffset, cornerAnimatedStartOffset,
                                      cornerMoveCurve(cornerTimeline.position), blendIn, YApart, blend);
              owner.actorLocation == t.location && owner.actorRotation == t.rotation && owner.targetRotation == t.rotation
    {
      var t := CorrectedBlend(cornerClimbValues.target.transform, cornerActualStartOffset, cornerAnimatedStartOffset,
                              cornerMoveCurve(cornerTimeline.position), blendIn, YApart, blend);
      owner.SetActorLocationAndTargetRotation(t.location, t.rotation);
    }

    /** The end of the corner timeline ends the action and re-enables ticking. */
    method ClimbCornerEnd()
      modifies this`tickEnabled, owner`movementAction, owner`requests, owner.anim`movementAction, owner.anim`playing
      ensures tickEnabled && owner.movementAction == MovementAction.None
    {
      owner.SetMovementAction(MovementAction.None, false);
      tickEnabled := true;
    }

    /**
     * Climbing input of one update. While jump is held the character does not move and,
     * unless blocked, looks for a jump target. A sideways input of more than 0.1 looks for a
     * hold on that side: with one, the character moves when it is already moving at 10 or
     * more or when no inner corner starts; without one, a corner on that side (inner or outer)
     * is tried and the character stops. Without sideways input it stops.
     */
    method UpdateLedgeInputInfo(handRight: HandProbe, handLeft: HandProbe, inner: CornerProbe, outer: CornerProbe,
                                axes: ActorAxes, jump: JumpProbe, length: Vec3 -> real)
      modifies this`canMoving, this`ledgeClimb, this`canExit, this`hasBlock, this`canJumping, this`jumpTarget, this`jumpLength,
        this`cornerClimbValues, this`tickEnabled, this`cornerActualStartOffset, this`cornerAnimatedStartOffset,
        owner`rotateInClimbAngle, owner.anim`rotateInClimbAngle, owner`movementAction, owner`requests,
        owner.anim`movementAction, owner.anim`playing
      ensures old(jumpPressed) ==> !canMoving
      ensures !old(jumpPressed) && -0.1 <= owner.rightInputValue <= 0.1 ==> !canMoving
      ensures !old(jumpPressed) && owner.rightInputValue > 0.1 && HandHold(handRight).None? ==> !canMoving
      ensures !old(jumpPressed) && owner.rightInputValue < -0.1 && HandHold(handLeft).None? ==> !canMoving
      ensures !old(jumpPressed) && owner.rightInputValue > 0.1 && HandHold(handRight).Some? && SizeSquared(speed) >= 100.0 ==>
        canMoving && ledgeClimb == HandHold(handRight).value
      ensures !old(jumpPressed) && owner.rightInputValue < -0.1 && HandHold(handLeft).Some? && SizeSquared(speed) >= 100.0 ==>
        canMoving && ledgeClimb == HandHold(handLeft).value
      // While jump is held: the jump search runs unless blocked, and no corner or hold is touched.
      ensures old(jumpPressed) ==>
        unchanged(owner, owner.anim) &&
        unchanged(this`ledgeClimb, this`cornerClimbValues, this`tickEnabled, this`cornerActualStartOffset, this`cornerAnimatedStartOffset)
      ensures old(jumpPressed) && old(hasBlock) ==>
        unchanged(this`canExit, this`hasBlock, this`canJumping, this`jumpTarget, this`jumpLength)
      ensures old(jumpPressed) && !old(hasBlock) ==> ClimbJumpChecked(jump, length)
      // Without jump: the jump fields stay; a sideways input looks for a hold on that side and
      // tries a corner when there is none (inner or outer) or when the hold is reached below speed 10
      // (inner only); a hold below speed 10 moves when no corner is taken and otherwise keeps its move flag.
      ensures !old(jumpPressed) ==> unchanged(this`canExit, this`hasBlock, this`canJumping, this`jumpTarget, this`jumpLength)
      ensures !old(jumpPressed) && -0.1 <= owner.rightInputValue <= 0.1 ==>
        unchanged(owner, owner.anim) &&
        unchanged(this`ledgeClimb, this`cornerClimbValues, this`tickEnabled, this`cornerActualStartOffset, this`cornerAnimatedStartOffset)
      ensures !old(jumpPressed) && (owner.rightInputValue > 0.1 || owner.rightInputValue < -0.1) ==>
        var isRight := owner.rightInputValue > 0.1;
        var hold := HandHold(if isRight then handRight else handLeft);
        var tries := hold.None? || SizeSquared(speed) < 100.0;
        var taken := CornerChoice(CornerTest(false, inner), CornerTest(true, outer), hold.None?).Some?;
        ledgeClimb == (if hold.Some? then hold.value else old(ledgeClimb)) &&
        (!tries || !taken ==>
          unchanged(owner, owner.anim) &&
          unchanged(this`cornerClimbValues, this`tickEnabled, this`cornerActualStartOffset, this`cornerAnimatedStartOffset)) &&
        (tries && taken ==> CornerTaken(isRight, hold.None?, inner, outer, axes) && CornerActionStarted(old(owner.movementAction), old(owner.requests), old(owner.anim.movementAction), old(owner.anim.playing))) &&
        (hold.Some? && tries ==> canMoving == (taken ==> old(canMoving)))
    {
      if jumpPressed {
        canMoving := false;
        if !hasBlock {
          ClimbJumpCheck(jump, length);
        }
        return;
      }
      var right := owner.rightInputValue;
      if right > 0.1 {
        SideLedgeInput(true, handRight, inner, outer, axes);
      } else if right < -0.1 {
        SideLedgeInput(false, handLeft, inner, outer, axes);
      } else {
        canMoving := false;
      }
    }

    /**
     * One side of the sideways climbing input: a hold on that side moves the character when it
     * is already moving at 10 or more or when no inner corner starts; without a hold a corner
     * (inner or outer) is tried and the character stops.
     */
    method SideLedgeInput(isRight: bool, hand: HandProbe, inner: CornerProbe, outer: CornerProbe, axes: ActorAxes)
      modifies this`canMoving, this`ledgeClimb,
        this`cornerClimbValues, this`tickEnabled, this`cornerActualStartOffset, this`cornerAnimatedStartOffset,
        owner`rotateInClimbAngle, owner.anim`rotateInClimbAngle, owner`movementAction, owner`requests,
        owner.anim`movementAction, owner.anim`playing
      ensures var hold := HandHold(hand);
        var tries := hold.None? || SizeSquared(speed) < 100.0;
        var taken := CornerChoice(CornerTest(false, inner), CornerTest(true, outer), hold.None?).Some?;
        ledgeClimb == (if hold.Some? then hold.value else old(ledgeClimb)) &&
        (hold.None? ==> !canMoving) &&
        (hold.Some? && !tries ==> canMoving) &&
        (!tries || !taken ==>
          unchanged(owner, owner.anim) &&
          unchanged(this`cornerClimbValues, this`tickEnabled, this`cornerActualStartOffset, this`cornerAnimatedStartOffset)) &&
        (tries && taken ==>
          CornerTaken(isRight, hold.None?, inner, outer, axes) &&
          CornerActionStarted(old(owner.movementAction), old(owner.requests), old(owner.anim.movementAction), old(owner.anim.playing))) &&
        (hold.Some? && tries ==> canMoving == (taken ==> old(canMoving)))
    {
      var detected := ClimbingMovingDetection(hand);
      if detected {
        if SizeSquared(speed) >= 100.0 {
          canMoving := true;
        } else {
          var turned := CornerCheck(isRight, false, inner, outer, axes);
          if !turned {
            canMoving := true;
          }
        }
        return;
      }
      var _ := CornerCheck(isRight, true, inner, outer, axes);
      canMoving := false;
    }

    /**
     * The climb-jump search's outcome on the jump fields. Nothing changes for inputs of 0.4 or
     * less on both axes or without a wall hit; a wall hit clears the exit flag; a steep wall or
     * no ledge beside it ends the search; no room marks the jump blocked; otherwise the target
     * hangs 40 below the wall hit, out from the ledge, and the jump is armed.
     */
    twostate predicate ClimbJumpChecked(p: JumpProbe, length: Vec3 -> real)
      reads this, owner
    {
      if (Abs(jumpRightValue) <= 0.4 && Abs(jumpUpValue) <= 0.4) || p.wall.None? then
        unchanged(this`canExit, this`hasBlock, this`canJumping, this`jumpTarget, this`jumpLength)
      else
        !canExit &&
        (if p.wall.value.impactNormal.z <= 0.1 || p.ledge.None? then
           unchanged(this`hasBlock, this`canJumping, this`jumpTarget, this`jumpLength)
         else if !p.capsuleHasRoom then
           hasBlock && unchanged(this`canJumping, this`jumpTarget, this`jumpLength)
         else
           var l := p.ledge.value;
           var target := l.impactPoint.Add(l.impactNormal.Scale(35.0)).(z := p.wall.value.impactPoint.z - 40.0);
           canJumping && hasBlock == old(hasBlock) &&
           jumpTarget == ComponentAndTransform(l.component, Transform(Rotator(0.0, l.normalYaw - 180.0, 0.0), target)) &&
           jumpLength == length(owner.actorLocation.Sub(target)))
    }

    /** Looks for a climb-jump target in the held direction. */
    method ClimbJumpCheck(p: JumpProbe, length: Vec3 -> real)
      modifies this`canExit, this`hasBlock, this`canJumping, this`jumpTarget, this`jumpLength
      ensures ClimbJumpChecked(p, length)
    {
      if Abs(jumpRightValue) <= 0.4 && Abs(jumpUpValue) <= 0.4 {
        return;
      }
      if p.wall.None? {
        return;
      }
      canExit := false;
      var wall := p.wall.value;
      if wall.impactNormal.z <= 0.1 {
        return;
      }
      var height := wall.impactPoint.z - 40.0;
      if p.ledge.None? {
        return;
      }
      var l := p.ledge.value;
      var target := l.impactPoint.Add(l.impactNormal.Scale(35.0)).(z := height);
      if !p.capsuleHasRoom {
        hasBlock := true;
        return;
      }
      jumpTarget := ComponentAndTransform(l.component, Transform(Rotator(0.0, l.normalYaw - 180.0, 0.0), target));
      jumpLength := length(owner.actorLocation.Sub(target));
      canJumping := true;
    }

    /**
     * The climb-jump step. Until the move is ready the distance curves are cached each update
     * and nothing moves. Then the jump ends once the location curves are all within 0.1 of
     * zero (the source's second test compares the target with itself and always holds);
     * otherwise the owner is interpolated toward the corrected jump target.
     */
    method ClimbJumpUpdate(deltaTime: real, rotate: RotateVector, unrotate: RotateVector, interp: VInterp)
      requires deltaTime > 0.0
      modifies this`canJumpMove, this`animJumpDistance, this`ledgeTarget, owner`actorLocation,
        owner`movementAction, owner`requests, owner.anim`movementAction, owner.anim`playing
      ensures var c := owner.anim.curveValues;
              var sample := Vec3(c(LocationDistance_X), c(LocationDistance_Y), c(LocationDistance_Z));
              !old(canJumpMove) && !JumpMoveReady(sample, old(animJumpDistance)) ==>
                !canJumpMove && animJumpDistance == sample && ledgeTarget == old(ledgeTarget) &&
                owner.actorLocation == old(owner.actorLocation) && owner.movementAction == old(owner.movementAction)
      ensures var c := owner.anim.curveValues;
              var sample := Vec3(c(LocationDistance_X), c(LocationDistance_Y), c(LocationDistance_Z));
              var delta := Vec3(c(LocationAmount_X), c(LocationAmount_Y), c(LocationAmount_Z));
              old(canJumpMove) || JumpMoveReady(sample, old(animJumpDistance)) ==>
                canJumpMove && animJumpDistance == old(animJumpDistance) && ledgeTarget == jumpTarget.transform &&
                (NearlyEqual(delta, Zero, 0.1) ==>
                   owner.movementAction == MovementAction.None && owner.actorLocation == old(owner.actorLocation)) &&
                (!NearlyEqual(delta, Zero, 0.1) ==>
                   owner.movementAction == old(owner.movementAction) &&
                   owner.actorLocation == interp(old(owner.actorLocation),
                     rotate(owner.actorRotation, JumpLocationFix(unrotate(owner.actorRotation, jumpTarget.transform.location),
                                                                 delta, animJumpDistance, jumpDistanceDiff)),
                     deltaTime, GetInterpSpeed(20.0, deltaTime)))
    {
      var c := owner.anim.curveValues;
      if !canJumpMove {
        var sample := Vec3(c(LocationDistance_X), c(LocationDistance_Y), c(LocationDistance_Z));
        if JumpMoveReady(sample, animJumpDistance) {
          canJumpMove := true;
        } else {
          animJumpDistance := sample;
          return;
        }
      }
      ledgeTarget := jumpTarget.transform;
      var delta := Vec3(c(LocationAmount_X), c(LocationAmount_Y), c(LocationAmount_Z));
      if NearlyEqual(delta, Zero, 0.1) {
        owner.SetMovementAction(MovementAction.None, false);
        return;
      }
      var loc := JumpLocationFix(unrotate(owner.actorRotation, ledgeTarget.location), delta, animJumpDistance, jumpDistanceDiff);
      owner.actorLocation := interp(owner.actorLocation, rotate(owner.actorRotation, loc), deltaTime, GetInterpSpeed(20.0, deltaTime));
    }

    /** Leaves climbing: falling movement, in-air state, no action, looking-direction desired. */
    method ExitClimbing()
      modifies owner.movement`movementMode, owner`movementState, owner`prevMovementState, owner`canInputMove,
        owner`inAirRotation, owner`requests, owner.anim`movementState, owner.anim`prevMovementState,
        owner`movementAction, owner.anim`movementAction, owner.anim`playing, owner`desiredRotationMode
      ensures owner.movement.movementMode == MoveFalling && owner.movementState == InAir
      ensures owner.movementAction == MovementAction.None && owner.desiredRotationMode == LookingDirection
      ensures old(owner.movementState) != InAir ==> owner.canInputMove
      ensures owner.inAirRotation ==
        (if old(owner.movementState) != InAir && old(owner.movementAction) == MovementAction.None then owner.actorRotation
         else old(owner.inAirRotation))
      ensures var a := old(owner.movementAction);
              var entered := old(owner.requests) +
                (if old(owner.movementState) != InAir then StateEntryRequests(InAir, a, owner.stance) else []);
              (a != MovementAction.None ==>
                 owner.anim.movementAction == MovementAction.None && owner.ActionHookDone(a, entered, old(owner.anim.playing))) &&
              (a == MovementAction.None ==> owner.requests == entered && owner.anim.playing == old(owner.anim.playing))
    {
      owner.SetEngineMovementMode(MoveFalling);
      owner.SetMovementState(InAir, false);
      owner.SetMovementAction(MovementAction.None, false);
      owner.SetDesiredRotationMode(LookingDirection);
    }

    /** A mantle is tried first, and a ledge grab only when the mantle check fails. */
    method MantleOrGrab(mantle: MantleProbe, settings: MantleTraceSettings, sweeps: nat -> LedgeSweep) returns (ok: bool)
      requires settings.forwardTraceRadius != 0.0
      modifies
        this`ledgeClimb, this`ledgeTarget,
        this`tickEnabled, this`mantleParams, this`mantleLedge, this`mantleTarget, this`mantleActualStartOffset,
        this`mantleAnimatedStartOffset, this`mantleTimeline,
        owner.movement`movementMode, owner`movementState, owner`prevMovementState, owner`canInputMove,
        owner`inAirRotation, owner`requests, owner.anim`movementState, owner.anim`prevMovementState,
        owner`rotationMode, owner`viewMode, owner.anim`rotationMode, owner.anim`viewMode,
        owner.movement`currentMovementSettings, owner.movement`requestMovementSettingsChange,
        owner`desiredRotationMode, owner`desiredLaddering, owner.anim`desiredLaddering
      ensures var r := MantleCheckResult(mantle, old(owner.movementState), old(owner.actorLocation), capsuleHalfHeight,
                                         acceptableVelocityWhileMantling);
              var found := FirstLedgeFrom(sweeps, 0, LedgeCandidateCount(settings));
              ok == (r.Some? || found.Some?) &&
              (r.Some? && r.value.ledge.component.Some? ==>
                MantleStarted(r.value, mantle.ledgeForward, old(owner.overlayState), old(ActorTransform()), old(owner.requests))) &&
              (r.None? && found.Some? ==> owner.movementState == Climbing && owner.movement.movementMode == MoveFlying) &&
              (r.None? && found.None? ==> unchanged(owner, owner.anim, owner.movement))
    {
      ok := MantleCheck(mantle);
      if !ok {
        ok := LadgeClimbCheck(settings, sweeps);
      }
    }

    /**
     * Jump pressed at time `now`. Without an action, on the ground with movement input or in
     * the air, a mantle is tried and, failing that, a ledge grab. Then, if the owner is
     * climbing, the jump is held: exit allowed, not blocked, and the input direction captured.
     */
    method OnOwnerJumpInput(now: real, mantle: MantleProbe, settings: MantleTraceSettings, sweeps: nat -> LedgeSweep)
      requires settings.forwardTraceRadius != 0.0
      modifies this`canExit, this`hasBlock, this`lastJumpInputTime, this`jumpPressed, this`jumpUpValue,
        this`jumpRightValue, this`ledgeClimb, this`ledgeTarget,
        this`tickEnabled, this`mantleParams, this`mantleLedge, this`mantleTarget, this`mantleActualStartOffset,
        this`mantleAnimatedStartOffset, this`mantleTimeline,
        owner.movement`movementMode, owner`movementState, owner`prevMovementState, owner`canInputMove,
        owner`inAirRotation, owner`requests, owner.anim`movementState, owner.anim`prevMovementState,
        owner`rotationMode, owner`viewMode, owner.anim`rotationMode, owner.anim`viewMode,
        owner.movement`currentMovementSettings, owner.movement`requestMovementSettingsChange,
        owner`desiredRotationMode, owner`desiredLaddering, owner.anim`desiredLaddering
      ensures owner.movementState == Climbing ==>
        canExit && !hasBlock && jumpPressed && lastJumpInputTime == now &&
        jumpUpValue == owner.forwardInputValue && jumpRightValue == owner.rightInputValue
      ensures owner.movementState != Climbing ==>
        !canExit && jumpPressed == old(jumpPressed) && hasBlock == old(hasBlock) &&
        lastJumpInputTime == old(lastJumpInputTime)
      ensures !(old(owner.movementAction) == MovementAction.None &&
                ((old(owner.movementState) == Grounded && old(owner.hasMovementInput)) || old(owner.movementState) == InAir)) ==>
        unchanged(owner, owner.anim, owner.movement)
      ensures old(owner.movementAction) == MovementAction.None &&
              ((old(owner.movementState) == Grounded && old(owner.hasMovementInput)) || old(owner.movementState) == InAir) &&
              MantleCheckResult(mantle, old(owner.movementState), old(owner.actorLocation), capsuleHalfHeight,
                                acceptableVelocityWhileMantling).None? &&
              FirstLedgeFrom(sweeps, 0, LedgeCandidateCount(settings)).Some? ==>
        owner.movementState == Climbing && jumpPressed && canExit
    {
      canExit := false;
      if owner.movementAction == MovementAction.None {
        if owner.movementState == Grounded {
          if owner.hasMovementInput {
            var _ := MantleOrGrab(mantle, settings, sweeps);
          }
        } else if owner.movementState == InAir {
          var _ := MantleOrGrab(mantle, settings, sweeps);
        }
      }
      if owner.movementState == Climbing {
        canExit := true;
        hasBlock := false;
        lastJumpInputTime := now;
        jumpPressed := true;
        jumpUpValue := owner.forwardInputValue;
        jumpRightValue := owner.rightInputValue;
      }
    }

    /**
     * Jump released while climbing. The jump is no longer held. When exit is allowed, an
     * upward input of more than 0.1 tries a mantle and anything else leaves climbing.
     * Otherwise an armed jump starts.
     */
    method OnOwnerJumpRelease(mantle: MantleProbe, cosAngle: real, sinAngle: real, unrotate: RotateVector)
      modifies this`jumpPressed, this`canJumping, this`jumpDistanceDiff, this`ledgeClimb, this`canJumpMove,
        owner.anim`jumpInClimbLR, owner.anim`jumpInClimbUD,
        this`tickEnabled, this`mantleParams, this`mantleLedge, this`mantleTarget, this`mantleActualStartOffset,
        this`mantleAnimatedStartOffset, this`mantleTimeline,
        owner.movement`movementMode, owner`movementState, owner`prevMovementState, owner`canInputMove,
        owner`inAirRotation, owner`requests, owner.anim`movementState, owner.anim`prevMovementState,
        owner`movementAction, owner.anim`movementAction, owner.anim`playing, owner`desiredRotationMode
      ensures old(owner.movementState) != Climbing ==> unchanged(this, owner, owner.anim, owner.movement)
      ensures old(owner.movementState) == Climbing ==> !jumpPressed
      ensures old(owner.movementState) == Climbing && old(canExit) && old(jumpUpValue) <= 0.1 ==>
        owner.movementState == InAir && owner.movementAction == MovementAction.None &&
        owner.desiredRotationMode == LookingDirection
      ensures old(owner.movementState) == Climbing && old(canExit) && old(jumpUpValue) > 0.1 ==>
        owner.desiredRotationMode == old(owner.desiredRotationMode) && canJumping == old(canJumping)
      ensures old(owner.movementState) == Climbing && old(canExit) && old(jumpUpValue) > 0.1 ==>
        var r := MantleCheckResult(mantle, old(owner.movementState), old(owner.actorLocation), capsuleHalfHeight,
                                   acceptableVelocityWhileMantling);
        (r.None? || r.value.ledge.component.None? ==> unchanged(owner, owner.anim, owner.movement)) &&
        (r.Some? && r.value.ledge.component.Some? ==>
          MantleStarted(r.value, mantle.ledgeForward, old(owner.overlayState), old(ActorTransform()), old(owner.requests)))
      ensures old(owner.movementState) == Climbing && !old(canExit) && old(canJumping) ==>
        ClimbJumpStarted(old(jumpLength) * cosAngle, old(jumpLength) * sinAngle, unrotate, old(owner.actorRotation),
                         old(owner.actorLocation), old(owner.movementAction), old(owner.requests), old(owner.anim.playing))
      ensures old(owner.movementState) == Climbing && !old(canExit) && !old(canJumping) ==>
        unchanged(owner, owner.anim, owner.movement) && !canJumping
    {
      if owner.movementState != Climbing {
        return;
      }
      var rightReach := jumpLength * cosAngle;
      var upReach := jumpLength * sinAngle;
      jumpPressed := false;
      if canExit {
        ReleaseToExit(mantle);
        return;
      }
      if canJumping {
        StartClimbJump(rightReach, upReach, unrotate);
      }
    }

    /** A release that may exit: an upward input of more than 0.1 tries a mantle, anything else leaves climbing. */
    method ReleaseToExit(mantle: MantleProbe)
      modifies this`tickEnabled, this`mantleParams, this`mantleLedge, this`mantleTarget, this`mantleActualStartOffset,
        this`mantleAnimatedStartOffset, this`mantleTimeline,
        owner.movement`movementMode, owner`movementState, owner`prevMovementState, owner`canInputMove,
        owner`inAirRotation, owner`requests, owner.anim`movementState, owner.anim`prevMovementState,
        owner`movementAction, owner.anim`movementAction, owner.anim`playing, owner`desiredRotationMode
      ensures jumpUpValue <= 0.1 ==>
        owner.movementState == InAir && owner.movementAction == MovementAction.None &&
        owner.desiredRotationMode == LookingDirection
      ensures jumpUpValue > 0.1 ==>
        owner.desiredRotationMode == old(owner.desiredRotationMode) && owner.movementAction == old(owner.movementAction)
      ensures jumpUpValue > 0.1 ==>
        var r := MantleCheckResult(mantle, old(owner.movementState), old(owner.actorLocation), capsuleHalfHeight,
                                   acceptableVelocityWhileMantling);
        (r.None? || r.value.ledge.component.None? ==> unchanged(this, owner, owner.anim, owner.movement)) &&
        (r.Some? && r.value.ledge.component.Some? ==>
          MantleStarted(r.value, mantle.ledgeForward, old(owner.overlayState), old(ActorTransform()), old(owner.requests)))
    {
      if jumpUpValue > 0.1 {
        var _ := MantleCheck(mantle);
      } else {
        ExitClimbing();
      }
    }

    /**
     * The outcome of starting an armed jump: nothing without a target component; otherwise
     * the jump is disarmed and its move not ready, the target is the ledge, the animation
     * gets the jump direction mapped into [-1, 1], the distance to cover is the actor's location
     * less the target's, both unrotated by the actor's rotation (`rotation0`, `location0`), and
     * the climb-jump action runs.
     */
    ghost predicate ClimbJumpStarted(rightReach: real, upReach: real, unrotate: RotateVector, rotation0: Rotator, location0: Vec3,
                                     action0: MovementAction, requests0: seq<EngineRequest>, playing0: set<SlotAnimation>)
      reads this, owner, owner.anim
    {
      if jumpTarget.component.None? then canJumping else
      var m := jumpParams.jumpLengthMax;
      !canJumping && !canJumpMove && ledgeClimb == jumpTarget &&
      jumpDistanceDiff == unrotate(rotation0, location0).Sub(unrotate(rotation0, jumpTarget.transform.location)) &&
      owner.anim.jumpInClimbLR == JumpDirectionValue(m, rightReach) &&
      owner.anim.jumpInClimbUD == JumpDirectionValue(m, upReach) &&
      owner.movementAction == ClimbJumping &&
      (action0 != ClimbJumping ==> owner.ActionHookDone(action0, requests0, playing0))
    }

    /** Starts an armed climb jump (the second half of the jump release). */
    method StartClimbJump(rightReach: real, upReach: real, unrotate: RotateVector)
      requires canJumping
      modifies this`canJumping, this`jumpDistanceDiff, this`ledgeClimb, this`canJumpMove,
        owner.anim`jumpInClimbLR, owner.anim`jumpInClimbUD,
        owner`movementAction, owner`requests, owner.anim`movementAction, owner.anim`playing
      ensures ClimbJumpStarted(rightReach, upReach, unrotate, old(owner.actorRotation), old(owner.actorLocation),
                               old(owner.movementAction), old(owner.requests), old(owner.anim.playing))
      ensures jumpTarget.component.None? ==> unchanged(this, owner, owner.anim)
    {
      if jumpTarget.component.None? {
        return;
      }
      canJumping := false;
      var m := jumpParams.jumpLengthMax;
      var rightValue := JumpDirectionValue(m, rightReach);
      var upValue := JumpDirectionValue(m, upReach);
      jumpDistanceDiff := unrotate(owner.actorRotation, owner.actorLocation).Sub(unrotate(owner.actorRotation, jumpTarget.transform.location));
      ledgeClimb := jumpTarget;
      canJumpMove := false;
      owner.anim.jumpInClimbLR := rightValue;
      owner.anim.jumpInClimbUD := upValue;
      owner.SetMovementAction(ClimbJumping, false);
    }
  }
}
