/**
 * Root-motion modifiers of the motion-warping plugin (RootMotionModifier.cpp): the
 * Waiting / Active / Disabled / MarkedForRemoval life cycle that follows the playback
 * position of the montage, the warp modifier's target caching, the warp target's
 * transform lookup, and the guards of the simple warp's translation.
 *
 * The character, its root-motion montage and the scene components are seen through
 * what they report (parameters). Delegates and virtual hooks are recorded in an event log.
 * Quaternion maths (transform composition, rotation warping) is passed in.
 */
module MotionWarping {
  import opened Common

  datatype ModifierState = Waiting | Active | Disabled | MarkedForRemoval

  /** Delegates and hooks a modifier fires, in order. */
  datatype ModifierEvent = Activated | Deactivated | Updated | TargetTransformChanged

  /** Where the owning character stands: rotation, actor location and capsule half height. */
  datatype CharacterPose = CharacterPose(rotation: Rotator, location: Vec3, capsuleHalfHeight: real)

  /** How the modifier reaches its owner: no motion-warping component, a component without a character, or both. */
  datatype OwnerLink = NoOwnerComponent | NoCharacter | WithCharacter(pose: CharacterPose)
  {
    predicate HasComponent() { !NoOwnerComponent? }
  }

  /** The character's root-motion montage instance: which montage and its playback. */
  datatype MontagePlayback = MontagePlayback(montage: nat, previousPosition: real, position: real, weight: real)

  /** The delegate a state change fires: activation on entering Active, deactivation on leaving it to be disabled or removed. */
  function TransitionEvents(last: ModifierState, next: ModifierState, owner: OwnerLink): (r: seq<ModifierEvent>)
    ensures |r| <= 1
    ensures r == [Activated] <==> owner.HasComponent() && last != Active && next == Active
    ensures r == [Deactivated] <==> owner.HasComponent() && last == Active && (next == Disabled || next == MarkedForRemoval)
  {
    if !owner.HasComponent() || last == next then []
    else if last != Active && next == Active then [Activated]
    else if last == Active && (next == Disabled || next == MarkedForRemoval) then [Deactivated]
    else []
  }

  /** The montage still plays this modifier's animation. */
  predicate MontageMatches(montage: Option<MontagePlayback>, animation: Option<nat>)
  {
    montage.Some? && animation == Some(montage.value.montage)
  }

  /**
   * The state after an update with a character: removal when the montage no longer plays the
   * animation or the previous position has reached the window's end; a waiting modifier
   * becomes active inside the window [start, end); any other state stays.
   */
  function UpdatedState(s: ModifierState, matches: bool, previous: real, startTime: real, endTime: real): (r: ModifierState)
    ensures r == MarkedForRemoval <==> !matches || previous >= endTime || s == MarkedForRemoval
  {
    if !matches || previous >= endTime then MarkedForRemoval
    else if startTime <= previous < endTime && s == Waiting then Active
    else s
  }

  /** A waiting modifier becomes active exactly inside the window, and only while its montage plays. */
  lemma WaitingActivatesInWindow(matches: bool, previous: real, startTime: real, endTime: real)
    ensures UpdatedState(Waiting, matches, previous, startTime, endTime) == Active <==>
            matches && startTime <= previous < endTime
    ensures UpdatedState(Waiting, matches, previous, startTime, endTime) == Waiting <==>
            matches && previous < startTime && previous < endTime
  {
  }

  /** Removal is final, and a disabled modifier never becomes active again. */
  lemma UpdatedStateAbsorbing(matches: bool, previous: real, startTime: real, endTime: real)
    ensures UpdatedState(MarkedForRemoval, matches, previous, startTime, endTime) == MarkedForRemoval
    ensures UpdatedState(Disabled, matches, previous, startTime, endTime) != Active
    ensures UpdatedState(Active, matches, previous, startTime, endTime) in {Active, MarkedForRemoval}
  {
  }

  /** Whatever the updates, a modifier is active only after some update found the window open. */
  lemma {:induction false} ActiveNeedsOpenWindow(s: ModifierState, steps: seq<(bool, real)>, startTime: real, endTime: real)
    requires s == Waiting
    ensures UpdatedStates(s, steps, startTime, endTime) == Active ==>
            exists k :: 0 <= k < |steps| && steps[k].0 && startTime <= steps[k].1 < endTime
    decreases |steps|
  {
    if |steps| > 0 {
      var s1 := UpdatedState(s, steps[0].0, steps[0].1, startTime, endTime);
      if s1 == Waiting {
        ActiveNeedsOpenWindow(s1, steps[1..], startTime, endTime);
        if UpdatedStates(s, steps, startTime, endTime) == Active {
          var k :| 0 <= k < |steps[1..]| && steps[1..][k].0 && startTime <= steps[1..][k].1 < endTime;
          assert steps[k + 1] == steps[1..][k];
        }
      } else if s1 == Active {
        assert steps[0].0 && startTime <= steps[0].1 < endTime;
      } else {
        assert s1 == MarkedForRemoval;
        RemovalStays(steps[1..], startTime, endTime);
      }
    }
  }

  /** The state after a run of updates, each given as (montage matches, previous position). */
  function UpdatedStates(s: ModifierState, steps: seq<(bool, real)>, startTime: real, endTime: real): (r: ModifierState)
    ensures r == Waiting ==> s == Waiting
    ensures s == Active ==> r == Active || r == MarkedForRemoval
    ensures s == Disabled ==> r == Disabled || r == MarkedForRemoval
    ensures s == MarkedForRemoval ==> r == MarkedForRemoval
    decreases |steps|
  {
    if |steps| == 0 then s
    else UpdatedStates(UpdatedState(s, steps[0].0, steps[0].1, startTime, endTime), steps[1..], startTime, endTime)
  }

  lemma {:induction false} RemovalStays(steps: seq<(bool, real)>, startTime: real, endTime: real)
    ensures UpdatedStates(MarkedForRemoval, steps, startTime, endTime) == MarkedForRemoval
    decreases |steps|
  {
    if |steps| > 0 {
      RemovalStays(steps[1..], startTime, endTime);
    }
  }

  class RootMotionModifier {
    /** The animation this modifier belongs to, and its warping window. */
    const animation: Option<nat>
    const startTime: real
    const endTime: real

    var state: ModifierState
    var previousPosition: real
    var currentPosition: real
    var weight: real
    var actualStartTime: real
    var startTransform: Transform
    var events: seq<ModifierEvent>

    constructor (animation: Option<nat>, startTime: real, endTime: real)
      ensures this.animation == animation && this.startTime == startTime && this.endTime == endTime
      ensures state == Waiting && events == []
    {
      this.animation := animation;
      this.startTime := startTime;
      this.endTime := endTime;
      state := Waiting;
      previousPosition := 0.0;
      currentPosition := 0.0;
      weight := 0.0;
      actualStartTime := 0.0;
      startTransform := Identity;
      events := [];
    }

    /**
     * What the state-change hook leaves behind after `last`: on entering Active the actual
     * start time is the previous position and the start transform is the character's
     * feet (actor location lowered by the capsule half height); the matching delegate is logged.
     */
    ghost predicate StateChangeDone(last: ModifierState, owner: OwnerLink, actual0: real, start0: Transform,
                                    events0: seq<ModifierEvent>)
      reads this
    {
      events == events0 + TransitionEvents(last, state, owner) &&
      if owner.WithCharacter? && last != Active && state == Active then
        actualStartTime == previousPosition &&
        startTransform == Transform(owner.pose.rotation, owner.pose.location.Sub(Vec3(0.0, 0.0, owner.pose.capsuleHalfHeight)))
      else
        actualStartTime == actual0 && startTransform == start0
    }

    /** Changes the state and runs the hook, only for a different state. Entering Active needs the character. */
    method SetState(newState: ModifierState, owner: OwnerLink)
      requires owner.NoCharacter? ==> newState != Active || state == Active
      modifies this`state, this`actualStartTime, this`startTransform, this`events
      ensures state == newState
      ensures old(state) == newState ==> unchanged(this)
      ensures StateChangeDone(old(state), owner, old(actualStartTime), old(startTransform), old(events))
    {
      if state != newState {
        var last := state;
        state := newState;
        OnStateChanged(last, owner);
      }
    }

    method OnStateChanged(last: ModifierState, owner: OwnerLink)
      requires owner.NoCharacter? ==> last == Active || state != Active
      modifies this`actualStartTime, this`startTransform, this`events
      ensures StateChangeDone(last, owner, old(actualStartTime), old(startTransform), old(events))
    {
      if owner.HasComponent() {
        if last != Active && state == Active {
          var pose := owner.pose;
          actualStartTime := previousPosition;
          startTransform := Transform(pose.rotation, pose.location.Sub(Vec3(0.0, 0.0, pose.capsuleHalfHeight)));
          events := events + [Activated];
        } else if last == Active && (state == Disabled || state == MarkedForRemoval) {
          events := events + [Deactivated];
        }
      }
    }

    /**
     * The state an update leads to: with a character, UpdatedState over the playback position
     * just read; without one, the old state.
     */
    twostate function StateAfterUpdate(owner: OwnerLink, montage: Option<MontagePlayback>): ModifierState
      reads this
    {
      if owner.WithCharacter? then
        UpdatedState(old(state), MontageMatches(montage, animation), previousPosition, startTime, endTime)
      else old(state)
    }

    /** The delegates an update fires: the state change's, then the update's while active; none without a character. */
    twostate function EventsOfUpdate(owner: OwnerLink, montage: Option<MontagePlayback>): seq<ModifierEvent>
      reads this
    {
      if owner.WithCharacter? then
        var next := StateAfterUpdate(owner, montage);
        TransitionEvents(old(state), next, owner) + (if next == Active then [Updated] else [])
      else []
    }

    /**
     * What an update does to everything but the state and the log: with a character and a
     * montage still playing the animation, the positions and weight come from the montage,
     * otherwise they stay; entering Active records the actual start time and the character's
     * feet as start transform, otherwise both stay.
     */
    twostate predicate PlaybackUpdated(owner: OwnerLink, montage: Option<MontagePlayback>)
      reads this
    {
      (if owner.WithCharacter? && MontageMatches(montage, animation) then
         previousPosition == montage.value.previousPosition && currentPosition == montage.value.position &&
         weight == montage.value.weight
       else
         previousPosition == old(previousPosition) && currentPosition == old(currentPosition) &&
         weight == old(weight)) &&
      (if owner.WithCharacter? && old(state) != Active && StateAfterUpdate(owner, montage) == Active then
         actualStartTime == previousPosition &&
         startTransform == Transform(owner.pose.rotation, owner.pose.location.Sub(Vec3(0.0, 0.0, owner.pose.capsuleHalfHeight)))
       else
         actualStartTime == old(actualStartTime) && startTransform == old(startTransform))
    }

    /**
     * One update. Without a character nothing happens. The playback positions and weight are
     * taken from the montage when it still plays the animation; the state follows UpdatedState,
     * the state change fires its delegate, and an active modifier fires its update delegate.
     */
    method Update(owner: OwnerLink, montage: Option<MontagePlayback>)
      modifies this`state, this`previousPosition, this`currentPosition, this`weight, this`actualStartTime,
        this`startTransform, this`events
      ensures !owner.WithCharacter? ==> unchanged(this)
      ensures PlaybackUpdated(owner, montage)
      ensures state == StateAfterUpdate(owner, montage)
      ensures events == old(events) + EventsOfUpdate(owner, montage)
    {
      if !owner.WithCharacter? {
        return;
      }
      if !MontageMatches(montage, animation) {
        SetState(MarkedForRemoval, owner);
        return;
      }
      previousPosition := montage.value.previousPosition;
      currentPosition := montage.value.position;
      weight := montage.value.weight;
      if previousPosition >= endTime {
        SetState(MarkedForRemoval, owner);
        return;
      }
      if previousPosition >= startTime && previousPosition < endTime {
        if state == Waiting {
          SetState(Active, owner);
        }
      }
      if state == Active {
        events := events + [Updated];
      }
    }
  }

  // ---------------------------------------------------------------------------------
  // Warp targets.

  /** A warp target: the scene component it follows, the bone on it, whether it follows, and the stored transform. */
  datatype WarpTarget = WarpTarget(component: Option<nat>, boneName: Option<nat>, followComponent: bool, transform: Transform)

  /** What the scene reports about components: validity, transforms, and socket lookup. */
  datatype SceneQuery = SceneQuery(
    componentValid: nat -> bool,
    componentTransform: nat -> Transform,
    socketExists: (nat, nat) -> bool,
    socketTransform: (nat, nat) -> Transform)

  /** The transform of a component's socket: identity without a component, the component's own without the socket. */
  function TransformFromComponent(q: SceneQuery, component: Option<nat>, bone: nat): (t: Transform)
    ensures component.None? ==> t == Identity
    ensures component.Some? && !q.socketExists(component.value, bone) ==> t == q.componentTransform(component.value)
    ensures component.Some? && q.socketExists(component.value, bone) ==> t == q.socketTransform(component.value, bone)
  {
    if component.None? then Identity
    else if !q.socketExists(component.value, bone) then q.componentTransform(component.value)
    else q.socketTransform(component.value, bone)
  }

  /** The transform of a bone on a component, or of the component itself when no bone is named. */
  function LiveTransform(q: SceneQuery, component: nat, boneName: Option<nat>): Transform
  {
    if boneName.Some? then TransformFromComponent(q, Some(component), boneName.value) else q.componentTransform(component)
  }

  /** Creating a target snapshots the bone's (or the component's) transform. */
  function MakeWarpTarget(q: SceneQuery, component: nat, boneName: Option<nat>, followComponent: bool): (r: WarpTarget)
    ensures r.component == Some(component) && r.boneName == boneName && r.followComponent == followComponent
    ensures GetTargetTransform(r, q) == r.transform
  {
    WarpTarget(Some(component), boneName, followComponent, LiveTransform(q, component, boneName))
  }

  /** The stored transform, unless the target follows a component that is still valid. */
  function GetTargetTransform(t: WarpTarget, q: SceneQuery): (r: Transform)
    ensures !(t.component.Some? && q.componentValid(t.component.value) && t.followComponent) ==> r == t.transform
  {
    if t.component.Some? && q.componentValid(t.component.value) && t.followComponent then
      LiveTransform(q, t.component.value, t.boneName)
    else t.transform
  }

  /**
   * A target that does not follow keeps reporting the transform it was created with,
   * whatever the scene later reports; a following one reports the scene's current
   * transform while its component is valid.
   */
  lemma WarpTargetFollows(created: SceneQuery, later: SceneQuery, component: nat, boneName: Option<nat>, follow: bool)
    ensures !follow ==>
      GetTargetTransform(MakeWarpTarget(created, component, boneName, follow), later) == LiveTransform(created, component, boneName)
    ensures follow && later.componentValid(component) ==>
      GetTargetTransform(MakeWarpTarget(created, component, boneName, follow), later) == LiveTransform(later, component, boneName)
    ensures follow && !later.componentValid(component) ==>
      GetTargetTransform(MakeWarpTarget(created, component, boneName, follow), later) == LiveTransform(created, component, boneName)
  {
  }

  /** Where the warp point comes from in the animation, if anywhere. */
  datatype WarpPointAnimProvider = NoProvider | Static | Bone

  /** Engine transform composition (quaternion maths). */
  type Compose = (Transform, Transform) -> Transform

  /** The warp modifier on top of a base modifier: its target name, the cached target and the cached animation offset. */
  class WarpModifier {
    const base: RootMotionModifier
    const warpTargetName: nat
    const warpPointAnimProvider: WarpPointAnimProvider

    var cachedTargetTransform: Transform
    var cachedOffsetFromWarpPoint: Option<Transform>

    constructor (base: RootMotionModifier, warpTargetName: nat, provider: WarpPointAnimProvider)
      ensures this.base == base && this.warpTargetName == warpTargetName && warpPointAnimProvider == provider
      ensures cachedTargetTransform == Identity && cachedOffsetFromWarpPoint.None?
    {
      this.base := base;
      this.warpTargetName := warpTargetName;
      warpPointAnimProvider := provider;
      cachedTargetTransform := Identity;
      cachedOffsetFromWarpPoint := None;
    }

    /** The target the warp aims for: the game's warp point, offset by the animation's warp point when there is one. */
    function TargetFor(game: Transform, compose: Compose): Transform
      reads this
    {
      if warpPointAnimProvider != NoProvider && cachedOffsetFromWarpPoint.Some? then
        compose(cachedOffsetFromWarpPoint.value, game)
      else game
    }

    /**
     * The base update, then for an active modifier: no target disables it; otherwise the
     * offset from the animation's warp point is computed once (`animOffset`, when a
     * character is there to compute it), and the target is cached, firing the change hook,
     * only when it differs from the cached one.
     */
    method Update(owner: OwnerLink, montage: Option<MontagePlayback>, findTarget: nat -> Option<WarpTarget>,
                  scene: SceneQuery, animOffset: Transform, compose: Compose, equal: (Transform, Transform) -> bool)
      modifies base`state, base`previousPosition, base`currentPosition, base`weight, base`actualStartTime,
        base`startTransform, base`events, this`cachedTargetTransform, this`cachedOffsetFromWarpPoint
      ensures !(owner.HasComponent() && base.state == Active) ==>
        cachedTargetTransform == old(cachedTargetTransform) && cachedOffsetFromWarpPoint == old(cachedOffsetFromWarpPoint)
      ensures owner.WithCharacter? && findTarget(warpTargetName).None? &&
              UpdatedState(old(base.state), MontageMatches(montage, base.animation), base.previousPosition,
                           base.startTime, base.endTime) == Active ==>
        base.state == Disabled && |base.events| > 0 && base.events[|base.events| - 1] == Deactivated
      ensures owner.HasComponent() && base.state == Active ==>
        findTarget(warpTargetName).Some? &&
        var target := TargetFor(GetTargetTransform(findTarget(warpTargetName).value, scene), compose);
        (equal(old(cachedTargetTransform), target) ==> cachedTargetTransform == old(cachedTargetTransform)) &&
        (!equal(old(cachedTargetTransform), target) ==>
           cachedTargetTransform == target &&
           |base.events| > 0 && base.events[|base.events| - 1] == TargetTransformChanged)
      ensures warpPointAnimProvider != NoProvider && old(cachedOffsetFromWarpPoint).Some? ==>
        cachedOffsetFromWarpPoint == old(cachedOffsetFromWarpPoint)
      ensures base.PlaybackUpdated(owner, montage)
      ensures var next := base.StateAfterUpdate(owner, montage);
        var logged := old(base.events) + base.EventsOfUpdate(owner, montage);
        if owner.HasComponent() && next == Active && findTarget(warpTargetName).None? then
          base.state == Disabled && base.events == logged + [Deactivated]
        else if owner.HasComponent() && next == Active then
          var target := TargetFor(GetTargetTransform(findTarget(warpTargetName).value, scene), compose);
          base.state == Active &&
          base.events == logged + (if equal(old(cachedTargetTransform), target) then [] else [TargetTransformChanged])
        else
          base.state == next && base.events == logged
    {
      base.Update(owner, montage);
      if owner.HasComponent() && base.state == Active {
        var t := findTarget(warpTargetName);
        if t.None? {
          base.SetState(Disabled, owner);
          return;
        }
        var game := GetTargetTransform(t.value, scene);
        if warpPointAnimProvider != NoProvider && cachedOffsetFromWarpPoint.None? && owner.WithCharacter? {
          cachedOffsetFromWarpPoint := Some(animOffset);
        }
        var target := TargetFor(game, compose);
        if !equal(cachedTargetTransform, target) {
          cachedTargetTransform := target;
          base.events := base.events + [TargetTransformChanged];
        }
      }
    }
  }

  // ---------------------------------------------------------------------------------
  // Simple warp.

  /** Engine FMath::IsNearlyZero with its default tolerance. */
  predicate IsNearlyZero(x: real) { Abs(x) <= 0.00000001 }

  /** The warped share of the remaining distance: this step's share of the animation's motion, scaled to the target. */
  function WarpedDistance(delta: real, target: real, original: real): (r: real)
    ensures IsNearlyZero(original) ==> r == 0.0
  {
    if !IsNearlyZero(original) then delta * target / original else 0.0
  }

  /** When this step covers all the motion left in the animation, it covers all the distance to the target. */
  lemma WarpedDistanceFullStep(original: real, target: real)
    requires !IsNearlyZero(original)
    ensures WarpedDistance(original, target, original) == target
  {
  }

  /** Without motion in this step there is no warped motion, and the warped motion grows with the step. */
  lemma WarpedDistanceMonotone(d1: real, d2: real, target: real, original: real)
    requires original > 0.00000001 && target >= 0.0 && d1 <= d2
    ensures WarpedDistance(0.0, target, original) == 0.0
    ensures WarpedDistance(d1, target, original) <= WarpedDistance(d2, target, original)
  {
    ScaleMonotone(d1, d2, target);
    DivMonotone(d1 * target, d2 * target, original);
  }

  /** The simple warp's switches. */
  datatype SimpleWarpSettings = SimpleWarpSettings(warpTranslation: bool, ignoreZAxis: bool, warpRotation: bool)

  /** What the simple warp measures: horizontal and vertical motion of this step and of the rest of the window, and the distances to the target. */
  datatype WarpMeasure = WarpMeasure(
    /** Unit horizontal direction toward the target, in the space the root motion is expressed in. */
    direction: Vec3,
    horizontalDelta: real, horizontalTarget: real, horizontalOriginal: real,
    verticalDelta: real, verticalTarget: real, verticalOriginal: real)

  /** A root-motion step: translation and rotation. */
  datatype RootMotion = RootMotion(translation: Vec3, rotation: Rotator)

  /** The warped translation: direction times the warped horizontal distance, then the vertical axis. */
  function SimpleWarpTranslation(input: Vec3, ignoreZAxis: bool, m: WarpMeasure): (r: Vec3)
    ensures IsNearlyZero(m.horizontalOriginal) ==> r.x == 0.0 && r.y == 0.0
    ensures ignoreZAxis ==> r.z == input.z
    ensures !ignoreZAxis && IsNearlyZero(m.verticalOriginal) ==> r.z == 0.0
  {
    var horizontal := m.direction.Scale(WarpedDistance(m.horizontalDelta, m.horizontalTarget, m.horizontalOriginal));
    horizontal.(z := if ignoreZAxis then input.z else WarpedDistance(m.verticalDelta, m.verticalTarget, m.verticalOriginal))
  }

  /** The simple warp: without a character the root motion is unchanged; otherwise translation and rotation are warped as switched on. */
  function SimpleWarpRootMotion(input: RootMotion, hasCharacter: bool, s: SimpleWarpSettings, m: WarpMeasure,
                                warpedRotation: Rotator): (r: RootMotion)
    ensures !hasCharacter ==> r == input
    ensures !s.warpTranslation ==> r.translation == input.translation
    ensures !s.warpRotation ==> r.rotation == input.rotation
  {
    if !hasCharacter then input
    else
      var t := if s.warpTranslation then SimpleWarpTranslation(input.translation, s.ignoreZAxis, m) else input.translation;
      RootMotion(t, if s.warpRotation then warpedRotation else input.rotation)
  }
}
