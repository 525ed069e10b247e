/**
 * The character state machine (ALSBaseCharacter.cpp): guarded setters that store the old
 * value and run a change hook, the hooks that mirror the state into the animation instance
 * and refresh the movement settings, the mutually recursive rotation-mode / view-mode
 * hooks, gait arbitration, and the input actions built on them.
 *
 * Engine calls whose effect happens elsewhere (crouch, jump, ragdoll, montages, delegate
 * broadcasts) are appended to the `requests` log instead of being carried out.
 */
module AlsCharacter {
  import opened Common
  import opened AlsEnums
  import opened AlsMovement
  import opened AlsAnim

  /** A request the character hands to the engine or to bound delegates. */
  datatype EngineRequest =
    | Crouch | UnCrouch | Jump | StopJumping
    | RagdollStart | RagdollEnd
    | JumpPressedBroadcast | JumpReleasedBroadcast
    | ClimbCornerBroadcast(param: CornerClimbParam)
    | PlayRollMontage(playRate: real)
    | PlayMontage(montage: nat, playRate: real, startPosition: real)

  /** Movement settings of one rotation mode, per stance. */
  datatype StanceSettings = StanceSettings(standing: MovementSettings, crouching: MovementSettings)

  /** The movement-model row: settings per rotation mode. */
  datatype MovementStateSettings = MovementStateSettings(
    velocityDirection: StanceSettings, lookingDirection: StanceSettings, aiming: StanceSettings)

  /**
   * The settings entry for a rotation mode and stance. The source's fall-back to the
   * velocity-direction standing entry cannot be reached with these enumerations.
   */
  function GetTargetMovementSettings(data: MovementStateSettings, r: RotationMode, s: Stance): MovementSettings
  {
    var row := match r
      case VelocityDirection => data.velocityDirection
      case LookingDirection => data.lookingDirection
      case Aiming => data.aiming;
    match s
    case Standing => row.standing
    case Crouching => row.crouching
  }

  /** The table with the entry for a rotation mode and stance replaced by `m`. */
  function WithEntry(data: MovementStateSettings, r: RotationMode, s: Stance, m: MovementSettings): MovementStateSettings
  {
    var row := match r
      case VelocityDirection => data.velocityDirection
      case LookingDirection => data.lookingDirection
      case Aiming => data.aiming;
    var row' := match s
      case Standing => row.(standing := m)
      case Crouching => row.(crouching := m);
    match r
    case VelocityDirection => data.(velocityDirection := row')
    case LookingDirection => data.(lookingDirection := row')
    case Aiming => data.(aiming := row')
  }

  /** Every rotation mode and stance reads its own table entry: replacing one entry changes that lookup and no other. */
  lemma TargetSettingsOwnEntry(data: MovementStateSettings, r: RotationMode, s: Stance, m: MovementSettings,
    r2: RotationMode, s2: Stance)
    ensures GetTargetMovementSettings(WithEntry(data, r, s, m), r2, s2) ==
      if r2 == r && s2 == s then m else GetTargetMovementSettings(data, r2, s2)
  {
  }

  /** The one combination the rotation/view hooks never leave behind. */
  predicate VelocityInFirstPerson(r: RotationMode, v: ViewMode)
  {
    r == VelocityDirection && v == FirstPerson
  }

  /**
   * Rotation mode the view-mode hook leaves behind: in third person, velocity and looking
   * direction give way to the desired rotation mode; in first person, velocity direction
   * becomes looking direction.
   */
  function RotationAfterViewChange(r: RotationMode, v: ViewMode, desired: RotationMode): RotationMode
  {
    if v == ThirdPerson then (if r == VelocityDirection || r == LookingDirection then desired else r)
    else if r == VelocityDirection then LookingDirection else r
  }

  /** Termination measure of the rotation/view hook cascade. */
  function CascadeRank(r: RotationMode, v: ViewMode): nat
  {
    if VelocityInFirstPerson(r, v) then 4 else 0
  }

  /** Sprinting is possible only with input, never while aiming, and looking direction needs a forward-ish input. */
  function CanSprint(hasMovementInput: bool, r: RotationMode, movementInputAmount: real, accelerationYaw: real, aimingYaw: real): (b: bool)
    ensures b ==> hasMovementInput && r != Aiming && movementInputAmount > 0.9
    ensures r == VelocityDirection ==> (b <==> hasMovementInput && movementInputAmount > 0.9)
    ensures r == LookingDirection ==>
      (b <==> hasMovementInput && movementInputAmount > 0.9 && Abs(NormalizeAxis(accelerationYaw - aimingYaw)) < 50.0)
  {
    if !hasMovementInput || r == Aiming then false
    else
      var validInputAmount := movementInputAmount > 0.9;
      if r == VelocityDirection then validInputAmount
      else validInputAmount && Abs(NormalizeAxis(accelerationYaw - aimingYaw)) < 50.0
  }

  /**
   * The gait the character may use: a desired sprint becomes a sprint only when standing,
   * not aiming and able to sprint, and a run otherwise; other desired gaits pass through.
   */
  function GetAllowedGait(s: Stance, r: RotationMode, desiredGait: Gait, canSprint: bool): (g: Gait)
    ensures g == Sprinting <==> s == Standing && r != Aiming && desiredGait == Sprinting && canSprint
    ensures desiredGait != Sprinting ==> g == desiredGait
    ensures desiredGait == Sprinting ==> g != Walking
  {
    if s == Standing && r != Aiming then
      if desiredGait == Sprinting then (if canSprint then Sprinting else Running) else desiredGait
    else if desiredGait == Sprinting then Running
    else desiredGait
  }

  /** The gait the character is actually moving at, from its speed and the settings' walk and run speeds. */
  function GetActualGait(settings: MovementSettings, speed: real, allowedGait: Gait): (g: Gait)
    ensures g == Sprinting <==> speed > settings.runSpeed + 10.0 && allowedGait == Sprinting
    ensures g == Walking <==> speed < settings.walkSpeed + 10.0 && speed <= settings.runSpeed + 10.0
  {
    if speed > settings.runSpeed + 10.0 then (if allowedGait == Sprinting then Sprinting else Running)
    else if speed >= settings.walkSpeed + 10.0 then Running
    else Walking
  }

  function GaitRank(g: Gait): nat
  {
    match g
    case Walking => 0
    case Running => 1
    case Sprinting => 2
  }

  /** With ordered speeds a faster character is never at a slower actual gait. */
  lemma ActualGaitMonotone(settings: MovementSettings, v: real, w: real, allowedGait: Gait)
    requires settings.Ordered() && v <= w
    ensures GaitRank(GetActualGait(settings, v, allowedGait)) <= GaitRank(GetActualGait(settings, w, allowedGait))
  {
  }

  /** The stance change a roll ending asks for: back to the desired stance. */
  function RollEndRequests(previous: MovementAction, desiredStance: Stance): seq<EngineRequest>
  {
    if previous == Rolling then [if desiredStance == Standing then UnCrouch else Crouch] else []
  }

  /**
   * Requests of the movement-state hook on entering `state` with `action` running: leaving
   * the ground with no action stands a crouching character up, leaving it mid-roll ragdolls.
   */
  function StateEntryRequests(state: MovementState, action: MovementAction, stance: Stance): seq<EngineRequest>
  {
    if state == InAir && action == MovementAction.None then (if stance == Crouching then [UnCrouch] else [])
    else if state == InAir && action == Rolling then [RagdollStart]
    else []
  }

  predicate NoDuplicates(s: seq<OverlayState>)
  {
    forall i, j :: 0 <= i < j < |s| ==> s[i] != s[j]
  }

  class Character {
    const movement: CharacterMovementComponent
    const anim: AnimInstance
    /** The movement-model row loaded at begin play. */
    var movementData: MovementStateSettings

    // Input.
    var desiredRotationMode: RotationMode
    var desiredGait: Gait
    var desiredStance: Stance
    var canInputMove: bool
    var lastStanceInputTime: real
    var forwardInputValue: real
    var rightInputValue: real

    // State values.
    var movementState: MovementState
    var prevMovementState: MovementState
    var movementAction: MovementAction
    var rotationMode: RotationMode
    var gait: Gait
    var stance: Stance
    var viewMode: ViewMode
    var overlayState: OverlayState
    var overlayStates: seq<OverlayState>
    /** Identity of the visible skeletal mesh (0 for none). */
    var visibleMesh: nat
    /**
     * The skeletal mesh the mesh component displays: the character's asset mesh until the
     * visible mesh changes, and the visible mesh after that.
     */
    var displayedMesh: nat

    // Climbing.
    var desiredLaddering: bool
    var rotateInClimbAngle: real
    var climbingType: ClimbingType

    // Essential information.
    var hasMovementInput: bool
    var movementInputAmount: real
    var speed: real
    var accelerationYaw: real
    var aimingYaw: real
    var actorLocation: Vec3
    var actorRotation: Rotator
    var targetRotation: Rotator
    var lastVelocityRotation: Rotator
    var inAirRotation: Rotator

    /** Engine requests issued so far. */
    var requests: seq<EngineRequest>

    /** The animation instance shows the character's state values. */
    predicate StateMirrored()
      reads this`movementState, this`prevMovementState, this`movementAction, this`rotationMode, this`gait, this`stance, this`viewMode,
        this`overlayState, anim`movementState, anim`prevMovementState, anim`movementAction, anim`rotationMode, anim`gait,
        anim`stance, anim`viewMode, anim`overlayState
    {
      anim.movementState == movementState && anim.prevMovementState == prevMovementState &&
      anim.movementAction == movementAction && anim.rotationMode == rotationMode &&
      anim.gait == gait && anim.stance == stance && anim.viewMode == viewMode &&
      anim.overlayState == overlayState
    }

    /** The movement component holds the settings for the current rotation mode and stance. */
    predicate SettingsMatch()
      reads this`rotationMode, this`stance, this`movementData, movement`currentMovementSettings
    {
      movement.currentMovementSettings == GetTargetMovementSettings(movementData, rotationMode, stance)
    }

    /** What begin play establishes and every operation below keeps. */
    predicate Synced()
      reads this`movementState, this`prevMovementState, this`movementAction, this`rotationMode, this`gait, this`stance, this`viewMode,
        this`overlayState, anim`movementState, anim`prevMovementState, anim`movementAction, anim`rotationMode, anim`gait,
        anim`stance, anim`viewMode, anim`overlayState, this`movementData, movement`currentMovementSettings
    {
      StateMirrored() && SettingsMatch() && !VelocityInFirstPerson(rotationMode, viewMode)
    }

    /**
     * Header defaults; the overlay list starts with the five unarmed states. No visible mesh
     * is set, so the mesh component shows the asset mesh `assetMesh`.
     */
    constructor (movement: CharacterMovementComponent, anim: AnimInstance, movementData: MovementStateSettings, assetMesh: nat)
      ensures this.movement == movement && this.anim == anim && this.movementData == movementData
      ensures visibleMesh == 0 && displayedMesh == assetMesh
      ensures desiredRotationMode == LookingDirection && desiredGait == Running && desiredStance == Standing
      ensures movementState == MovementState.None && prevMovementState == MovementState.None
      ensures movementAction == MovementAction.None
      ensures rotationMode == LookingDirection && gait == Walking && stance == Standing && viewMode == ThirdPerson
      ensures overlayState == Default && overlayStates == [Default, Masculine, Feminine, Injured, HandsTied]
      ensures NoDuplicates(overlayStates)
      ensures !canInputMove && !desiredLaddering && requests == []
    {
      this.movement := movement;
      this.anim := anim;
      this.movementData := movementData;
      desiredRotationMode := LookingDirection;
      desiredGait := Running;
      desiredStance := Standing;
      canInputMove := false;
      lastStanceInputTime := 0.0;
      forwardInputValue := 0.0;
      rightInputValue := 0.0;
      movementState := MovementState.None;
      prevMovementState := MovementState.None;
      movementAction := MovementAction.None;
      rotationMode := LookingDirection;
      gait := Walking;
      stance := Standing;
      viewMode := ThirdPerson;
      overlayState := Default;
      overlayStates := [Default, Masculine, Feminine, Injured, HandsTied];
      visibleMesh := 0;
      displayedMesh := assetMesh;
      desiredLaddering := false;
      rotateInClimbAngle := 0.0;
      climbingType := Hanging;
      hasMovementInput := false;
      movementInputAmount := 0.0;
      speed := 0.0;
      accelerationYaw := 0.0;
      aimingYaw := 0.0;
      actorLocation := Zero;
      actorRotation := ZeroRotator;
      targetRotation := ZeroRotator;
      lastVelocityRotation := ZeroRotator;
      inAirRotation := ZeroRotator;
      requests := [];
    }

    /**
     * Begin play: force the state through every hook, match the engine crouch to the
     * stance, seed the rotations and push the target settings.
     */
    method BeginPlay()
      modifies this, anim`movementState, anim`prevMovementState, anim`movementAction, anim`rotationMode,
        anim`gait, anim`stance, anim`viewMode, anim`overlayState, anim`lastOverlayState, anim`playing,
        movement`currentMovementSettings, movement`requestMovementSettingsChange
      ensures Synced() && movement.requestMovementSettingsChange
      ensures gait == desiredGait && stance == desiredStance && rotationMode == desiredRotationMode
      ensures actorRotation == old(actorRotation)
      ensures targetRotation == actorRotation && lastVelocityRotation == actorRotation
      ensures overlayStates == old(overlayStates)
      ensures movementState == old(movementState) && movementAction == old(movementAction)
      ensures inAirRotation == (if movementState == InAir && movementAction == MovementAction.None then actorRotation else old(inAirRotation))
      ensures anim.playing == ActionHookPlaying(old(anim.playing))
      ensures requests == old(requests) + StateEntryRequests(movementState, movementAction, stance) +
                          ActionHookRequests(movementAction, old(anim.playing)) + [if stance == Standing then UnCrouch else Crouch]
    {
      ForceUpdateCharacterState();
      ghost var hooked := requests;
      assert hooked == old(requests) + StateEntryRequests(movementState, movementAction, stance) +
                       ActionHookRequests(movementAction, old(anim.playing));
      assert anim.playing == ActionHookPlaying(old(anim.playing));
      if stance == Standing {
        requests := requests + [UnCrouch];
      } else {
        requests := requests + [Crouch];
      }
      targetRotation := actorRotation;
      lastVelocityRotation := targetRotation;
      movement.SetMovementSettings(GetTargetMovementSettings(movementData, rotationMode, stance));
    }

    // ---------------------------------------------------------------------------------
    // Guarded setters and their hooks.

    method SetMovementState(newState: MovementState, force: bool)
      modifies this`movementState, this`prevMovementState, this`canInputMove, this`inAirRotation, this`requests,
        anim`movementState, anim`prevMovementState
      ensures !(force || old(movementState) != newState) ==>
        unchanged(this`movementState, this`prevMovementState, this`canInputMove, this`inAirRotation, this`requests) &&
        unchanged(anim`movementState, anim`prevMovementState)
      ensures force || old(movementState) != newState ==>
        prevMovementState == old(movementState) && movementState == newState &&
        anim.movementState == movementState && anim.prevMovementState == prevMovementState &&
        (canInputMove <==> newState == Grounded || newState == InAir)
      ensures force || old(movementState) != newState ==>
        StateHookDone(old(inAirRotation), old(requests))
    {
      if force || movementState != newState {
        prevMovementState := movementState;
        movementState := newState;
        OnMovementStateChanged(prevMovementState);
      }
    }

    /**
     * The effect of the movement-state hook for the current state, given the in-air rotation
     * and requests before it: leaving the ground with no action captures the actor rotation
     * as the in-air rotation, and the requests grow by StateEntryRequests.
     */
    ghost predicate StateHookDone(inAirRotation0: Rotator, requests0: seq<EngineRequest>)
      reads this
    {
      inAirRotation == (if movementState == InAir && movementAction == MovementAction.None then actorRotation else inAirRotation0) &&
      requests == requests0 + StateEntryRequests(movementState, movementAction, stance)
    }

    /**
     * Mirrors the state, allows movement input exactly when grounded or in the air, and on
     * leaving the ground captures the in-air rotation and stands up, or ragdolls out of a roll.
     */
    method OnMovementStateChanged(previous: MovementState)
      modifies this`canInputMove, this`inAirRotation, this`requests, anim`movementState, anim`prevMovementState
      ensures anim.movementState == movementState && anim.prevMovementState == prevMovementState
      ensures canInputMove <==> movementState == Grounded || movementState == InAir
      ensures StateHookDone(old(inAirRotation), old(requests))
    {
      anim.prevMovementState := prevMovementState;
      anim.movementState := movementState;
      canInputMove := movementState == Grounded || movementState == InAir;
      if movementState == InAir {
        if movementAction == MovementAction.None {
          inAirRotation := actorRotation;
          if stance == Crouching {
            requests := requests + [UnCrouch];
          }
        } else if movementAction == Rolling {
          requests := requests + [RagdollStart];
        }
      }
    }

    method SetMovementAction(newAction: MovementAction, force: bool)
      modifies this`movementAction, this`requests, anim`movementAction, anim`playing
      ensures !(force || old(movementAction) != newAction) ==>
        unchanged(this`movementAction, this`requests) && unchanged(anim`movementAction, anim`playing)
      ensures force || old(movementAction) != newAction ==>
        movementAction == newAction && anim.movementAction == newAction &&
        ActionHookDone(old(movementAction), old(requests), old(anim.playing))
    {
      if force || movementAction != newAction {
        var prev := movementAction;
        movementAction := newAction;
        OnMovementActionChanged(prev);
      }
    }

    /**
     * The effect of the action hook for `previous` on the requests and the playing slot
     * animations: a roll crouches; a corner climb starts the corner asset for the current
     * climbing type and side and, unless it was already playing, broadcasts its parameters
     * (play-rate scale 0.8, start time 0); ending a roll restores the desired stance.
     */
    ghost predicate ActionHookDone(previous: MovementAction, requests0: seq<EngineRequest>, playing0: set<SlotAnimation>)
      reads this, anim
    {
      anim.playing == ActionHookPlaying(playing0) && requests == requests0 + ActionHookRequests(previous, playing0)
    }

    /** The slot animations playing after the action hook: a corner climb adds its corner asset. */
    ghost function ActionHookPlaying(playing0: set<SlotAnimation>): set<SlotAnimation>
      reads this`movementAction, this`rightInputValue, anim`climbingType
    {
      if movementAction == CornerClimbing then playing0 + {Corner(SelectCornerAsset(anim.climbingType, rightInputValue > 0.2))}
      else playing0
    }

    /** The requests the action hook for `previous` appends. */
    ghost function ActionHookRequests(previous: MovementAction, playing0: set<SlotAnimation>): seq<EngineRequest>
      reads this`movementAction, this`desiredStance, this`rightInputValue, anim`climbingType, anim`cornerAssets
    {
      var tail := RollEndRequests(previous, desiredStance);
      if movementAction == CornerClimbing then
        var asset := SelectCornerAsset(anim.climbingType, rightInputValue > 0.2);
        var cfg := anim.cornerAssets(asset);
        (if Corner(asset) in playing0 then [] else [ClimbCornerBroadcast(CornerClimbParam(cfg.timeLength, 0.0, cfg.ScaledPlayRate(0.8)))]) + tail
      else
        (if movementAction == Rolling then [Crouch] else []) + tail
    }

    method OnMovementActionChanged(previous: MovementAction)
      modifies this`requests, anim`movementAction, anim`playing
      ensures anim.movementAction == movementAction
      ensures ActionHookDone(previous, old(requests), old(anim.playing))
    {
      anim.movementAction := movementAction;
      if movementAction == Rolling {
        requests := requests + [Crouch];
      } else if movementAction == CornerClimbing {
        var param := anim.StartCornerClimb(rightInputValue > 0.2, rotateInClimbAngle, 0.8, 0.0, false);
        if param.Some? {
          requests := requests + [ClimbCornerBroadcast(param.value)];
        }
      }
      requests := requests + RollEndRequests(previous, desiredStance);
    }

    method SetStance(newStance: Stance, force: bool)
      modifies this`stance, anim`stance, movement`currentMovementSettings, movement`requestMovementSettingsChange
      ensures !(force || old(stance) != newStance) ==> stance == old(stance) && unchanged(anim`stance) && unchanged(movement)
      ensures force || old(stance) != newStance ==>
        stance == newStance && anim.stance == stance && SettingsMatch() && movement.requestMovementSettingsChange
    {
      if force || stance != newStance {
        var prev := stance;
        stance := newStance;
        OnStanceChanged(prev);
      }
    }

    method OnStanceChanged(previous: Stance)
      modifies anim`stance, movement`currentMovementSettings, movement`requestMovementSettingsChange
      ensures anim.stance == stance && SettingsMatch() && movement.requestMovementSettingsChange
    {
      anim.stance := stance;
      movement.SetMovementSettings(GetTargetMovementSettings(movementData, rotationMode, stance));
    }

    method SetGait(newGait: Gait, force: bool)
      modifies this`gait, anim`gait
      ensures !(force || old(gait) != newGait) ==> gait == old(gait) && anim.gait == old(anim.gait)
      ensures force || old(gait) != newGait ==> gait == newGait && anim.gait == gait
    {
      if force || gait != newGait {
        var prev := gait;
        gait := newGait;
        OnGaitChanged(prev);
      }
    }

    method OnGaitChanged(previous: Gait)
      modifies anim`gait
      ensures anim.gait == gait
    {
      anim.gait := gait;
    }

    method SetOverlayState(newState: OverlayState, force: bool)
      modifies this`overlayState, anim`overlayState, anim`lastOverlayState
      ensures !(force || old(overlayState) != newState) ==>
        overlayState == old(overlayState) && unchanged(anim`overlayState, anim`lastOverlayState)
      ensures force || old(overlayState) != newState ==>
        overlayState == newState && anim.overlayState == newState && anim.lastOverlayState == old(overlayState)
    {
      if force || overlayState != newState {
        var prev := overlayState;
        overlayState := newState;
        OnOverlayStateChanged(prev);
      }
    }

    method OnOverlayStateChanged(previous: OverlayState)
      modifies anim`overlayState, anim`lastOverlayState
      ensures anim.overlayState == overlayState && anim.lastOverlayState == previous
    {
      anim.overlayState := overlayState;
      anim.lastOverlayState := previous;
    }

    // ---------------------------------------------------------------------------------
    // The rotation-mode / view-mode cascade. Each hook may call the other setter; the
    // recursion ends because a hook only calls back when it leaves a state of lower rank.

    method SetRotationMode(newMode: RotationMode, force: bool)
      modifies this`rotationMode, this`viewMode, anim`rotationMode, anim`viewMode,
        movement`currentMovementSettings, movement`requestMovementSettingsChange
      ensures old(anim.rotationMode == rotationMode) ==> anim.rotationMode == rotationMode
      ensures old(anim.viewMode == viewMode) ==> anim.viewMode == viewMode
      ensures old(SettingsMatch()) ==> SettingsMatch()
      ensures !(force || old(rotationMode) != newMode) ==>
        rotationMode == old(rotationMode) && viewMode == old(viewMode) && unchanged(movement)
      ensures force || old(rotationMode) != newMode ==>
        anim.rotationMode == rotationMode && SettingsMatch() && movement.requestMovementSettingsChange &&
        !VelocityInFirstPerson(rotationMode, viewMode) &&
        if VelocityInFirstPerson(newMode, old(viewMode)) then viewMode == ThirdPerson && rotationMode == desiredRotationMode
        else rotationMode == newMode && viewMode == old(viewMode)
      decreases CascadeRank(newMode, viewMode) + 1
    {
      if force || rotationMode != newMode {
        var prev := rotationMode;
        rotationMode := newMode;
        OnRotationModeChanged(prev);
      }
    }

    /**
     * Mirrors the rotation mode; velocity direction in first person switches the view to
     * third person; then the movement settings follow the new rotation mode.
     */
    method OnRotationModeChanged(previous: RotationMode)
      modifies this`rotationMode, this`viewMode, anim`rotationMode, anim`viewMode,
        movement`currentMovementSettings, movement`requestMovementSettingsChange
      ensures anim.rotationMode == rotationMode && SettingsMatch() && movement.requestMovementSettingsChange
      ensures old(anim.viewMode == viewMode) ==> anim.viewMode == viewMode
      ensures !VelocityInFirstPerson(rotationMode, viewMode)
      ensures VelocityInFirstPerson(old(rotationMode), old(viewMode)) ==>
        viewMode == ThirdPerson && rotationMode == desiredRotationMode
      ensures !VelocityInFirstPerson(old(rotationMode), old(viewMode)) ==>
        rotationMode == old(rotationMode) && viewMode == old(viewMode)
      decreases CascadeRank(rotationMode, viewMode)
    {
      anim.rotationMode := rotationMode;
      if rotationMode == VelocityDirection && viewMode == FirstPerson {
        SetViewMode(ThirdPerson, false);
      }
      movement.SetMovementSettings(GetTargetMovementSettings(movementData, rotationMode, stance));
    }

    method SetViewMode(newMode: ViewMode, force: bool)
      modifies this`rotationMode, this`viewMode, anim`rotationMode, anim`viewMode,
        movement`currentMovementSettings, movement`requestMovementSettingsChange
      ensures old(anim.rotationMode == rotationMode) ==> anim.rotationMode == rotationMode
      ensures old(anim.viewMode == viewMode) ==> anim.viewMode == viewMode
      ensures old(SettingsMatch()) ==> SettingsMatch()
      ensures old(movement.requestMovementSettingsChange) ==> movement.requestMovementSettingsChange
      ensures !(force || old(viewMode) != newMode) ==>
        rotationMode == old(rotationMode) && viewMode == old(viewMode) && unchanged(movement)
      ensures force || old(viewMode) != newMode ==>
        viewMode == newMode && anim.viewMode == viewMode &&
        rotationMode == RotationAfterViewChange(old(rotationMode), newMode, desiredRotationMode) &&
        !VelocityInFirstPerson(rotationMode, viewMode)
      decreases 3
    {
      if force || viewMode != newMode {
        var prev := viewMode;
        viewMode := newMode;
        OnViewModeChanged(prev);
      }
    }

    /**
     * Mirrors the view mode; third person hands velocity and looking direction over to the
     * desired rotation mode, first person turns velocity direction into looking direction.
     */
    method OnViewModeChanged(previous: ViewMode)
      modifies this`rotationMode, this`viewMode, anim`rotationMode, anim`viewMode,
        movement`currentMovementSettings, movement`requestMovementSettingsChange
      ensures viewMode == old(viewMode) && anim.viewMode == viewMode
      ensures old(anim.rotationMode == rotationMode) ==> anim.rotationMode == rotationMode
      ensures old(SettingsMatch()) ==> SettingsMatch()
      ensures old(movement.requestMovementSettingsChange) ==> movement.requestMovementSettingsChange
      ensures rotationMode == RotationAfterViewChange(old(rotationMode), viewMode, desiredRotationMode)
      ensures !VelocityInFirstPerson(rotationMode, viewMode)
      decreases 2
    {
      anim.viewMode := viewMode;
      if viewMode == ThirdPerson {
        if rotationMode == VelocityDirection || rotationMode == LookingDirection {
          SetRotationMode(desiredRotationMode, false);
        }
      } else if viewMode == FirstPerson && rotationMode == VelocityDirection {
        SetRotationMode(LookingDirection, false);
      }
    }

    // ---------------------------------------------------------------------------------
    // Plain setters.

    method SetDesiredStance(newStance: Stance)
      modifies this`desiredStance
      ensures desiredStance == newStance
    {
      desiredStance := newStance;
    }

    method SetDesiredGait(newGait: Gait)
      modifies this`desiredGait
      ensures desiredGait == newGait
    {
      desiredGait := newGait;
    }

    method SetDesiredRotationMode(newMode: RotationMode)
      modifies this`desiredRotationMode
      ensures desiredRotationMode == newMode
    {
      desiredRotationMode := newMode;
    }

    method SetDesiredLaddering(newState: bool)
      modifies this`desiredLaddering, anim`desiredLaddering
      ensures desiredLaddering == newState && anim.desiredLaddering == newState
    {
      desiredLaddering := newState;
      anim.desiredLaddering := desiredLaddering;
    }

    method SetRotateInClimbAngle(angle: real)
      modifies this`rotateInClimbAngle, anim`rotateInClimbAngle
      ensures rotateInClimbAngle == angle && anim.rotateInClimbAngle == angle
    {
      rotateInClimbAngle := angle;
      anim.rotateInClimbAngle := rotateInClimbAngle;
    }

    method SetClimbingType(newType: ClimbingType)
      modifies this`climbingType, anim`climbingType
      ensures climbingType == newType && anim.climbingType == newType
    {
      climbingType := newType;
      anim.climbingType := climbingType;
    }

    method SetCanInputMove(newState: bool, force: bool)
      modifies this`canInputMove
      ensures canInputMove == newState
    {
      if force || canInputMove != newState {
        canInputMove := newState;
      }
    }

    /** Adds an overlay state unless it is already in the list. */
    method AddOverlayState(state: OverlayState)
      modifies this`overlayStates
      ensures state in overlayStates
      ensures forall s :: s in overlayStates <==> s in old(overlayStates) || s == state
      ensures state in old(overlayStates) ==> overlayStates == old(overlayStates)
      ensures state !in old(overlayStates) ==> overlayStates == old(overlayStates) + [state]
      ensures NoDuplicates(old(overlayStates)) ==> NoDuplicates(overlayStates)
    {
      if state !in overlayStates {
        overlayStates := overlayStates + [state];
      }
    }

    /**
     * Re-applies every state value through its forced setter, in the source's order, so
     * the animation instance and the movement settings agree with the character again.
     */
    method ForceUpdateCharacterState()
      modifies this`gait, this`stance, this`rotationMode, this`viewMode, this`overlayState,
        this`movementState, this`prevMovementState, this`canInputMove, this`inAirRotation, this`requests,
        this`movementAction,
        anim`movementState, anim`prevMovementState, anim`movementAction, anim`rotationMode,
        anim`gait, anim`stance, anim`viewMode, anim`overlayState, anim`lastOverlayState, anim`playing,
        movement`currentMovementSettings, movement`requestMovementSettingsChange
      ensures Synced() && movement.requestMovementSettingsChange
      ensures gait == desiredGait && stance == desiredStance && rotationMode == desiredRotationMode
      ensures viewMode == (if VelocityInFirstPerson(desiredRotationMode, old(viewMode)) then ThirdPerson else old(viewMode))
      ensures overlayState == old(overlayState) && anim.lastOverlayState == overlayState
      ensures movementState == old(movementState) && prevMovementState == movementState
      ensures movementAction == old(movementAction)
      ensures canInputMove <==> movementState == Grounded || movementState == InAir
      ensures inAirRotation == (if movementState == InAir && movementAction == MovementAction.None then actorRotation else old(inAirRotation))
      ensures ActionHookDone(movementAction, old(requests) + StateEntryRequests(movementState, movementAction, stance), old(anim.playing))
    {
      ForceLocomotionModes();
      ForceStatusValues();
    }

    /** The first four forced setters of the state update: gait, stance, rotation mode and view mode. */
    method ForceLocomotionModes()
      modifies this`gait, this`stance, this`rotationMode, this`viewMode,
        anim`rotationMode, anim`gait, anim`stance, anim`viewMode,
        movement`currentMovementSettings, movement`requestMovementSettingsChange
      ensures anim.rotationMode == rotationMode && anim.gait == gait && anim.stance == stance && anim.viewMode == viewMode
      ensures SettingsMatch() && !VelocityInFirstPerson(rotationMode, viewMode) && movement.requestMovementSettingsChange
      ensures gait == desiredGait && stance == desiredStance && rotationMode == desiredRotationMode
      ensures viewMode == (if VelocityInFirstPerson(desiredRotationMode, old(viewMode)) then ThirdPerson else old(viewMode))
    {
      SetGait(desiredGait, true);
      SetStance(desiredStance, true);
      SetRotationMode(desiredRotationMode, true);
      SetViewMode(viewMode, true);
    }

    /** The last three forced setters of the state update: overlay state, movement state and movement action. */
    method ForceStatusValues()
      modifies this`overlayState, this`movementState, this`prevMovementState, this`canInputMove, this`inAirRotation,
        this`requests, this`movementAction,
        anim`movementState, anim`prevMovementState, anim`movementAction, anim`overlayState, anim`lastOverlayState, anim`playing
      ensures anim.movementState == movementState && anim.prevMovementState == prevMovementState
      ensures anim.movementAction == movementAction && anim.overlayState == overlayState
      ensures overlayState == old(overlayState) && anim.lastOverlayState == overlayState
      ensures movementState == old(movementState) && prevMovementState == movementState
      ensures movementAction == old(movementAction)
      ensures canInputMove <==> movementState == Grounded || movementState == InAir
      ensures inAirRotation == (if movementState == InAir && movementAction == MovementAction.None then actorRotation else old(inAirRotation))
      ensures ActionHookDone(movementAction, old(requests) + StateEntryRequests(movementState, movementAction, stance), old(anim.playing))
    {
      SetOverlayState(overlayState, true);
      SetMovementState(movementState, true);
      SetMovementAction(movementAction, true);
    }

    /**
     * Changing the visible mesh puts it on the mesh component and forces the character state
     * through its hooks again.
     */
    method SetVisibleMesh(newMesh: nat)
      modifies this`visibleMesh, this`displayedMesh, this`gait, this`stance, this`rotationMode, this`viewMode, this`overlayState,
        this`movementState, this`prevMovementState, this`canInputMove, this`inAirRotation, this`requests,
        this`movementAction,
        anim`movementState, anim`prevMovementState, anim`movementAction, anim`rotationMode,
        anim`gait, anim`stance, anim`viewMode, anim`overlayState, anim`lastOverlayState, anim`playing,
        movement`currentMovementSettings, movement`requestMovementSettingsChange
      ensures visibleMesh == newMesh
      ensures displayedMesh == (if old(visibleMesh) != newMesh then newMesh else old(displayedMesh))
      ensures old(visibleMesh) == newMesh ==>
        unchanged(this`gait, this`stance, this`rotationMode, this`viewMode, this`requests) && unchanged(anim) && unchanged(movement)
      ensures old(visibleMesh) != newMesh ==>
        Synced() && gait == desiredGait && stance == desiredStance && rotationMode == desiredRotationMode
      ensures old(visibleMesh) != newMesh ==>
        inAirRotation == (if movementState == InAir && movementAction == MovementAction.None then actorRotation else old(inAirRotation)) &&
        ActionHookDone(movementAction, old(requests) + StateEntryRequests(movementState, movementAction, stance), old(anim.playing))
    {
      if visibleMesh != newMesh {
        visibleMesh := newMesh;
        displayedMesh := newMesh;
        ForceUpdateCharacterState();
      }
    }

    /** The engine movement mode decides between grounded and in air; other modes leave the state alone. */
    method OnMovementModeChanged()
      modifies this`movementState, this`prevMovementState, this`canInputMove, this`inAirRotation, this`requests,
        anim`movementState, anim`prevMovementState
      ensures movement.movementMode == MoveWalking || movement.movementMode == MoveNavWalking ==>
        movementState == Grounded && (old(movementState) != Grounded ==> canInputMove)
      ensures movement.movementMode == MoveFalling ==> movementState == InAir && (old(movementState) != InAir ==> canInputMove)
      ensures !(movement.movementMode in {MoveWalking, MoveNavWalking, MoveFalling}) ==>
        unchanged(this`movementState, this`prevMovementState, this`canInputMove, this`inAirRotation, this`requests) &&
        unchanged(anim`movementState, anim`prevMovementState)
      ensures movementState != old(movementState) ==> StateHookDone(old(inAirRotation), old(requests))
      ensures movementState == old(movementState) ==> unchanged(this`inAirRotation, this`requests)
      ensures old(StateMirrored()) ==> StateMirrored()
    {
      if movement.movementMode == MoveWalking || movement.movementMode == MoveNavWalking {
        SetMovementState(Grounded, false);
      } else if movement.movementMode == MoveFalling {
        SetMovementState(InAir, false);
      }
    }

    /**
     * The engine's movement-mode change: the character's hook runs only when the mode
     * actually changes.
     */
    method SetEngineMovementMode(mode: EngineMovementMode)
      modifies movement`movementMode, this`movementState, this`prevMovementState, this`canInputMove,
        this`inAirRotation, this`requests, anim`movementState, anim`prevMovementState
      ensures movement.movementMode == mode
      ensures old(movement.movementMode) == mode || !(mode in {MoveWalking, MoveNavWalking, MoveFalling}) ==>
        unchanged(this`movementState, this`prevMovementState, this`canInputMove, this`inAirRotation, this`requests) &&
        unchanged(anim`movementState, anim`prevMovementState)
      ensures old(movement.movementMode) != mode && (mode == MoveWalking || mode == MoveNavWalking) ==>
        movementState == Grounded && (old(movementState) != Grounded ==> canInputMove)
      ensures old(movement.movementMode) != mode && mode == MoveFalling ==>
        movementState == InAir && (old(movementState) != InAir ==> canInputMove)
      ensures movementState != old(movementState) ==> StateHookDone(old(inAirRotation), old(requests))
      ensures movementState == old(movementState) ==> unchanged(this`inAirRotation, this`requests)
      ensures old(StateMirrored()) ==> StateMirrored()
    {
      if movement.movementMode != mode {
        movement.movementMode := mode;
        OnMovementModeChanged();
      }
    }

    /** Moves the actor and makes the new rotation the rotation target as well. */
    method SetActorLocationAndTargetRotation(newLocation: Vec3, newRotation: Rotator)
      modifies this`actorLocation, this`actorRotation, this`targetRotation
      ensures actorLocation == newLocation && actorRotation == newRotation && targetRotation == newRotation
    {
      actorLocation := newLocation;
      actorRotation := newRotation;
      targetRotation := newRotation;
    }

    /** Engine crouch callbacks set the stance. */
    method OnStartCrouch()
      modifies this`stance, anim`stance, movement`currentMovementSettings, movement`requestMovementSettingsChange
      ensures stance == Crouching
      ensures old(Synced()) ==> Synced()
    {
      SetStance(Crouching, false);
    }

    method OnEndCrouch()
      modifies this`stance, anim`stance, movement`currentMovementSettings, movement`requestMovementSettingsChange
      ensures stance == Standing
      ensures old(Synced()) ==> Synced()
    {
      SetStance(Standing, false);
    }

    /** At a jump the in-air rotation follows the velocity when faster than 100, the actor otherwise. */
    method EventOnJumped()
      modifies this`inAirRotation, anim`jumped, anim`jumpPlayRate
      ensures inAirRotation == (if speed > 100.0 then lastVelocityRotation else actorRotation)
      ensures anim.jumped && anim.jumpPlayRate == MapRangeClamped(0.0, 600.0, 1.2, 1.5, anim.speed)
    {
      inAirRotation := if speed > 100.0 then lastVelocityRotation else actorRotation;
      anim.OnJumped();
    }

    /**
     * Per-tick gait update: the actual gait follows from the allowed gait and the speed, and
     * the allowed gait is handed to the movement component.
     */
    method UpdateCharacterMovement(isLocallyControlled: bool, hasAuthority: bool)
      modifies this`gait, anim`gait, movement`allowedGait, movement`requestMovementSettingsChange,
        movement`maxWalkSpeed, movement`maxWalkSpeedCrouched
      ensures var allowed := GetAllowedGait(stance, rotationMode, desiredGait,
                CanSprint(hasMovementInput, rotationMode, movementInputAmount, accelerationYaw, aimingYaw));
              gait == GetActualGait(movement.currentMovementSettings, speed, allowed) &&
              (isLocallyControlled ==> movement.allowedGait == allowed)
      ensures old(anim.gait == gait) ==> anim.gait == gait
    {
      var allowed := GetAllowedGait(stance, rotationMode, desiredGait,
        CanSprint(hasMovementInput, rotationMode, movementInputAmount, accelerationYaw, aimingYaw));
      var actual := GetActualGait(movement.currentMovementSettings, speed, allowed);
      if actual != gait {
        SetGait(actual, false);
      }
      movement.SetAllowedGait(allowed, isLocallyControlled, hasAuthority);
    }

    // ---------------------------------------------------------------------------------
    // Input actions.

    /** Broadcasts, then jumps when standing on the ground, stands up when crouched, or leaves ragdoll. */
    method JumpPressedAction()
      modifies this`requests
      ensures requests == old(requests) + [JumpPressedBroadcast] +
        (if movementAction != MovementAction.None then []
         else if movementState == Grounded then [if stance == Standing then Jump else UnCrouch]
         else if movementState == Ragdoll then [RagdollEnd]
         else [])
    {
      requests := requests + [JumpPressedBroadcast];
      if movementAction == MovementAction.None {
        if movementState == Grounded {
          if stance == Standing {
            requests := requests + [Jump];
          } else {
            requests := requests + [UnCrouch];
          }
        } else if movementState == Ragdoll {
          requests := requests + [RagdollEnd];
        }
      }
    }

    method JumpReleasedAction()
      modifies this`requests
      ensures requests == old(requests) + [JumpReleasedBroadcast, StopJumping]
    {
      requests := requests + [JumpReleasedBroadcast];
      requests := requests + [StopJumping];
    }

    method SprintPressedAction()
      modifies this`desiredGait
      ensures desiredGait == Sprinting
    {
      SetDesiredGait(Sprinting);
    }

    method SprintReleasedAction()
      modifies this`desiredGait
      ensures desiredGait == Running
    {
      SetDesiredGait(Running);
    }

    /** Toggles the desired gait between walking and running; a desired sprint is left alone. */
    method WalkPressedAction()
      modifies this`desiredGait
      ensures old(desiredGait) == Walking ==> desiredGait == Running
      ensures old(desiredGait) == Running ==> desiredGait == Walking
      ensures old(desiredGait) == Sprinting ==> desiredGait == Sprinting
    {
      if desiredGait == Walking {
        SetDesiredGait(Running);
      } else if desiredGait == Running {
        SetDesiredGait(Walking);
      }
    }

    /** Aiming never needs a view change. */
    method AimPressedAction()
      requires Synced()
      modifies this`rotationMode, this`viewMode, anim`rotationMode, anim`viewMode,
        movement`currentMovementSettings, movement`requestMovementSettingsChange
      ensures Synced()
      ensures rotationMode == Aiming && viewMode == old(viewMode)
    {
      SetRotationMode(Aiming, false);
    }

    /** Releasing aim returns to the desired rotation mode in third person and to looking direction in first person. */
    method AimReleasedAction()
      requires Synced()
      modifies this`rotationMode, this`viewMode, anim`rotationMode, anim`viewMode,
        movement`currentMovementSettings, movement`requestMovementSettingsChange
      ensures Synced()
      ensures viewMode == old(viewMode)
      ensures rotationMode == (if viewMode == ThirdPerson then desiredRotationMode else LookingDirection)
    {
      if viewMode == ThirdPerson {
        SetRotationMode(desiredRotationMode, false);
      } else {
        SetRotationMode(LookingDirection, false);
      }
    }

    /** Holding the camera action toggles between first and third person. */
    method OnSwitchCameraMode()
      requires Synced()
      modifies this`rotationMode, this`viewMode, anim`rotationMode, anim`viewMode,
        movement`currentMovementSettings, movement`requestMovementSettingsChange
      ensures Synced()
      ensures viewMode != old(viewMode)
      ensures rotationMode == RotationAfterViewChange(old(rotationMode), viewMode, desiredRotationMode)
    {
      if viewMode == FirstPerson {
        SetViewMode(ThirdPerson, false);
      } else {
        SetViewMode(FirstPerson, false);
      }
    }

    /** Choosing velocity direction also leaves first person. */
    method VelocityDirectionPressedAction()
      requires Synced()
      modifies this`desiredRotationMode, this`rotationMode, this`viewMode, anim`rotationMode, anim`viewMode,
        movement`currentMovementSettings, movement`requestMovementSettingsChange
      ensures Synced()
      ensures desiredRotationMode == VelocityDirection && rotationMode == VelocityDirection
      ensures viewMode == ThirdPerson
    {
      SetDesiredRotationMode(VelocityDirection);
      SetRotationMode(VelocityDirection, false);
    }

    method LookingDirectionPressedAction()
      requires Synced()
      modifies this`desiredRotationMode, this`rotationMode, this`viewMode, anim`rotationMode, anim`viewMode,
        movement`currentMovementSettings, movement`requestMovementSettingsChange
      ensures Synced()
      ensures desiredRotationMode == LookingDirection && rotationMode == LookingDirection
      ensures viewMode == old(viewMode)
    {
      SetDesiredRotationMode(LookingDirection);
      SetRotationMode(LookingDirection, false);
    }

    /**
     * Stance input at time `now`, only without a movement action: a second press within the
     * 0.3 s double-tap timeout plays the roll montage and flips the desired stance; a single
     * press on the ground flips the desired stance and asks for the matching crouch.
     */
    method StancePressedAction(now: real)
      modifies this`lastStanceInputTime, this`desiredStance, this`requests
      ensures movementAction != MovementAction.None ==>
        unchanged(this`lastStanceInputTime, this`desiredStance, this`requests)
      ensures movementAction == MovementAction.None ==> lastStanceInputTime == now
      ensures movementAction == MovementAction.None && now - old(lastStanceInputTime) <= 0.3 ==>
        requests == old(requests) + [PlayRollMontage(1.15)] &&
        desiredStance == (if stance == Standing then Crouching else Standing)
      ensures movementAction == MovementAction.None && now - old(lastStanceInputTime) > 0.3 ==>
        if movementState == Grounded then
          desiredStance == (if stance == Standing then Crouching else Standing) &&
          requests == old(requests) + [if stance == Standing then Crouch else UnCrouch]
        else desiredStance == old(desiredStance) && requests == old(requests)
    {
      if movementAction != MovementAction.None {
        return;
      }
      var prevStanceInputTime := lastStanceInputTime;
      lastStanceInputTime := now;
      if lastStanceInputTime - prevStanceInputTime <= 0.3 {
        requests := requests + [PlayRollMontage(1.15)];
        if stance == Standing {
          SetDesiredStance(Crouching);
        } else {
          SetDesiredStance(Standing);
        }
        return;
      }
      if movementState == Grounded {
        if stance == Standing {
          SetDesiredStance(Crouching);
          requests := requests + [Crouch];
        } else {
          SetDesiredStance(Standing);
          requests := requests + [UnCrouch];
        }
      }
    }

    /** Toggles ragdoll. */
    method RagdollPressedAction()
      modifies this`requests
      ensures requests == old(requests) + [if movementState == Ragdoll then RagdollEnd else RagdollStart]
    {
      if movementState == Ragdoll {
        requests := requests + [RagdollEnd];
      } else {
        requests := requests + [RagdollStart];
      }
    }
  }
}
