/**
 * Gait and movement-settings bookkeeping of the character movement component
 * (ALSCharacterMovementComponent.cpp): the mapped-speed curve position, the allowed
 * gait guard, the settings-change request flag, and the saved-move / compressed-flag
 * path that carries that flag across the network prediction layer.
 */
module AlsMovement {
  import opened Common
  import opened AlsEnums

  /** The speed part of a movement-settings entry (the curves are not modelled). */
  datatype MovementSettings = MovementSettings(walkSpeed: real, runSpeed: real, sprintSpeed: real)
  {
    /** Speed configured for a gait. */
    function GetSpeedForGait(g: Gait): real
    {
      match g
      case Walking => walkSpeed
      case Running => runSpeed
      case Sprinting => sprintSpeed
    }

    predicate Ordered() { 0.0 < walkSpeed < runSpeed < sprintSpeed }
  }

  /**
   * Position of a planar speed on the 0..3 movement curve axis
   * (0 stopped, 1 walk speed, 2 run speed, 3 sprint speed).
   */
  function GetMappedSpeed(s: MovementSettings, speed: real): (r: real)
    ensures 0.0 <= r <= 3.0
  {
    if speed > s.runSpeed then MapRangeClamped(s.runSpeed, s.sprintSpeed, 2.0, 3.0, speed)
    else if speed > s.walkSpeed then MapRangeClamped(s.walkSpeed, s.runSpeed, 1.0, 2.0, speed)
    else MapRangeClamped(0.0, s.walkSpeed, 0.0, 1.0, speed)
  }

  /** With ordered speeds the configured speeds land exactly on the integer marks. */
  lemma MappedSpeedMarks(s: MovementSettings)
    requires s.Ordered()
    ensures GetMappedSpeed(s, 0.0) == 0.0
    ensures GetMappedSpeed(s, s.walkSpeed) == 1.0
    ensures GetMappedSpeed(s, s.runSpeed) == 2.0
    ensures GetMappedSpeed(s, s.sprintSpeed) == 3.0
  {
    MapRangeClampedEnds(0.0, s.walkSpeed, 0.0, 1.0, 0.0);
    MapRangeClampedEnds(0.0, s.walkSpeed, 0.0, 1.0, s.walkSpeed);
    MapRangeClampedEnds(s.walkSpeed, s.runSpeed, 1.0, 2.0, s.runSpeed);
    MapRangeClampedEnds(s.runSpeed, s.sprintSpeed, 2.0, 3.0, s.sprintSpeed);
  }

  /** Which of the three segments of the curve axis a speed falls in. */
  function Segment(s: MovementSettings, speed: real): nat
  {
    if speed > s.runSpeed then 2 else if speed > s.walkSpeed then 1 else 0
  }

  lemma SegmentBounds(s: MovementSettings, speed: real)
    requires s.Ordered()
    ensures Segment(s, speed) as real <= GetMappedSpeed(s, speed) <= Segment(s, speed) as real + 1.0
  {
  }

  /** With ordered speeds the mapped speed never decreases as the speed grows. */
  lemma MappedSpeedMonotone(s: MovementSettings, v: real, w: real)
    requires s.Ordered() && v <= w
    ensures GetMappedSpeed(s, v) <= GetMappedSpeed(s, w)
  {
    SegmentBounds(s, v);
    SegmentBounds(s, w);
    if Segment(s, v) == Segment(s, w) {
      if Segment(s, v) == 2 {
        MapRangeClampedMonotone(s.runSpeed, s.sprintSpeed, 2.0, 3.0, v, w);
      } else if Segment(s, v) == 1 {
        MapRangeClampedMonotone(s.walkSpeed, s.runSpeed, 1.0, 2.0, v, w);
      } else {
        MapRangeClampedMonotone(0.0, s.walkSpeed, 0.0, 1.0, v, w);
      }
    }
  }

  /** FSavedMove_Character flag bits that the engine base class reserves, and the custom bit used here. */
  const FLAG_JumpPressed: bv8 := 0x01
  const FLAG_WantsToCrouch: bv8 := 0x02
  const FLAG_Custom_0: bv8 := 0x10

  /** The request flag as decoded from a compressed-flags byte. */
  predicate RequestFlagOf(flags: bv8)
  {
    flags & FLAG_Custom_0 != 0
  }

  class CharacterMovementComponent {
    var currentMovementSettings: MovementSettings
    var requestMovementSettingsChange: bool
    var allowedGait: Gait
    var maxWalkSpeed: real
    var maxWalkSpeedCrouched: real
    /** The engine's movement mode for this component. */
    var movementMode: EngineMovementMode

    /** Header defaults: a settings change is pending and the allowed gait is Walking. */
    constructor (settings: MovementSettings, walkSpeed: real)
      ensures currentMovementSettings == settings
      ensures requestMovementSettingsChange && allowedGait == Walking
      ensures maxWalkSpeed == walkSpeed && maxWalkSpeedCrouched == walkSpeed
      ensures movementMode == MoveNone
    {
      currentMovementSettings := settings;
      requestMovementSettingsChange := true;
      allowedGait := Walking;
      maxWalkSpeed := walkSpeed;
      maxWalkSpeedCrouched := walkSpeed;
      movementMode := MoveNone;
    }

    /**
     * After a movement update: a pending settings change applies the allowed gait's speed to
     * both speed caps and clears the request; nothing happens without an owning character.
     */
    method OnMovementUpdated(hasCharacterOwner: bool)
      modifies this`requestMovementSettingsChange, this`maxWalkSpeed, this`maxWalkSpeedCrouched
      ensures hasCharacterOwner && old(requestMovementSettingsChange) ==>
        !requestMovementSettingsChange &&
        maxWalkSpeed == currentMovementSettings.GetSpeedForGait(allowedGait) &&
        maxWalkSpeedCrouched == maxWalkSpeed
      ensures !(hasCharacterOwner && old(requestMovementSettingsChange)) ==>
        requestMovementSettingsChange == old(requestMovementSettingsChange) &&
        maxWalkSpeed == old(maxWalkSpeed) && maxWalkSpeedCrouched == old(maxWalkSpeedCrouched)
    {
      if !hasCharacterOwner {
        return;
      }
      if requestMovementSettingsChange {
        var speed := currentMovementSettings.GetSpeedForGait(allowedGait);
        maxWalkSpeed := speed;
        maxWalkSpeedCrouched := speed;
        requestMovementSettingsChange := false;
      }
    }

    /** Replaces the settings and always raises the change request. */
    method SetMovementSettings(settings: MovementSettings)
      modifies this`currentMovementSettings, this`requestMovementSettingsChange
      ensures currentMovementSettings == settings && requestMovementSettingsChange
    {
      currentMovementSettings := settings;
      requestMovementSettingsChange := true;
    }

    /**
     * Unchanged gait: no-op. Locally controlled: store the gait and raise the request (the
     * server forward is transport). Otherwise, without authority, the speed caps are
     * refreshed from the gait that is still stored.
     */
    method SetAllowedGait(newAllowedGait: Gait, isLocallyControlled: bool, hasAuthority: bool)
      modifies this`allowedGait, this`requestMovementSettingsChange, this`maxWalkSpeed, this`maxWalkSpeedCrouched
      ensures old(allowedGait) == newAllowedGait ==>
        allowedGait == old(allowedGait) && requestMovementSettingsChange == old(requestMovementSettingsChange) &&
        maxWalkSpeed == old(maxWalkSpeed) && maxWalkSpeedCrouched == old(maxWalkSpeedCrouched)
      ensures old(allowedGait) != newAllowedGait && isLocallyControlled ==>
        allowedGait == newAllowedGait && requestMovementSettingsChange &&
        maxWalkSpeed == old(maxWalkSpeed) && maxWalkSpeedCrouched == old(maxWalkSpeedCrouched)
      ensures old(allowedGait) != newAllowedGait && !isLocallyControlled ==>
        allowedGait == old(allowedGait) && requestMovementSettingsChange == old(requestMovementSettingsChange) &&
        (if hasAuthority then maxWalkSpeed == old(maxWalkSpeed) && maxWalkSpeedCrouched == old(maxWalkSpeedCrouched)
         else maxWalkSpeed == currentMovementSettings.GetSpeedForGait(old(allowedGait)) &&
              maxWalkSpeedCrouched == maxWalkSpeed)
    {
      if allowedGait == newAllowedGait {
        return;
      }
      if isLocallyControlled {
        allowedGait := newAllowedGait;
        requestMovementSettingsChange := true;
        return;
      }
      if !hasAuthority {
        var speed := currentMovementSettings.GetSpeedForGait(allowedGait);
        maxWalkSpeed := speed;
        maxWalkSpeedCrouched := speed;
      }
    }

    /** The server side of the allowed-gait forward. */
    method ServerSetAllowedGait(newAllowedGait: Gait)
      modifies this`allowedGait
      ensures allowedGait == newAllowedGait
    {
      allowedGait := newAllowedGait;
    }

    /** The request flag is taken from the custom bit of the received flags. */
    method UpdateFromCompressedFlags(flags: bv8)
      modifies this`requestMovementSettingsChange
      ensures requestMovementSettingsChange == RequestFlagOf(flags)
    {
      requestMovementSettingsChange := flags & FLAG_Custom_0 != 0;
    }
  }

  /** A client saved move extended with the request flag and the allowed gait. */
  class SavedMove {
    var savedRequestMovementSettingsChange: bool
    var savedAllowedGait: Gait

    constructor ()
      ensures !savedRequestMovementSettingsChange && savedAllowedGait == Walking
    {
      savedRequestMovementSettingsChange := false;
      savedAllowedGait := Walking;
    }

    method Clear()
      modifies this
      ensures !savedRequestMovementSettingsChange && savedAllowedGait == Walking
    {
      savedRequestMovementSettingsChange := false;
      savedAllowedGait := Walking;
    }

    /** Flags of the base saved move, with the custom bit added when a change was saved. */
    function GetCompressedFlags(baseFlags: bv8): (r: bv8)
      reads this
      ensures r & !FLAG_Custom_0 == baseFlags & !FLAG_Custom_0
      ensures savedRequestMovementSettingsChange ==> RequestFlagOf(r)
      ensures !savedRequestMovementSettingsChange ==> r == baseFlags
    {
      if savedRequestMovementSettingsChange then baseFlags | FLAG_Custom_0 else baseFlags
    }

    method SetMoveFor(movement: CharacterMovementComponent)
      modifies this
      ensures savedRequestMovementSettingsChange == movement.requestMovementSettingsChange
      ensures savedAllowedGait == movement.allowedGait
    {
      savedRequestMovementSettingsChange := movement.requestMovementSettingsChange;
      savedAllowedGait := movement.allowedGait;
    }

    method PrepMoveFor(movement: CharacterMovementComponent)
      modifies movement`allowedGait
      ensures movement.allowedGait == savedAllowedGait
    {
      movement.allowedGait := savedAllowedGait;
    }
  }

  /** The engine base class only ever sets the jump and crouch bits. */
  function BaseCompressedFlags(pressedJump: bool, wantsToCrouch: bool): bv8
  {
    (if pressedJump then FLAG_JumpPressed else 0) | (if wantsToCrouch then FLAG_WantsToCrouch else 0)
  }

  /** The request flag survives encoding into compressed flags and decoding again, in both values. */
  lemma CompressedFlagsRoundTrip(m: SavedMove, pressedJump: bool, wantsToCrouch: bool)
    ensures RequestFlagOf(m.GetCompressedFlags(BaseCompressedFlags(pressedJump, wantsToCrouch))) == m.savedRequestMovementSettingsChange
    ensures var r := m.GetCompressedFlags(BaseCompressedFlags(pressedJump, wantsToCrouch));
            (r & FLAG_JumpPressed != 0) == pressedJump && (r & FLAG_WantsToCrouch != 0) == wantsToCrouch
  {
  }
}
