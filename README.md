# Locomotion decision layer, verified in Dafny

This project models the discrete decision layer of an Unreal Engine locomotion and
gameplay project and proves properties about it. The project combines three parts:

- the Advanced Locomotion System plugin (ALS-Community);
- the motion-warping plugin;
- a small game layer: hero character, pickups and an interactable-target ability task.

What is modelled:

- **Character state machine.** Guarded setters store the old value and run a change hook; the
  hooks mirror the state into the animation instance and refresh the movement settings. The
  rotation-mode and view-mode hooks are mutually recursive. Gait arbitration and the input
  actions are also modelled.
- **Movement component.** Its gait and settings bookkeeping, and the saved-move round trip of
  the settings-change flag.
- **Math library.** Its static helpers: the diagonal gamepad fix, buffered angle ranges,
  quadrant hysteresis, capsule offsets and the frame-rate-aware interpolation speed.
- **Animation instance.** Its decisions: turn and corner asset selection, rotate- and
  turn-in-place timers, foot-lock hysteresis, the pelvis target and velocity blending.
- **Mantle and ledge-climb component.** Covers:
  - the mantle check and its parameters;
  - the mantle blend;
  - the ledge scan;
  - hand holds while climbing;
  - corner arbitration;
  - climb jumps;
  - leaving climbing.
- **Root-motion modifier.** Covers:
  - its Waiting / Active / Disabled / MarkedForRemoval life cycle;
  - warp targets;
  - the guards of the simple warp.
- **Debug component.** Debug-character focus cycling and the debug toggles.
- **Hero character.** Its inventory, weapon switching, holsters and overlay-driven weapon
  choice.
- **Pickups.** Touch, respawn and replication of the active flag.
- **Interactable-target task.** Hit filtering of the line trace and found/lost tracking of the
  held target.

**Layout.** Each source file is one module:

| Module | Source file |
|---|---|
| `AlsCharacter` | ALSBaseCharacter.cpp |
| `AlsMovement` | ALSCharacterMovementComponent.cpp |
| `AlsMathLibrary` | ALSMathLibrary.cpp |
| `AlsAnim` | ALSCharacterAnimInstance.cpp |
| `AlsMantle` | ALSMantleComponent.cpp |
| `MotionWarping` | RootMotionModifier.cpp |
| `AlsDebug` | ALSDebugComponent.cpp |
| `GsHero` | GSHeroCharacter.cpp |
| `GsPickup` | GSPickup.cpp |
| `GsInteractable` | GSAT_WaitInteractableTarget.cpp |

`AlsEnums` holds the enumerations of ALSCharacterEnumLibrary.h. `Common` holds the engine's
value types and the engine maths the core relies on: Clamp, MapRangeClamped, NormalizeAxis
and vector arithmetic.

**Classes.** Objects whose fields the source updates in place are classes with field-level
`modifies` frames:

- the character, movement component and saved move;
- the animation instance;
- the mantle component;
- the modifiers;
- the debug component;
- the hero, pickup and ability task.

**Inputs.** Engine queries become parameters of the operations:

- traces and sweeps, walkability, capsule room;
- curve samples;
- montage playback;
- interpolation, rotation of vectors;
- the current time.

Each is a record of booleans and values, a function value, or a plain real.

**Requests.** Effects that happen inside the engine are appended to a log of requests
instead of being carried out:

- crouch, jump and ragdoll;
- montage plays;
- delegate broadcasts;
- gameplay-tag changes and warp-target updates.

**Where this model follows the code over its comments or its apparent intent:**

- AngleInRange widens the range by the buffer when `increaseBuffer` is set and narrows it
  otherwise, whatever its doc comment says.
- The exit test of the climb-jump update compares the ledge target with itself. It reduces
  to "the location-amount curve sample is nearly zero".
- Setting the hero's weapon to none does not clear the current weapon: its un-equip branch
  is empty. Non-weapon overlays therefore keep the current weapon.
- In interactable mode, a hit with no actor is returned as a blocking hit, like the
  end-point mode.
- When the actor list is empty, the debug component's begin play leaves the focused index
  as it was.
- The non-authority branch of the movement component's SetAllowedGait applies the speed of
  the old allowed gait, because the gait is not stored on that path.

## Model

| member | source | states |
|---|---|---|
| AlsCharacter.TargetSettingsOwnEntry | Plugins/ALS-Community-4.22/Source/ALSV4_CPP/Private/Character/ALSBaseCharacter.cpp:717-755 | the settings table lookup reads exactly the entry of the given rotation mode and stance: replacing one entry changes that lookup and no other |
| AlsCharacter.CanSprint | Plugins/ALS-Community-4.22/Source/ALSV4_CPP/Private/Character/ALSBaseCharacter.cpp:757-787 | sprinting needs input, no aiming and an input amount above 0.9; in velocity direction that is also enough; in looking direction the normalised yaw delta must also be below 50 (each case an if-and-only-if) |
| AlsCharacter.GetAllowedGait | Plugins/ALS-Community-4.22/Source/ALSV4_CPP/Private/Character/ALSBaseCharacter.cpp:1502-1524 | sprinting is allowed exactly when standing, not aiming, desiring a sprint and able to sprint; any other desired gait is returned unchanged; a desired sprint never becomes walking |
| AlsCharacter.GetActualGait | Plugins/ALS-Community-4.22/Source/ALSV4_CPP/Private/Character/ALSBaseCharacter.cpp:1526-1554 | sprinting exactly when faster than run speed + 10 with sprint allowed; walking exactly when below walk speed + 10 and not above run speed + 10; running otherwise |
| AlsCharacter.ActualGaitMonotone | Plugins/ALS-Community-4.22/Source/ALSV4_CPP/Private/Character/ALSBaseCharacter.cpp:1526-1554 | with ordered speeds, a faster character is never at a slower actual gait |
| AlsCharacter.Character.constructor | Plugins/ALS-Community-4.22/Source/ALSV4_CPP/Public/Character/ALSBaseCharacter.h:515-681 | header defaults: looking direction, running desired, standing, third person, default overlay, the five unarmed overlay states without duplicates; no visible mesh is set, so the mesh component shows the asset mesh |
| AlsCharacter.Character.BeginPlay | Plugins/ALS-Community-4.22/Source/ALSV4_CPP/Private/Character/ALSBaseCharacter.cpp:129-172 | the state is forced through every hook: the animation mirror and the movement settings are in sync, gait, stance and rotation mode equal the desired ones, the target rotation and the velocity rotation start at the actor rotation, which does not move; state and action are kept; the request log grows by the in-air entry requests, the action hook's requests and then an un-crouch when standing or a crouch otherwise; the in-air rotation and the playing montages are those the hooks leave |
| AlsCharacter.Character.SetMovementState | Plugins/ALS-Community-4.22/Source/ALSV4_CPP/Private/Character/ALSBaseCharacter.cpp:337-345 | nothing changes unless forced or different; otherwise the old state is stored, the hook runs, movement input is allowed exactly when grounded or in the air, and an in-air entry records the rotation and un-crouches (or ragdolls out of a roll) |
| AlsCharacter.Character.OnMovementStateChanged | Plugins/ALS-Community-4.22/Source/ALSV4_CPP/Private/Character/ALSBaseCharacter.cpp:1037-1077 | mirrors the state into the animation instance; movement input allowed exactly when grounded or in the air; the in-air and roll-to-ragdoll requests |
| AlsCharacter.Character.SetMovementAction | Plugins/ALS-Community-4.22/Source/ALSV4_CPP/Private/Character/ALSBaseCharacter.cpp:347-355 | nothing changes unless forced or different; otherwise the action is stored and mirrored and the action hook runs with the old action |
| AlsCharacter.Character.OnMovementActionChanged | Plugins/ALS-Community-4.22/Source/ALSV4_CPP/Private/Character/ALSBaseCharacter.cpp:1079-1131 | mirrors the action; rolling crouches, ending a roll returns to the desired stance, and the corner and climb-jump actions play their slot animations |
| AlsCharacter.Character.SetStance | Plugins/ALS-Community-4.22/Source/ALSV4_CPP/Private/Character/ALSBaseCharacter.cpp:357-365 | no-op unless forced or different; otherwise the stance is stored, mirrored, and the movement settings match the new stance with a change requested |
| AlsCharacter.Character.OnStanceChanged | Plugins/ALS-Community-4.22/Source/ALSV4_CPP/Private/Character/ALSBaseCharacter.cpp:1133-1146 | mirrors the stance and selects the movement settings for it |
| AlsCharacter.Character.SetGait | Plugins/ALS-Community-4.22/Source/ALSV4_CPP/Private/Character/ALSBaseCharacter.cpp:367-376 | no-op unless forced or different; otherwise the gait is stored and mirrored |
| AlsCharacter.Character.OnGaitChanged | Plugins/ALS-Community-4.22/Source/ALSV4_CPP/Private/Character/ALSBaseCharacter.cpp:1170-1181 | mirrors the gait |
| AlsCharacter.Character.SetOverlayState | Plugins/ALS-Community-4.22/Source/ALSV4_CPP/Private/Character/ALSBaseCharacter.cpp:546-559 | no-op unless forced or different; otherwise the overlay is stored and the animation instance records the new and the previous overlay |
| AlsCharacter.Character.OnOverlayStateChanged | Plugins/ALS-Community-4.22/Source/ALSV4_CPP/Private/Character/ALSBaseCharacter.cpp:1210-1217 | the animation instance gets the new overlay and the previous one |
| AlsCharacter.Character.SetRotationMode | Plugins/ALS-Community-4.22/Source/ALSV4_CPP/Private/Character/ALSBaseCharacter.cpp:487-500 | no-op unless forced or different; otherwise the hook cascade terminates leaving velocity direction never in first person: velocity direction in first person switches to third person at the desired rotation mode, any other mode is stored as given |
| AlsCharacter.Character.OnRotationModeChanged | Plugins/ALS-Community-4.22/Source/ALSV4_CPP/Private/Character/ALSBaseCharacter.cpp:1148-1168 | mirrors the mode, selects its settings, and leaves velocity-in-first-person behind by switching to third person |
| AlsCharacter.Character.SetViewMode | Plugins/ALS-Community-4.22/Source/ALSV4_CPP/Private/Character/ALSBaseCharacter.cpp:508-521 | no-op unless forced or different; otherwise the view is stored and the rotation mode becomes what the view hook leaves, never velocity direction in first person |
| AlsCharacter.Character.OnViewModeChanged | Plugins/ALS-Community-4.22/Source/ALSV4_CPP/Private/Character/ALSBaseCharacter.cpp:1183-1208 | third person hands velocity/looking direction to the desired mode; first person turns velocity direction into looking direction; the view itself is kept |
| AlsCharacter.Character.SetDesiredStance | Plugins/ALS-Community-4.22/Source/ALSV4_CPP/Private/Character/ALSBaseCharacter.cpp:379-386 | stores the desired stance |
| AlsCharacter.Character.SetDesiredGait | Plugins/ALS-Community-4.22/Source/ALSV4_CPP/Private/Character/ALSBaseCharacter.cpp:393-400 | stores the desired gait |
| AlsCharacter.Character.SetDesiredRotationMode | Plugins/ALS-Community-4.22/Source/ALSV4_CPP/Private/Character/ALSBaseCharacter.cpp:473-480 | stores the desired rotation mode |
| AlsCharacter.Character.SetDesiredLaddering | Plugins/ALS-Community-4.22/Source/ALSV4_CPP/Private/Character/ALSBaseCharacter.cpp:402-415 | stores the laddering wish and mirrors it |
| AlsCharacter.Character.SetRotateInClimbAngle | Plugins/ALS-Community-4.22/Source/ALSV4_CPP/Private/Character/ALSBaseCharacter.cpp:417-430 | stores the climb rotation angle and mirrors it |
| AlsCharacter.Character.SetClimbingType | Plugins/ALS-Community-4.22/Source/ALSV4_CPP/Private/Character/ALSBaseCharacter.cpp:437-445 | stores the climbing type and mirrors it |
| AlsCharacter.Character.SetCanInputMove | Plugins/ALS-Community-4.22/Source/ALSV4_CPP/Private/Character/ALSBaseCharacter.cpp:523-534 | stores the movement-input flag |
| AlsCharacter.Character.AddOverlayState | Plugins/ALS-Community-4.22/Source/ALSV4_CPP/Private/Character/ALSBaseCharacter.cpp:616-622 | the state is a member afterwards, the members are the old ones plus it, it is appended only when absent, and a duplicate-free list stays duplicate-free |
| AlsCharacter.Character.ForceUpdateCharacterState | Plugins/ALS-Community-4.22/Source/ALSV4_CPP/Private/Character/ALSBaseCharacter.cpp:693-702 | every value is re-applied through its forced setter: mirror and settings in sync, desired gait/stance/rotation in force, overlay, state and action kept, input allowed exactly when grounded or in the air; the in-air entry hook (the rotation recorded when no action runs, the un-crouch request when crouching, the ragdoll request out of a roll) and the action hook (the corner montage and its broadcast, the crouch of a roll, the roll-end stance restore) add their requests to the log in that order |
| AlsCharacter.Character.ForceLocomotionModes | Plugins/ALS-Community-4.22/Source/ALSV4_CPP/Private/Character/ALSBaseCharacter.cpp:695-698 | the first four forced setters: desired gait, stance and rotation mode in force, view switched to third person only for velocity direction in first person |
| AlsCharacter.Character.ForceStatusValues | Plugins/ALS-Community-4.22/Source/ALSV4_CPP/Private/Character/ALSBaseCharacter.cpp:699-701 | the last three forced setters: overlay, state and action kept and mirrored, the previous state equals the current one; the in-air entry hook (the rotation recorded when no action runs, the un-crouch request when crouching, the ragdoll request out of a roll) and the action hook (the corner montage and its broadcast, the crouch of a roll, the roll-end stance restore) add their requests to the log in that order |
| AlsCharacter.Character.SetVisibleMesh | Plugins/ALS-Community-4.22/Source/ALSV4_CPP/Private/Character/ALSBaseCharacter.cpp:836-849 | stores the mesh; a new mesh is also put on the mesh component (ALSBaseCharacter.cpp:1219-1222), and an unchanged one leaves the displayed mesh and everything else alone; a new mesh forces the state update, with its synced modes, in-air rotation, request log and playing montages as the forced hooks leave them |
| AlsCharacter.Character.OnMovementModeChanged | Plugins/ALS-Community-4.22/Source/ALSV4_CPP/Private/Character/ALSBaseCharacter.cpp:1019-1035 | walking or nav-walking makes the character grounded, falling makes it in air, other modes change nothing; a changed state runs the state hook (the in-air rotation and the un-crouch or ragdoll request), an unchanged one leaves the rotation and the log; the animation mirror is kept |
| AlsCharacter.Character.SetEngineMovementMode | Plugins/ALS-Community-4.22/Source/ALSV4_CPP/Private/Character/ALSBaseCharacter.cpp:1019-1035 | the engine mode is stored and the character's hook runs only when the mode changed; a changed state runs the state hook (the in-air rotation and the un-crouch or ragdoll request), an unchanged one leaves the rotation and the log |
| AlsCharacter.Character.SetActorLocationAndTargetRotation | Plugins/ALS-Community-4.22/Source/ALSV4_CPP/Private/Character/ALSBaseCharacter.cpp:672-676 | location and rotation are set and the rotation target follows the rotation |
| AlsCharacter.Character.OnStartCrouch | Plugins/ALS-Community-4.22/Source/ALSV4_CPP/Private/Character/ALSBaseCharacter.cpp:1237-1242 | the stance becomes crouching, keeping the character in sync |
| AlsCharacter.Character.OnEndCrouch | Plugins/ALS-Community-4.22/Source/ALSV4_CPP/Private/Character/ALSBaseCharacter.cpp:1244-1249 | the stance becomes standing, keeping the character in sync |
| AlsCharacter.Character.EventOnJumped | Plugins/ALS-Community-4.22/Source/ALSV4_CPP/Private/Character/ALSBaseCharacter.cpp:604-614 | the in-air rotation is the velocity rotation above speed 100 and the actor rotation otherwise; the animation instance's jump is raised |
| AlsCharacter.Character.UpdateCharacterMovement | Plugins/ALS-Community-4.22/Source/ALSV4_CPP/Private/Character/ALSBaseCharacter.cpp:1367-1382 | the gait is the actual gait for the allowed gait and speed, and a locally controlled character hands the allowed gait to the movement component |
| AlsCharacter.Character.JumpPressedAction | Plugins/ALS-Community-4.22/Source/ALSV4_CPP/Private/Character/ALSBaseCharacter.cpp:1667-1693 | broadcasts, then without an action: jumps when standing on the ground, un-crouches when crouched, leaves ragdoll, and does nothing else |
| AlsCharacter.Character.JumpReleasedAction | Plugins/ALS-Community-4.22/Source/ALSV4_CPP/Private/Character/ALSBaseCharacter.cpp:1695-1704 | broadcasts and stops jumping |
| AlsCharacter.Character.SprintPressedAction | Plugins/ALS-Community-4.22/Source/ALSV4_CPP/Private/Character/ALSBaseCharacter.cpp:1706-1709 | desires a sprint |
| AlsCharacter.Character.SprintReleasedAction | Plugins/ALS-Community-4.22/Source/ALSV4_CPP/Private/Character/ALSBaseCharacter.cpp:1711-1714 | desires running |
| AlsCharacter.Character.WalkPressedAction | Plugins/ALS-Community-4.22/Source/ALSV4_CPP/Private/Character/ALSBaseCharacter.cpp:1844-1854 | swaps walking and running and leaves a desired sprint alone |
| AlsCharacter.Character.AimPressedAction | Plugins/ALS-Community-4.22/Source/ALSV4_CPP/Private/Character/ALSBaseCharacter.cpp:1719-1722 | aiming, with the view unchanged and the character in sync |
| AlsCharacter.Character.AimReleasedAction | Plugins/ALS-Community-4.22/Source/ALSV4_CPP/Private/Character/ALSBaseCharacter.cpp:1724-1738 | back to the desired rotation mode in third person and to looking direction in first person |
| AlsCharacter.Character.OnSwitchCameraMode | Plugins/ALS-Community-4.22/Source/ALSV4_CPP/Private/Character/ALSBaseCharacter.cpp:1776-1787 | the view flips and the rotation mode is what the view hook leaves |
| AlsCharacter.Character.VelocityDirectionPressedAction | Plugins/ALS-Community-4.22/Source/ALSV4_CPP/Private/Character/ALSBaseCharacter.cpp:1873-1879 | velocity direction desired and in force, and the view is third person |
| AlsCharacter.Character.LookingDirectionPressedAction | Plugins/ALS-Community-4.22/Source/ALSV4_CPP/Private/Character/ALSBaseCharacter.cpp:1884-1888 | looking direction desired and in force, view unchanged |
| AlsCharacter.Character.StancePressedAction | Plugins/ALS-Community-4.22/Source/ALSV4_CPP/Private/Character/ALSBaseCharacter.cpp:1792-1839 | only without an action: a second press within 0.3 s rolls and flips the desired stance; a single press on the ground crouches or stands up; in the air nothing but the time changes |
| AlsCharacter.Character.RagdollPressedAction | Plugins/ALS-Community-4.22/Source/ALSV4_CPP/Private/Character/ALSBaseCharacter.cpp:1856-1868 | ends ragdoll when in ragdoll and starts it otherwise |
| AlsMovement.GetMappedSpeed | Plugins/ALS-Community-4.22/Source/ALSV4_CPP/Private/Character/ALSCharacterMovementComponent.cpp:204-228 | the mapped speed lies in [0, 3] |
| AlsMovement.MappedSpeedMarks | Plugins/ALS-Community-4.22/Source/ALSV4_CPP/Private/Character/ALSCharacterMovementComponent.cpp:204-228 | with ordered speeds, 0, walk, run and sprint speed map to 0, 1, 2 and 3 |
| AlsMovement.SegmentBounds | Plugins/ALS-Community-4.22/Source/ALSV4_CPP/Private/Character/ALSCharacterMovementComponent.cpp:204-228 | the mapped speed lies within the unit segment of the speed band it falls in |
| AlsMovement.MappedSpeedMonotone | Plugins/ALS-Community-4.22/Source/ALSV4_CPP/Private/Character/ALSCharacterMovementComponent.cpp:204-228 | with ordered speeds the mapped speed never decreases as speed grows |
| AlsMovement.CharacterMovementComponent.constructor | Plugins/ALS-Community-4.22/Source/ALSV4_CPP/Public/Character/ALSCharacterMovementComponent.h:80-84 | header defaults: a settings change pending, walking allowed |
| AlsMovement.CharacterMovementComponent.OnMovementUpdated | Plugins/ALS-Community-4.22/Source/ALSV4_CPP/Private/Character/ALSCharacterMovementComponent.cpp:22-43 | a pending change applies the allowed gait's speed to walking and crouched walking and clears the request; otherwise nothing changes |
| AlsMovement.CharacterMovementComponent.SetMovementSettings | Plugins/ALS-Community-4.22/Source/ALSV4_CPP/Private/Character/ALSCharacterMovementComponent.cpp:233-238 | the settings are replaced and a change is always requested |
| AlsMovement.CharacterMovementComponent.SetAllowedGait | Plugins/ALS-Community-4.22/Source/ALSV4_CPP/Private/Character/ALSCharacterMovementComponent.cpp:243-271 | an unchanged gait is a no-op; locally controlled stores it and requests a change; otherwise a non-authority instance applies the old allowed gait's speed and an authority one changes nothing |
| AlsMovement.CharacterMovementComponent.ServerSetAllowedGait | Plugins/ALS-Community-4.22/Source/ALSV4_CPP/Private/Character/ALSCharacterMovementComponent.cpp:196-199 | the server stores the allowed gait |
| AlsMovement.CharacterMovementComponent.UpdateFromCompressedFlags | Plugins/ALS-Community-4.22/Source/ALSV4_CPP/Private/Character/ALSCharacterMovementComponent.cpp:90-96 | the request flag is the custom bit of the received flags |
| AlsMovement.SavedMove.constructor | Plugins/ALS-Community-4.22/Source/ALSV4_CPP/Public/Character/ALSCharacterMovementComponent.h:44-45 | a fresh saved move holds no request and walking |
| AlsMovement.SavedMove.Clear | Plugins/ALS-Community-4.22/Source/ALSV4_CPP/Private/Character/ALSCharacterMovementComponent.cpp:124-130 | resets the saved move to no request and walking |
| AlsMovement.SavedMove.GetCompressedFlags | Plugins/ALS-Community-4.22/Source/ALSV4_CPP/Private/Character/ALSCharacterMovementComponent.cpp:135-146 | the base flags are kept on every other bit; a saved request sets the custom bit, no request leaves the flags as they were |
| AlsMovement.SavedMove.SetMoveFor | Plugins/ALS-Community-4.22/Source/ALSV4_CPP/Private/Character/ALSCharacterMovementComponent.cpp:151-165 | the saved move copies the request flag and the allowed gait |
| AlsMovement.SavedMove.PrepMoveFor | Plugins/ALS-Community-4.22/Source/ALSV4_CPP/Private/Character/ALSCharacterMovementComponent.cpp:170-180 | the saved allowed gait is restored onto the movement component |
| AlsMovement.CompressedFlagsRoundTrip | Plugins/ALS-Community-4.22/Source/ALSV4_CPP/Private/Character/ALSCharacterMovementComponent.cpp:135-146 | the request flag survives encoding and decoding in both values, and the jump and crouch bits survive too |
| AlsMathLibrary.DiagonalScale | Plugins/ALS-Community-4.22/Source/ALSV4_CPP/Private/Library/ALSMathLibrary.cpp:52-61 | the diagonal scale factor lies in [1, 1.2] |
| AlsMathLibrary.FixDiagonalGamepadValues | Plugins/ALS-Community-4.22/Source/ALSV4_CPP/Private/Library/ALSMathLibrary.cpp:52-61 | both outputs lie in [-1, 1], and a zero input on an axis gives zero on that output |
| AlsMathLibrary.AxialInputUnchanged | Plugins/ALS-Community-4.22/Source/ALSV4_CPP/Private/Library/ALSMathLibrary.cpp:52-61 | a purely axial input within the unit range passes through unchanged |
| AlsMathLibrary.FullDeflectionBoost | Plugins/ALS-Community-4.22/Source/ALSV4_CPP/Private/Library/ALSMathLibrary.cpp:52-61 | a sideways deflection of 0.6 or more boosts the other axis by 1.2 before clamping |
| AlsMathLibrary.GetCapsuleLocationFromBase | Plugins/ALS-Community-4.22/Source/ALSV4_CPP/Private/Library/ALSMathLibrary.cpp:81-86 | only Z changes, by half height plus offset |
| AlsMathLibrary.GetCapsuleBaseLocation | Plugins/ALS-Community-4.22/Source/ALSV4_CPP/Private/Library/ALSMathLibrary.cpp:64-68 | the base moved back up the capsule's up vector by half height plus offset is the component location |
| AlsMathLibrary.CapsuleBaseRoundTrip | Plugins/ALS-Community-4.22/Source/ALSV4_CPP/Private/Library/ALSMathLibrary.cpp:66-86 | with the up vector along +Z the two capsule helpers invert each other, both ways round |
| AlsMathLibrary.AngleInRangeNarrowImpliesWide | Plugins/ALS-Community-4.22/Source/ALSV4_CPP/Private/Library/ALSMathLibrary.cpp:137-144 | with a non-negative buffer the narrowed range test implies the widened one |
| AlsMathLibrary.AngleInRange | Plugins/ALS-Community-4.22/Source/ALSV4_CPP/Private/Library/ALSMathLibrary.cpp:137-144 | an accepted angle lies within the range widened by the buffer; with a non-negative buffer the widened test accepts every angle of the plain range and the narrowed test accepts only angles of it |
| AlsMathLibrary.CalculateQuadrant | Plugins/ALS-Community-4.22/Source/ALSV4_CPP/Private/Library/ALSMathLibrary.cpp:150-177 | Forward, Right and Left are reported only for angles within their range widened by the buffer, and Backward never for an angle inside the narrowed forward range |
| AlsMathLibrary.QuadrantPriority | Plugins/ALS-Community-4.22/Source/ALSV4_CPP/Private/Library/ALSMathLibrary.cpp:150-179 | the quadrant is Forward, Right, Left or Backward exactly as the priority chain of range tests says, each as an if-and-only-if |
| AlsMathLibrary.ForwardHysteresis | Plugins/ALS-Community-4.22/Source/ALSV4_CPP/Private/Library/ALSMathLibrary.cpp:150-179 | moving forward or backward, any angle in the widened forward range stays Forward |
| AlsMathLibrary.RightHysteresis | Plugins/ALS-Community-4.22/Source/ALSV4_CPP/Private/Library/ALSMathLibrary.cpp:150-179 | moving sideways, an angle outside the narrowed forward range but in the widened right range is Right |
| AlsMathLibrary.GetInterpSpeed | Plugins/ALS-Community-4.22/Source/ALSV4_CPP/Private/Library/ALSMathLibrary.cpp:72-76 | for a speed of at least −1 the result lies between 0.77 and 1.25 times (speed + 1) |
| AlsMathLibrary.InterpSpeedEnds | Plugins/ALS-Community-4.22/Source/ALSV4_CPP/Private/Library/ALSMathLibrary.cpp:72-76 | at 15 frames per second or slower the factor is 1.25, at 160 or faster it is 0.77 |
| AlsAnim.SelectTurnAsset | Plugins/ALS-Community-4.22/Source/ALSV4_CPP/Private/Character/Animation/ALSCharacterAnimInstance.cpp:1393-1426 | the asset is crouched exactly when crouching, a 180 exactly when the angle reaches the threshold, a left turn exactly for a negative angle |
| AlsAnim.TurnAssetDetermined | Plugins/ALS-Community-4.22/Source/ALSV4_CPP/Private/Character/Animation/ALSCharacterAnimInstance.cpp:1393-1426 | the three choices identify the asset, so the selection is the only one meeting its contract |
| AlsAnim.SelectCornerAsset | Plugins/ALS-Community-4.22/Source/ALSV4_CPP/Private/Character/Animation/ALSCharacterAnimInstance.cpp:249-295 | a right asset exactly for a right turn, a free-hanging asset exactly when free hanging |
| AlsAnim.TurnRotationScale | Plugins/ALS-Community-4.22/Source/ALSV4_CPP/Private/Character/Animation/ALSCharacterAnimInstance.cpp:1437-1444 | without turn-angle scaling the scale is the play rate times its scale; with it, a turn equal to the animated angle gives the same |
| AlsAnim.TurnDelay | Plugins/ALS-Community-4.22/Source/ALSV4_CPP/Private/Character/Animation/ALSCharacterAnimInstance.cpp:939-974 | the turn delay lies between the minimum- and maximum-angle delays |
| AlsAnim.TurnDelayLeftTurns | Plugins/ALS-Community-4.22/Source/ALSV4_CPP/Private/Character/Animation/ALSCharacterAnimInstance.cpp:939-974 | the delay is mapped from the signed angle, so any angle at or left of the minimum waits the minimum delay |
| AlsAnim.TurnDelayFullRightTurn | Plugins/ALS-Community-4.22/Source/ALSV4_CPP/Private/Character/Animation/ALSCharacterAnimInstance.cpp:939-974 | a right turn of 180 or more waits the maximum delay |
| AlsAnim.PelvisTarget | Plugins/ALS-Community-4.22/Source/ALSV4_CPP/Private/Character/Animation/ALSCharacterAnimInstance.cpp:582-604 | the target is one of the two foot offsets, the one with the lower Z, the right foot on a tie |
| AlsAnim.NextFootLockAlpha | Plugins/ALS-Community-4.22/Source/ALSV4_CPP/Private/Character/Animation/ALSCharacterAnimInstance.cpp:500-549 | alpha either stays or takes the sample; it never rises except to a full lock; a full-lock sample is always taken |
| AlsAnim.FootLockAlphaNeverRisesPartially | Plugins/ALS-Community-4.22/Source/ALSV4_CPP/Private/Character/Animation/ALSCharacterAnimInstance.cpp:500-549 | any run of samples below 0.99 never raises the alpha |
| AlsAnim.FootLocationTarget | Plugins/ALS-Community-4.22/Source/ALSV4_CPP/Private/Character/Animation/ALSCharacterAnimInstance.cpp:632-702 | the foot target carries the foot from its flat-floor position (floor location raised by the foot height) to the impact point lifted along the normal by the foot height |
| AlsAnim.FlatFloorTarget | Plugins/ALS-Community-4.22/Source/ALSV4_CPP/Private/Character/Animation/ALSCharacterAnimInstance.cpp:632-702 | on a level floor the target is the impact point relative to the floor location |
| AlsAnim.CalculateVelocityBlend | Plugins/ALS-Community-4.22/Source/ALSV4_CPP/Private/Character/Animation/ALSCharacterAnimInstance.cpp:1160-1182 | for a non-zero velocity: all four blends in [0, 1], forward·backward = 0 and left·right = 0, sum at most 1, and forward−backward and right−left are the normalised X and Y |
| AlsAnim.DiagonalVelocityBlend | Plugins/ALS-Community-4.22/Source/ALSV4_CPP/Private/Character/Animation/ALSCharacterAnimInstance.cpp:1160-1182 | a diagonal forward-right velocity blends half forward and half right |
| AlsAnim.AnimInstance.constructor | Plugins/ALS-Community-4.22/Source/ALSV4_CPP/Public/Character/Animation/ALSCharacterAnimInstance.h:206-242 | header defaults of the mirrored state and of the foot-IK and turn values |
| AlsAnim.AnimInstance.RotateInPlaceCheck | Plugins/ALS-Community-4.22/Source/ALSV4_CPP/Private/Character/Animation/ALSCharacterAnimInstance.cpp:917-933 | rotate left exactly below the minimum threshold, right exactly above the maximum; the rate is remapped from the yaw rate and stays within the play-rate range while rotating, and is kept otherwise |
| AlsAnim.AnimInstance.TurnInPlace | Plugins/ALS-Community-4.22/Source/ALSV4_CPP/Private/Character/Animation/ALSCharacterAnimInstance.cpp:1384-1446 | the selected asset is left alone when already playing without override; otherwise it plays and the rotation scale is set |
| AlsAnim.AnimInstance.TurnInPlaceCheck | Plugins/ALS-Community-4.22/Source/ALSV4_CPP/Private/Character/Animation/ALSCharacterAnimInstance.cpp:939-974 | the timer resets within the minimum angle or at the yaw-rate limit; otherwise it adds the frame time and turns toward the aim once past the delay |
| AlsAnim.AnimInstance.UpdateGrounded | Plugins/ALS-Community-4.22/Source/ALSV4_CPP/Private/Character/Animation/ALSCharacterAnimInstance.cpp:102-160 | the move flag follows the move check; starting to move clears the timer and the rotate flags; moving never turns; rotating in place and turning in place never run together |
| AlsAnim.AnimInstance.StartCornerClimb | Plugins/ALS-Community-4.22/Source/ALSV4_CPP/Private/Character/Animation/ALSCharacterAnimInstance.cpp:249-295 | an asset already playing without override gives no parameters; otherwise it plays and its length, start and scaled rate are returned |
| AlsAnim.AnimInstance.SetFootLocking | Plugins/ALS-Community-4.22/Source/ALSV4_CPP/Private/Character/Animation/ALSCharacterAnimInstance.cpp:500-549 | a disabled IK curve changes nothing; otherwise the alpha hysteresis holds, a full lock recaptures the lock transform, a partial one offsets the old one, and no alpha keeps it |
| AlsAnim.AnimInstance.SetFootOffsets | Plugins/ALS-Community-4.22/Source/ALSV4_CPP/Private/Character/Animation/ALSCharacterAnimInstance.cpp:632-702 | a disabled IK curve zeroes both offsets; otherwise a walkable hit sets the target and both offsets move toward their targets at the source's speeds |
| AlsAnim.AnimInstance.SetPelvisIKOffset | Plugins/ALS-Community-4.22/Source/ALSV4_CPP/Private/Character/Animation/ALSCharacterAnimInstance.cpp:582-604 | alpha is the mean of the two enable curves; with positive alpha the offset moves toward the lower foot at 10 or 15, otherwise it is zero |
| AlsAnim.AnimInstance.OnJumped | Plugins/ALS-Community-4.22/Source/ALSV4_CPP/Private/Character/Animation/ALSCharacterAnimInstance.cpp:1451-1462 | the jumped flag is raised and the play rate follows speed within [1.2, 1.5] |
| AlsAnim.RotateAndTurnExclusive | Plugins/ALS-Community-4.22/Source/ALSV4_CPP/Private/Character/Animation/ALSCharacterAnimInstance.cpp:224-239 | rotating in place and turning in place are never both allowed |
| AlsMantle.TransformSubAdd | Plugins/ALS-Community-4.22/Source/ALSV4_CPP/Private/Components/ALSMantleComponent.cpp:1316-1382 | an offset taken from a base and added back gives the original transform |
| AlsMantle.BlendStartsAtActualOffset | Plugins/ALS-Community-4.22/Source/ALSV4_CPP/Private/Components/ALSMantleComponent.cpp:1371-1381 | with no blend-in the character is at the target plus its actual start offset |
| AlsMantle.BlendEndsAtTarget | Plugins/ALS-Community-4.22/Source/ALSV4_CPP/Private/Components/ALSMantleComponent.cpp:1371-1381 | fully blended in with full position alpha the character is on the target |
| AlsMantle.BlendAtAnimatedStart | Plugins/ALS-Community-4.22/Source/ALSV4_CPP/Private/Components/ALSMantleComponent.cpp:1371-1381 | fully blended in with no position progress and full corrections, the character is at the animation's start |
| AlsMantle.BlendAxesIndependent | Plugins/ALS-Community-4.22/Source/ALSV4_CPP/Private/Components/ALSMantleComponent.cpp:1316-1382 | the grouped-axis correction never moves the separate axis and the reverse |
| AlsMantle.MantleTypeFor | Plugins/ALS-Community-4.22/Source/ALSV4_CPP/Private/Components/ALSMantleComponent.cpp:363-371 | falling catch exactly in the air, high mantle exactly above 125, low mantle otherwise |
| AlsMantle.MantleCheckRejections | Plugins/ALS-Community-4.22/Source/ALSV4_CPP/Private/Components/ALSMantleComponent.cpp:216-381 | the check passes exactly when none of the four rejections applies, and then gives the height above the feet, the ledge and the type |
| AlsMantle.MantleParamsFor | Plugins/ALS-Community-4.22/Source/ALSV4_CPP/Private/Components/ALSMantleComponent.cpp:135-214 | the asset's montage and curve, with start position and play rate within the asset's low/high ranges |
| AlsMantle.MantleParamsAtEnds | Plugins/ALS-Community-4.22/Source/ALSV4_CPP/Private/Components/ALSMantleComponent.cpp:135-214 | at or below the low height the low values apply, at or above the high height the high ones |
| AlsMantle.AnimatedStartOffsetValue | Plugins/ALS-Community-4.22/Source/ALSV4_CPP/Private/Components/ALSMantleComponent.cpp:135-214 | the animated start offset lies behind the target along its forward vector and below it |
| AlsMantle.TruncToInt | Plugins/ALS-Community-4.22/Source/ALSV4_CPP/Private/Components/ALSMantleComponent.cpp:386-500 | float-to-int conversion truncates toward zero |
| AlsMantle.FirstLedgeFrom | Plugins/ALS-Community-4.22/Source/ALSV4_CPP/Private/Components/ALSMantleComponent.cpp:386-500 | a found candidate lies in the scanned range, has a wall hit and free space above |
| AlsMantle.FirstLedgeIsLeast | Plugins/ALS-Community-4.22/Source/ALSV4_CPP/Private/Components/ALSMantleComponent.cpp:386-500 | the scan finds the lowest good candidate, and finds none only when there is none |
| AlsMantle.HandHoldConditions | Plugins/ALS-Community-4.22/Source/ALSV4_CPP/Private/Components/ALSMantleComponent.cpp:505-605 | a hold exists exactly when a wall is hit at 120 degrees or more and a top with a rising normal is found; it is 40 below the top |
| AlsMantle.CornerTest | Plugins/ALS-Community-4.22/Source/ALSV4_CPP/Private/Components/ALSMantleComponent.cpp:949-1081 | no side wall exactly gives "no wall"; a turn needs at least 10 degrees, room for the capsule and a top sweep not starting inside geometry |
| AlsMantle.CornerChoiceCases | Plugins/ALS-Community-4.22/Source/ALSV4_CPP/Private/Components/ALSMantleComponent.cpp:889-944 | inner exactly when the inner test can turn; outer exactly when the inner found no wall, outer tracing is allowed and the outer test can turn; a blocked inner gives nothing |
| AlsMantle.SideShift | Plugins/ALS-Community-4.22/Source/ALSV4_CPP/Private/Components/ALSMantleComponent.cpp:927-933 | the intended sideways shift: the asset offset, plus half the turn beyond 90 degrees |
| AlsMantle.SideShiftMonotone | Plugins/ALS-Community-4.22/Source/ALSV4_CPP/Private/Components/ALSMantleComponent.cpp:927-933 | the intended shift is at least the asset offset and grows with the turn angle |
| AlsMantle.SideShiftAsWrittenDiffers | Plugins/ALS-Community-4.22/Source/ALSV4_CPP/Private/Components/ALSMantleComponent.cpp:927-933 | with offset 20, turns of 80 and 90 degrees shift by −5 and 0 as written, but by 20 as intended |
| AlsMantle.JumpMoveReadyNeedsStableSample | Plugins/ALS-Community-4.22/Source/ALSV4_CPP/Private/Components/ALSMantleComponent.cpp:1211-1228 | a zero sample, or one more than 0.1 from the cached one, never starts the jump move |
| AlsMantle.JumpLocationFixAxes | Plugins/ALS-Community-4.22/Source/ALSV4_CPP/Private/Components/ALSMantleComponent.cpp:1199-1275 | an axis without movement, distance or difference keeps its location |
| AlsMantle.JumpAxisFullMove | Plugins/ALS-Community-4.22/Source/ALSV4_CPP/Private/Components/ALSMantleComponent.cpp:1199-1275 | once the animation has covered its whole distance on an axis, the whole difference is applied |
| AlsMantle.JumpDirectionValue | Plugins/ALS-Community-4.22/Source/ALSV4_CPP/Private/Components/ALSMantleComponent.cpp:1488-1494 | the jump direction component lies in [-1, 1] |
| AlsMantle.MantleComponent.constructor | Plugins/ALS-Community-4.22/Source/ALSV4_CPP/Private/Components/ALSMantleComponent.cpp:41-50 | ticking, both timelines stopped, every climbing flag clear, velocity tolerance 10 |
| AlsMantle.MantleComponent.MantleStart | Plugins/ALS-Community-4.22/Source/ALSV4_CPP/Private/Components/ALSMantleComponent.cpp:135-214 | no ledge component changes nothing; otherwise the parameters, ledge, offsets and timeline are set, the owner is mantling and the montage is requested |
| AlsMantle.MantleComponent.MantleCheck | Plugins/ALS-Community-4.22/Source/ALSV4_CPP/Private/Components/ALSMantleComponent.cpp:216-381 | the result is the check's verdict; a rejection changes nothing, and a pass starts the mantle |
| AlsMantle.MantleComponent.MantleUpdate | Plugins/ALS-Community-4.22/Source/ALSV4_CPP/Private/Components/ALSMantleComponent.cpp:1316-1382 | the owner is placed on the corrected blend for the curve sample at the timeline position |
| AlsMantle.MantleComponent.MantleEnd | Plugins/ALS-Community-4.22/Source/ALSV4_CPP/Private/Components/ALSMantleComponent.cpp:1384-1400 | walking movement again and ticking re-enabled; an owner that was not walking becomes grounded |
| AlsMantle.MantleComponent.OnOwnerRagdollStateChanged | Plugins/ALS-Community-4.22/Source/ALSV4_CPP/Private/Components/ALSMantleComponent.cpp:1516-1523 | entering ragdoll stops the mantle timeline |
| AlsMantle.MantleComponent.GrabLedge | Plugins/ALS-Community-4.22/Source/ALSV4_CPP/Private/Components/ALSMantleComponent.cpp:491-495 | flying movement, climbing state, velocity direction desired, laddering on and mirrored; the rotation becomes velocity direction with the view kept, except that from first person the view turns third person and the rotation takes the previously desired mode |
| AlsMantle.MantleComponent.LadgeClimbCheck | Plugins/ALS-Community-4.22/Source/ALSV4_CPP/Private/Components/ALSMantleComponent.cpp:386-500 | succeeds exactly when the scan finds a candidate; then the ledge target is below the hit and the owner grabs it, with the same rotation and view outcome as GrabLedge; otherwise only the scanned component changes |
| AlsMantle.MantleComponent.ClimbingMovingDetection | Plugins/ALS-Community-4.22/Source/ALSV4_CPP/Private/Components/ALSMantleComponent.cpp:505-605 | succeeds exactly when a hold exists, and the hold becomes the ledge |
| AlsMantle.MantleComponent.CanCornerClimbing | Plugins/ALS-Community-4.22/Source/ALSV4_CPP/Private/Components/ALSMantleComponent.cpp:949-1081 | returns the test's code; a turn sets the corner target, angle and direction, anything else changes nothing |
| AlsMantle.MantleComponent.CornerCheck | Plugins/ALS-Community-4.22/Source/ALSV4_CPP/Private/Components/ALSMantleComponent.cpp:889-944 | succeeds exactly when the arbitration picks a corner; then the chosen test's target, turn angle and direction are stored, ticking stops, the owner gets the turn angle, the actual start offset is the actor relative to the target, the animated one the actor shifted back, sideways and up relative to the target, and corner climbing starts: a new action is mirrored and runs the action hook (the corner montage, its broadcast and the roll-end restore), an action already corner climbing adds nothing; otherwise nothing changes |
| AlsMantle.MantleComponent.ClimbCornerStart | Plugins/ALS-Community-4.22/Source/ALSV4_CPP/Private/Components/ALSMantleComponent.cpp:798-805 | the ledge becomes the corner target and the corner timeline runs for the animation's remaining time |
| AlsMantle.MantleComponent.ClimbCornerUpdate | Plugins/ALS-Community-4.22/Source/ALSV4_CPP/Private/Components/ALSMantleComponent.cpp:810-876 | the owner is placed on the corrected blend for the corner curve, and the blend's rotation becomes the owner's target rotation too |
| AlsMantle.MantleComponent.ClimbCornerEnd | Plugins/ALS-Community-4.22/Source/ALSV4_CPP/Private/Components/ALSMantleComponent.cpp:878-887 | the action ends and ticking is re-enabled |
| AlsMantle.MantleComponent.UpdateLedgeInputInfo | Plugins/ALS-Community-4.22/Source/ALSV4_CPP/Private/Components/ALSMantleComponent.cpp:695-739 | no move while jump is held or the sideways input is within 0.1 or no hold is found; while jump is held the jump-target search runs unless blocked and nothing else changes; a hold found at speed 10 or more moves onto it; below that speed the inner corner is tried and the character moves exactly when none is taken, keeping its move flag otherwise; with no hold the corner check (inner, then outer) runs; a taken corner leaves the CornerTaken state and starts the corner-climbing action with its hook, and an untaken one changes no corner state |
| AlsMantle.MantleComponent.SideLedgeInput | Plugins/ALS-Community-4.22/Source/ALSV4_CPP/Private/Components/ALSMantleComponent.cpp:713-736 | one side's input: the hold is stored when found; no hold stops the character after trying a corner (inner, then outer); a hold at speed 10 or more moves; below it moves exactly when no inner corner is taken; a taken corner leaves the CornerTaken state and starts the corner-climbing action with its hook, an untaken one changes nothing on the owner |
| AlsMantle.MantleComponent.ClimbJumpCheck | Plugins/ALS-Community-4.22/Source/ALSV4_CPP/Private/Components/ALSMantleComponent.cpp:1083-1197 | weak input or no wall changes nothing; otherwise exit is cleared, a steep wall or no ledge stops there, no room marks a block, and a free ledge arms the jump with its target and length |
| AlsMantle.MantleComponent.ClimbJumpUpdate | Plugins/ALS-Community-4.22/Source/ALSV4_CPP/Private/Components/ALSMantleComponent.cpp:1199-1275 | until the move is ready the sample is cached and nothing moves; once ready, a nearly-zero movement sample ends the action, otherwise the owner moves toward the corrected target |
| AlsMantle.MantleComponent.ExitClimbing | Plugins/ALS-Community-4.22/Source/ALSV4_CPP/Private/Components/ALSMantleComponent.cpp:1277-1283 | falling, in the air, no action, looking direction desired; leaving a state other than in air runs the in-air entry for the action held at that moment (the rotation recorded when none, the un-crouch or ragdoll request); a running action then ends through the action hook (the roll-end restore), while no action leaves the montages alone |
| AlsMantle.MantleComponent.MantleOrGrab | Plugins/ALS-Community-4.22/Source/ALSV4_CPP/Private/Components/ALSMantleComponent.cpp:1415-1428 | a mantle is tried first and the ledge grab only when the mantle check fails; nothing changes when both fail |
| AlsMantle.MantleComponent.OnOwnerJumpInput | Plugins/ALS-Community-4.22/Source/ALSV4_CPP/Private/Components/ALSMantleComponent.cpp:1408-1446 | climbing afterwards: exit allowed, no block, jump held, inputs captured; without an action on the ground with input or in the air the mantle or grab runs, otherwise the owner is untouched |
| AlsMantle.MantleComponent.OnOwnerJumpRelease | Plugins/ALS-Community-4.22/Source/ALSV4_CPP/Private/Components/ALSMantleComponent.cpp:1451-1514 | only while climbing: the jump is released; with exit allowed a small up input exits climbing and a larger one runs the mantle check (started on a pass with a ledge component, nothing changed on the owner otherwise); without exit an armed jump starts with its distance difference and an unarmed release changes nothing |
| AlsMantle.MantleComponent.ReleaseToExit | Plugins/ALS-Community-4.22/Source/ALSV4_CPP/Private/Components/ALSMantleComponent.cpp:1462-1475 | an up input of 0.1 or less leaves climbing (in the air, no action, looking direction desired); a larger one keeps the action and the desired rotation and runs the mantle check: a pass with a ledge component starts the mantle, anything else changes nothing |
| AlsMantle.MantleComponent.StartClimbJump | Plugins/ALS-Community-4.22/Source/ALSV4_CPP/Private/Components/ALSMantleComponent.cpp:1478-1512 | without a target component nothing happens; otherwise the jump is disarmed, the ledge becomes the target, the distance to cover is the actor's unrotated location less the target's, the animation values are set and climb jumping starts |
| MotionWarping.UpdatedState | Plugins/MotionWarping/Source/MotionWarping/Private/RootMotionModifier.cpp:104-144 | removal exactly when the montage no longer matches, the window has ended, or removal was already marked |
| MotionWarping.WaitingActivatesInWindow | Plugins/MotionWarping/Source/MotionWarping/Private/RootMotionModifier.cpp:129-144 | a waiting modifier becomes active exactly inside the window with its montage playing, and keeps waiting exactly before it |
| MotionWarping.UpdatedStateAbsorbing | Plugins/MotionWarping/Source/MotionWarping/Private/RootMotionModifier.cpp:104-144 | removal is final, a disabled modifier never becomes active, an active one stays active or is removed |
| MotionWarping.ActiveNeedsOpenWindow | Plugins/MotionWarping/Source/MotionWarping/Private/RootMotionModifier.cpp:104-144 | starting from waiting, over any run of updates a modifier is active only if some update found the window open with its montage playing |
| MotionWarping.RemovalStays | Plugins/MotionWarping/Source/MotionWarping/Private/RootMotionModifier.cpp:104-144 | over any run of updates a removed modifier stays removed |
| MotionWarping.UpdatedStates | Plugins/MotionWarping/Source/MotionWarping/Private/RootMotionModifier.cpp:104-144 | over any run of updates: the result is Waiting only from Waiting, Active stays Active or is removed, Disabled stays Disabled or is removed, and removal is final |
| MotionWarping.RootMotionModifier.constructor | Plugins/MotionWarping/Source/MotionWarping/Private/RootMotionModifier.cpp:75-78 | a new modifier waits, with no events |
| MotionWarping.RootMotionModifier.SetState | Plugins/MotionWarping/Source/MotionWarping/Private/RootMotionModifier.cpp:147-157 | the state is set; the same state changes nothing; a different one runs the hook |
| MotionWarping.RootMotionModifier.OnStateChanged | Plugins/MotionWarping/Source/MotionWarping/Private/RootMotionModifier.cpp:159-180 | entering Active records the actual start time and the start transform and fires activation; leaving Active for Disabled or removal fires deactivation |
| MotionWarping.TransitionEvents | Plugins/MotionWarping/Source/MotionWarping/Private/RootMotionModifier.cpp:159-180 | at most one delegate fires: activation if and only if an owner component exists and the state enters Active, deactivation if and only if an owner component exists and the state leaves Active for Disabled or MarkedForRemoval |
| MotionWarping.RootMotionModifier.Update | Plugins/MotionWarping/Source/MotionWarping/Private/RootMotionModifier.cpp:91-145 | without a character nothing happens; otherwise the new state is UpdatedState over the position just read, the log gains the transition's delegate and then the update delegate while active, and positions, weight, actual start time and start transform change exactly as PlaybackUpdated says |
| MotionWarping.TransformFromComponent | Plugins/MotionWarping/Source/MotionWarping/Private/RootMotionModifier.cpp:36-53 | identity without a component, the component's transform without the socket, the socket's transform otherwise |
| MotionWarping.GetTargetTransform | Plugins/MotionWarping/Source/MotionWarping/Private/RootMotionModifier.cpp:55-70 | the stored transform unless the target follows a component that is still valid |
| MotionWarping.MakeWarpTarget | Plugins/MotionWarping/Source/MotionWarping/Private/RootMotionModifier.cpp:17-34 | the target keeps the component, bone name and follow flag it was made with, and in the scene it was made in it reports the transform it snapshotted |
| MotionWarping.WarpTargetFollows | Plugins/MotionWarping/Source/MotionWarping/Private/RootMotionModifier.cpp:17-70 | a non-following target keeps its creation-time transform; a following one tracks the component while it is valid and falls back to the snapshot otherwise |
| MotionWarping.WarpModifier.constructor | Plugins/MotionWarping/Source/MotionWarping/Private/RootMotionModifier.cpp:182-185 | a new warp modifier has an identity cached target and no cached offset |
| MotionWarping.WarpModifier.Update | Plugins/MotionWarping/Source/MotionWarping/Private/RootMotionModifier.cpp:187-273 | the base update happens in full (PlaybackUpdated, its state and its delegates); then an active modifier with no warp target becomes Disabled with a deactivation, one with a target stays active and logs a target change exactly when the target differs from the cached one, which it then caches; an inactive modifier keeps its cache and the base update's state and log |
| MotionWarping.WarpedDistance | Plugins/MotionWarping/Source/MotionWarping/Private/RootMotionModifier.cpp:373-400 | no warped distance when the original distance is nearly zero |
| MotionWarping.WarpedDistanceFullStep | Plugins/MotionWarping/Source/MotionWarping/Private/RootMotionModifier.cpp:373-400 | a step covering all the remaining animation motion covers all the distance to the target |
| MotionWarping.WarpedDistanceMonotone | Plugins/MotionWarping/Source/MotionWarping/Private/RootMotionModifier.cpp:373-400 | no motion gives no warped motion, and the warped motion grows with the step |
| MotionWarping.SimpleWarpTranslation | Plugins/MotionWarping/Source/MotionWarping/Private/RootMotionModifier.cpp:373-400 | zero horizontal translation for a nearly zero original, the input Z kept when Z is ignored, zero Z for a nearly zero original height |
| MotionWarping.SimpleWarpRootMotion | Plugins/MotionWarping/Source/MotionWarping/Private/RootMotionModifier.cpp:350-427 | without a character the root motion is unchanged; translation and rotation are each kept when their warp is off |
| AlsDebug.CastCharacters | Plugins/ALS-Community-4.22/Source/ALSV4_CPP/Private/Components/ALSDebugComponent.cpp:145-151 | the characters found are exactly the actors that cast, no more of them than actors |
| AlsDebug.IndexOf | Plugins/ALS-Community-4.22/Source/ALSV4_CPP/Private/Components/ALSDebugComponent.cpp:153-154 | INDEX_NONE exactly when absent; otherwise the position of the first occurrence |
| AlsDebug.Find | Plugins/ALS-Community-4.22/Source/ALSV4_CPP/Private/Components/ALSDebugComponent.cpp:153-154 | a null owner is never found; otherwise the first position of the owner |
| AlsDebug.PreviousIndex | Plugins/ALS-Community-4.22/Source/ALSV4_CPP/Private/Components/ALSDebugComponent.cpp:97-102 | a valid index steps to a valid index |
| AlsDebug.NextIndex | Plugins/ALS-Community-4.22/Source/ALSV4_CPP/Private/Components/ALSDebugComponent.cpp:115-120 | a valid index steps to a valid index |
| AlsDebug.NextUndoesPrevious | Plugins/ALS-Community-4.22/Source/ALSV4_CPP/Private/Components/ALSDebugComponent.cpp:97-120 | stepping one way then the other returns to the starting index, both ways round |
| AlsDebug.PreviousPressesCycle | Plugins/ALS-Community-4.22/Source/ALSV4_CPP/Private/Components/ALSDebugComponent.cpp:97-102 | k presses of the previous key move a valid index k places round the list |
| AlsDebug.PreviousPressesFullRound | Plugins/ALS-Community-4.22/Source/ALSV4_CPP/Private/Components/ALSDebugComponent.cpp:97-102 | a full round of presses returns the focus to the starting character |
| AlsDebug.DebugComponent.constructor | Plugins/ALS-Community-4.22/Source/ALSV4_CPP/Private/Components/ALSDebugComponent.cpp:23-31 | nothing focused, no characters, index INDEX_NONE, slow motion and debug mesh off |
| AlsDebug.DebugComponent.OnComponentDestroyed | Plugins/ALS-Community-4.22/Source/ALSV4_CPP/Private/Components/ALSDebugComponent.cpp:76-85 | all four static debug switches are cleared |
| AlsDebug.DebugComponent.PreviousFocusedDebugCharacter | Plugins/ALS-Community-4.22/Source/ALSV4_CPP/Private/Components/ALSDebugComponent.cpp:87-103 | no index clears the focus and keeps the index; otherwise the index steps forward with wrap-around and the focus is the character there |
| AlsDebug.DebugComponent.NextFocusedDebugCharacter | Plugins/ALS-Community-4.22/Source/ALSV4_CPP/Private/Components/ALSDebugComponent.cpp:105-121 | no index clears the focus and keeps the index; otherwise the index steps back with wrap-around and the focus is the character there |
| AlsDebug.DebugComponent.BeginPlay | Plugins/ALS-Community-4.22/Source/ALSV4_CPP/Private/Components/ALSDebugComponent.cpp:123-160 | the owner is focused and the list holds the characters among the actors; with actors found the index is the owner's first position, else 0, or INDEX_NONE when no actor is a character; with no actors the index is kept |
| AlsDebug.DebugComponent.ToggleGlobalTimeDilationLocal | Plugins/ALS-Community-4.22/Source/ALSV4_CPP/Private/Components/ALSDebugComponent.cpp:162-168 | the dilation is set only in a standalone game |
| AlsDebug.DebugComponent.ToggleSlomo | Plugins/ALS-Community-4.22/Source/ALSV4_CPP/Private/Components/ALSDebugComponent.cpp:173-177 | slow motion flips, with dilation 0.15 when on and 1 when off in a standalone game |
| AlsDebug.DebugComponent.ToggleDebugView | Plugins/ALS-Community-4.22/Source/ALSV4_CPP/Private/Components/ALSDebugComponent.cpp:179-194 | the debug view flips and is copied to the camera behaviour when there is one |
| AlsDebug.DebugComponent.ToggleDebugMesh | Plugins/ALS-Community-4.22/Source/ALSV4_CPP/Private/Components/ALSDebugComponent.cpp:196-210 | the flag flips; turning on remembers the skeletal mesh the owner's mesh component displays and makes the debug mesh visible, turning off makes the remembered mesh visible again; the displayed mesh follows each change of the visible mesh |
| GsHero.OverlayWantsOneTag | Source/AnimationSystem/Private/Characters/Heroes/GSHeroCharacter.cpp:429-456 | only weapon overlays ask for a weapon, and each asks for exactly one tag |
| GsHero.HolsterToShowCases | Source/AnimationSystem/Private/Characters/Heroes/GSHeroCharacter.cpp:402-426 | a holster appears exactly when a weapon overlay is left while holding that weapon, except the pistol between its two grips |
| GsHero.FirstWantedWeapon | Source/AnimationSystem/Private/Characters/Heroes/GSHeroCharacter.cpp:429-456 | none exactly when no inventory weapon is wanted; otherwise the first weapon the overlay asks for |
| GsHero.NoWeaponForOtherOverlays | Source/AnimationSystem/Private/Characters/Heroes/GSHeroCharacter.cpp:458-462 | a non-weapon overlay asks for no weapon at all |
| GsHero.FirstWantedIsFirst | Source/AnimationSystem/Private/Characters/Heroes/GSHeroCharacter.cpp:432-456 | the loop's first matching weapon is the first wanted weapon |
| GsHero.NoneWantedIsNone | Source/AnimationSystem/Private/Characters/Heroes/GSHeroCharacter.cpp:432-456 | a loop that matched nothing agrees with the specification |
| GsHero.Hero.constructor | Source/AnimationSystem/Private/Characters/Heroes/GSHeroCharacter.cpp:27-60 | empty inventory, no current weapon, the no-weapon tag, all holster meshes hidden |
| GsHero.Hero.GetEquipSocket | Source/AnimationSystem/Private/Characters/Heroes/GSHeroCharacter.cpp:386-396 | the mapped socket, or the root bone when the equip type is missing |
| GsHero.Hero.DoesWeaponExistInInventory | Source/AnimationSystem/Private/Characters/Heroes/GSHeroCharacter.cpp:194-206 | true exactly when a weapon is given and some inventory weapon has its tag |
| GsHero.Hero.SetCurrentWeapon | Source/AnimationSystem/Private/Characters/Heroes/GSHeroCharacter.cpp:247-311 | nothing happens when new equals last; otherwise the held object is cleared and weapon abilities cancelled; a new weapon swaps the loose tags and becomes current with its tag; none keeps the current weapon |
| GsHero.Hero.EquipWeapon | Source/AnimationSystem/Private/Characters/Heroes/GSHeroCharacter.cpp:362-374 | without authority the server is asked and the change is marked local; the weapon switch follows in both cases |
| GsHero.Hero.ShowHolster | Source/AnimationSystem/Private/Characters/Heroes/GSHeroCharacter.cpp:414-423 | exactly the named holster mesh becomes visible |
| GsHero.Hero.OnOverlayStateChanged | Source/AnimationSystem/Private/Characters/Heroes/GSHeroCharacter.cpp:398-462 | the holster of a weapon whose overlay is left is shown; the first wanted inventory weapon becomes current, otherwise the current weapon stays; the stored tag keeps matching; the request log grows by exactly the switch requests of the weapon choice (none when the wanted weapon is already held or no weapon is wanted, un-equip requests only when a weapon is held) |
| GsHero.Hero.SetOverlayState | Source/AnimationSystem/Private/Characters/Heroes/GSHeroCharacter.cpp:398-471 | the base setter's guard and mirror (an unforced unchanged overlay changes nothing, the animation instance included); when it acts, the animation instance gets the new and the previous overlay, the holster of the weapon held in the overlay left is shown, and the hero's weapon choice gives the same current weapon, tag and request log as the hero's hook |
| GsHero.Hero.AddWeaponToInventory | Source/AnimationSystem/Private/Characters/Heroes/GSHeroCharacter.cpp:76-182 | the touched item is recorded; added exactly with authority and no weapon of that tag held; added weapons and other items go to their list; the overlay resets to default, which shows the holster of the weapon held when a weapon overlay is left; a montage stops movement input and leaves the item's visibility, no montage hides the item; a refusal leaves the lists, the overlay, the holster flags, movement input and the item's visibility alone; the inventory stays duplicate-free; the current weapon and its tag are kept; a refusal adds no request, an addition adds the overlay reset's switch requests and then the pick-up's warp-target and montage requests, or its end |
| GsHero.Hero.AcceptItem | Source/AnimationSystem/Private/Characters/Heroes/GSHeroCharacter.cpp:106-144 | the accepted path: overlay reset to default with the holster of the held weapon shown, the item stored in its list, the current weapon kept, the pick-up montage or the hidden item, and the request log of the reset followed by the pick-up's requests |
| GsHero.Hero.StoreItem | Source/AnimationSystem/Private/Characters/Heroes/GSHeroCharacter.cpp:109-116 | an item whose tag is not held goes to the weapons when it carries a weapon tag and to the other items otherwise, and the inventory stays duplicate-free |
| GsHero.Hero.PlayPickUp | Source/AnimationSystem/Private/Characters/Heroes/GSHeroCharacter.cpp:119-144 | with a montage: no movement input, a warp target at the item at the character's height, the montage played; without one: the item is hidden and the pick-up ends |
| GsPickup.Pickup.constructor | Source/AnimationSystem/Private/Items/Pickups/GSPickup.cpp:16-27 | active, respawnable, five-second respawn, nobody has it |
| GsPickup.Pickup.InactiveRefusesAll | Source/AnimationSystem/Private/Items/Pickups/GSPickup.cpp:37-40 | an inactive pickup refuses everyone, so a taken pickup stays taken until it respawns |
| GsPickup.Pickup.CanBePickedUp | Source/AnimationSystem/Private/Items/Pickups/GSPickup.cpp:37-40 | true if and only if the pickup is active, the character is given and alive, the pickup is not pending kill, the character owns none of the restricted tags and the blueprint hook accepts it |
| GsPickup.Pickup.FirstEligible | Source/AnimationSystem/Private/Items/Pickups/GSPickup.cpp:151-154 | none exactly when no pawn is eligible; otherwise the first eligible pawn |
| GsPickup.Pickup.GetPickUpMontage | Source/AnimationSystem/Private/Items/Pickups/GSPickup.cpp:120-124 | the standing montage when standing, the crouch montage otherwise |
| GsPickup.Pickup.OnPickedUp | Source/AnimationSystem/Private/Items/Pickups/GSPickup.cpp:126-140 | the picked-up notification for the recorded character |
| GsPickup.Pickup.OnRespawned | Source/AnimationSystem/Private/Items/Pickups/GSPickup.cpp:157-160 | the respawned notification |
| GsPickup.Pickup.GivePickupTo | Source/AnimationSystem/Private/Items/Pickups/GSPickup.cpp:79-118 | the pickup takes over the character's ability system |
| GsPickup.Pickup.PickupOnTouch | Source/AnimationSystem/Private/Items/Pickups/GSPickup.cpp:52-67 | a character that may take it takes it: it is recorded, gets the ability system, the pickup goes inactive and notifies; otherwise nothing changes |
| GsPickup.Pickup.OfferTo | Source/AnimationSystem/Private/Items/Pickups/GSPickup.cpp:151-154 | one offer of the respawn loop: a pickup already taken stays with its taker, a free one goes to the pawn exactly when it is eligible, and the respawned-state invariant is kept |
| GsPickup.Pickup.RespawnPickup | Source/AnimationSystem/Private/Items/Pickups/GSPickup.cpp:142-155 | active and unowned again; then exactly the first eligible overlapping pawn takes it and nobody else; active exactly when nobody took it; the event log holds the respawn and at most one pick-up |
| GsPickup.Pickup.OnRep_IsActive | Source/AnimationSystem/Private/Items/Pickups/GSPickup.cpp:162-172 | an active replica runs the respawn notification, an inactive one the picked-up notification |
| GsInteractable.FirstConsidered | Source/AnimationSystem/Private/Characters/Abilities/AbilityTasks/GSAT_WaitInteractableTarget.cpp:72-78 | the index of the first hit not on the avatar; every hit before it is on the avatar |
| GsInteractable.NoHitKeepsTrace | Source/AnimationSystem/Private/Characters/Abilities/AbilityTasks/GSAT_WaitInteractableTarget.cpp:66-70 | with no hit past the avatar the result is the unchanged, non-blocking trace |
| GsInteractable.Decide | Source/AnimationSystem/Private/Characters/Abilities/AbilityTasks/GSAT_WaitInteractableTarget.cpp:80-110 | a blocking result is the hit itself; a non-blocking one names no actor, keeps the trace start and ends at the hit; in end-point mode, or for a hit without an actor, the result is blocking; in interactable mode a hit on an actor blocks if and only if its component overlaps the interactable channel and the actor is an available interactable |
| GsInteractable.LineTraceResult | Source/AnimationSystem/Private/Characters/Abilities/AbilityTasks/GSAT_WaitInteractableTarget.cpp:58-113 | the result never names the avatar; a blocking result is some hit not on the avatar, taken as blocking; a non-blocking result names no actor and keeps the trace start |
| GsInteractable.SkipFirst | Source/AnimationSystem/Private/Characters/Abilities/AbilityTasks/GSAT_WaitInteractableTarget.cpp:72-78 | a skipped first hit leaves the result to the remaining hits |
| GsInteractable.AvatarHitsSkipped | Source/AnimationSystem/Private/Characters/Abilities/AbilityTasks/GSAT_WaitInteractableTarget.cpp:72-111 | hits on the avatar in front of the others change nothing |
| GsInteractable.FirstConsideredDecides | Source/AnimationSystem/Private/Characters/Abilities/AbilityTasks/GSAT_WaitInteractableTarget.cpp:72-111 | only the first considered hit decides: later hits never change the result |
| GsInteractable.FirstConsideredPrefix | Source/AnimationSystem/Private/Characters/Abilities/AbilityTasks/GSAT_WaitInteractableTarget.cpp:72-78 | the first considered hit of a prefix is the first considered hit of any extension |
| GsInteractable.InteractableModeBlocking | Source/AnimationSystem/Private/Characters/Abilities/AbilityTasks/GSAT_WaitInteractableTarget.cpp:80-102 | for a hit on an actor, blocking exactly for an available interactable on an overlapping component; otherwise the trace ends at the hit, non-blocking, with no actor |
| GsInteractable.EndPointModeBlocking | Source/AnimationSystem/Private/Characters/Abilities/AbilityTasks/GSAT_WaitInteractableTarget.cpp:104-111 | in end-point mode the first considered hit comes back as blocking |
| GsInteractable.NonBlockingHasNoActor | Source/AnimationSystem/Private/Characters/Abilities/AbilityTasks/GSAT_WaitInteractableTarget.cpp:58-113 | a non-blocking result never names an actor |
| GsInteractable.DistSquared | Source/AnimationSystem/Private/Characters/Abilities/AbilityTasks/GSAT_WaitInteractableTarget.cpp:142-143 | a squared distance is never negative |
| GsInteractable.AdjustedAimEnd | Source/AnimationSystem/Private/Characters/Abilities/AbilityTasks/GSAT_WaitInteractableTarget.cpp:142-145 | a blocking hit within the ability range (on squared distances) is always the aim end; no blocking hit, or one beyond the range, gives the view end |
| GsInteractable.UseTraceResult | Source/AnimationSystem/Private/Characters/Abilities/AbilityTasks/GSAT_WaitInteractableTarget.cpp:142-143 | only a blocking hit is trusted, and a blocking hit at the trace start always is |
| GsInteractable.TrustedHitInRange | Source/AnimationSystem/Private/Characters/Abilities/AbilityTasks/GSAT_WaitInteractableTarget.cpp:142-143 | with a non-negative range, a trusted hit lies within the range of the trace start on every axis |
| GsInteractable.WaitInteractableTarget.constructor | Source/AnimationSystem/Private/Characters/Abilities/AbilityTasks/GSAT_WaitInteractableTarget.cpp:13-17 | no target data and no events |
| GsInteractable.WaitInteractableTarget.LineTrace | Source/AnimationSystem/Private/Characters/Abilities/AbilityTasks/GSAT_WaitInteractableTarget.cpp:58-113 | the loop's result is the filtered trace result of the specification |
| GsInteractable.WaitInteractableTarget.PerformTrace | Source/AnimationSystem/Private/Characters/Abilities/AbilityTasks/GSAT_WaitInteractableTarget.cpp:196-316 | without an avatar nothing happens; a miss loses any held target once and holds the miss; the same target changes nothing; a new target loses the old one, then is found and touched when it is an item |

## Left out

- Traces, sweeps, walkability and capsule-room queries are engine physics; their outcomes are parameters (hit records and booleans).
- Curve assets, montage playback and slot animations are engine assets; curve samples are parameters and playback is a set of playing assets or a request.
- Interpolation (FInterpTo, VInterpTo, RInterpTo), rotation of vectors, quaternion and rotator blending, atan2/sin/cos and matrix component-to-world conversions are floating-point geometry; they are function-valued parameters or left unevaluated.
- Networking (Server_, Multicast_ and Client_ calls, replication, OnRep plumbing beyond OnRep_IsActive) is transport; only the local branch each call takes is modelled.
- Timers, sounds, pose snapshots, ragdoll physics and the debug draw functions are engine side effects with no decision in them.
- TickComponent of the mantle and debug components, the per-frame UpdateLedge* bookkeeping and IsTouchFloor are trace-driven frame updates; the decisions they make are the modelled operations they call.
- NativeUpdateAnimation beyond its grounded branch (aiming, layering, in-air, ragdoll and climbing values) is curve and interpolation arithmetic.
- AimWithPlayerController and ClipCameraRayToAbilityRange are view geometry; only the trust rule for the aim trace's hit and the resulting aim end are modelled.
- Gameplay tags are compared as exact strings and tag containers as sets, so hierarchical tag matching is not modelled; every character is assumed to have its ability system component.
- ALSCharacterStructLibrary.h, ALSDebugComponent.h and GSWeapon.h are not part of this model. The debug component's focused index is taken to start at INDEX_NONE, and a weapon is a pickup that carries a weapon tag.
- ALSMathLibrary.h is not part of this model. GetSpeedForGait maps walking, running and sprinting to the walk, run and sprint speeds.
- Common.MapRangeClamped: a zero-width input range is treated as a step (0 below the bound, 1 at or above it), because the engine's safe division returns one of those.
- AlsMathLibrary.GetInterpSpeed: only bounds and the values at the two frame-rate ends are stated, not the interpolated factor in between.
- AlsAnim.TurnRotationScale: for a scaled asset only the case where the turn equals the animated angle is stated; the general ratio is not.
- AlsAnim.AnimInstance.TurnInPlace: the selection of the asset is proved through SelectTurnAsset, and the normalised yaw delta is taken as given.
- AlsMantle.MantleComponent.MantleUpdate: the rotation blend is a parameter; only the translation is checked against the corrected blend.
- AlsMantle.MantleComponent.OnOwnerJumpInput: of the mantle-or-grab branch only the full grab (mantle rejected, ledge found) is restated here; the other outcomes are carried by MantleOrGrab.
- MotionWarping.WarpModifier.Update: the cached offset from the animation's warp point is stated only as kept once set, because its first value comes from pose queries.
- MotionWarping.SimpleWarpRootMotion: only the guards are stated; the warped rotation is a parameter.
- AlsMathLibrary.CalculateAxisIndependentLag and the ALSComponentLocalToWorld family are interpolation and transform conversions, left out as above.
- GsHero.Hero.SetOverlayState: the hero's override runs its weapon logic before calling the base hook. The model runs the base setter first; the two touch disjoint state, so the resulting state is the same.
- AlsCharacter.Character.StancePressedAction, AlsCharacter.Character.JumpPressedAction: crouch, un-crouch, jump and roll are issued as requests and their engine callbacks (OnStartCrouch, OnEndCrouch) are separate operations.
- AlsDebug.CastCharacters: order of the found characters is given by the definition; the contract states membership in both directions and the length bound.
- The player-camera manager, player controller, AI tasks, GAS wrapper classes and animation notifies hold no decision logic of the core.
- AlsCharacter.Character.BeginPlay: the last movement-input rotation, the network-optimisation flag, the tick prerequisite, the simulated-proxy root-motion mode and the component lookups are engine setup and are not modelled; the target and velocity rotations are.
- AlsMantle.MantleComponent.CornerCheck: the animated start offset uses the intended sideways shift (SideShift), not the expression as written at ALSMantleComponent.cpp:927-933; the difference is stated by SideShiftAsWrittenDiffers (see Findings).
- AlsAnim.AnimInstance.TurnInPlace requires TurnAssetsValid: every turn asset that scales by the turn angle has a non-zero animated angle. This excludes the header's default asset (animated angle 0 with scaling on), for which the source divides by zero at ALSCharacterAnimInstance.cpp:1439.
- AlsAnim.AnimInstance.TurnInPlaceCheck, AlsAnim.AnimInstance.TurnedInPlace and AlsAnim.AnimInstance.UpdateGrounded carry the same TurnAssetsValid requirement, for the same reason.
- AlsAnim.AnimInstance.UpdateGrounded: on the moving branch, UpdateMovementValues and UpdateRotationValues are curve and interpolation arithmetic and are not modelled, and neither is DynamicTransitionCheck (a foot-distance check that plays a transition animation).
- AlsMantle.MantleComponent.MantleStart: clearing the held object before a high mantle is not modelled, and neither is MantleEnd's held-object update; the held object is a visual attachment with no decision in it.
- AlsCharacter.Character.OnMovementStateChanged: the copies of the movement state, action, stance, gait, rotation mode, view mode and shoulder side into the camera behaviour are not modelled; the camera behaviour only reads them.
- Delegate broadcasts are recorded as requests whether or not a listener is bound; the IsBound guards only skip a broadcast with no listener.
- GsHero.Hero.AddWeaponToInventory: a pickup counts as a weapon exactly when it carries a weapon tag, so a weapon actor whose tag is empty goes to the item list here, where the source's class test would put it among the weapons; the weapon class is not part of this model.

## Findings

| source | as written | input that shows it | evidently intended | confidence | as-written member | corrected member |
|---|---|---|---|---|---|---|
| Plugins/ALS-Community-4.22/Source/ALSV4_CPP/Private/Components/ALSMantleComponent.cpp:927-933 | the conditional operator binds looser than `+`, so the sideways shift tests `StartingOffset.X + TurnAngle > 90` and then drops the asset offset | starting offset X = 20 with a turn of 80 degrees: the shift is −5 (and 0 at 90 degrees) | the asset offset plus half of the turn beyond 90 degrees (20 in both cases) | not executed | AlsMantle.SideShiftAsWrittenDiffers | AlsMantle.SideShift |
