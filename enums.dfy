/** The character enumerations of the locomotion system (ALSCharacterEnumLibrary.h). */
module AlsEnums {

  datatype Gait = Walking | Running | Sprinting

  datatype MovementAction = None | LowMantle | HighMantle | CornerClimbing | ClimbJumping | Rolling | GettingUp

  datatype MovementState = None | Grounded | InAir | Mantling | Climbing | Ragdoll

  datatype ClimbingType = Hanging | FreeHanging

  datatype CornerClimbType = Inner | Outer

  datatype OverlayState =
    | Default | Masculine | Feminine | Injured | HandsTied
    | Rifle | PistolOneHanded | PistolTwoHanded | Bow
    | Torch | Binoculars | Box | Barrel

  datatype RotationMode = VelocityDirection | LookingDirection | Aiming

  datatype Stance = Standing | Crouching

  datatype ViewMode = ThirdPerson | FirstPerson

  datatype MantleType = HighMantle | LowMantle | FallingCatch

  datatype MovementDirection = Forward | Right | Left | Backward

  /** The engine's character movement modes that the locomotion code reacts to. */
  datatype EngineMovementMode = MoveNone | MoveWalking | MoveNavWalking | MoveFalling | MoveSwimming | MoveFlying | MoveCustom
}
