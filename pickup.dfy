/**
 * Pickups (GSPickup.cpp): whether a character may take a pickup, taking it on touch,
 * respawning and offering it again to the pawns standing on it, and the pick-up montage
 * chosen by stance. Weapons are pickups that carry a weapon tag.
 */
module GsPickup {
  import opened Common
  import opened AlsEnums

  /** A gameplay tag, by its full dotted name. */
  type Tag = string

  /** A character of the game layer as far as pickups see it. */
  class CharacterBase {
    /** Identity of the character's ability system component. */
    const abilitySystem: nat
    /** Gameplay tags currently owned through that component. */
    var ownedTags: set<Tag>

    constructor (abilitySystem: nat, ownedTags: set<Tag>)
      ensures this.abilitySystem == abilitySystem && this.ownedTags == ownedTags
    {
      this.abilitySystem := abilitySystem;
      this.ownedTags := ownedTags;
    }

    /** The health attribute read is a fixed 100 in this version of the game. */
    function GetHealth(): real { 100.0 }

    predicate IsAlive() { GetHealth() > 0.0 }
  }

  /** Notifications a pickup raises for its blueprint side. */
  datatype PickupEvent = PickedUp(pawn: Option<CharacterBase>) | Respawned

  class Pickup {
    /** `Some` for a weapon, holding its weapon tag. */
    const weaponTag: Option<Tag>
    const location: Vec3
    const pickUpMontageStanding: Option<nat>
    const pickUpMontageCrouch: Option<nat>
    const restrictedPickupTags: set<Tag>
    const canRespawn: bool
    const respawnTime: real

    var isActive: bool
    var pickedUpBy: Option<CharacterBase>
    /** The actor is being destroyed. */
    var pendingKill: bool
    var hiddenInGame: bool
    /** The ability system taken over from the character that picked this up. */
    var abilitySystem: Option<nat>
    var events: seq<PickupEvent>

    /** Constructor defaults: active, respawnable, with a five-second respawn time. */
    constructor (weaponTag: Option<Tag>, location: Vec3, standing: Option<nat>, crouch: Option<nat>, restricted: set<Tag>)
      ensures this.weaponTag == weaponTag && this.location == location
      ensures pickUpMontageStanding == standing && pickUpMontageCrouch == crouch && restrictedPickupTags == restricted
      ensures isActive && canRespawn && respawnTime == 5.0
      ensures pickedUpBy.None? && !pendingKill && !hiddenInGame && abilitySystem.None? && events == []
    {
      this.weaponTag := weaponTag;
      this.location := location;
      pickUpMontageStanding := standing;
      pickUpMontageCrouch := crouch;
      restrictedPickupTags := restricted;
      canRespawn := true;
      respawnTime := 5.0;
      isActive := true;
      pickedUpBy := Option.None;
      pendingKill := false;
      hiddenInGame := false;
      abilitySystem := Option.None;
      events := [];
    }

    /** Everything CanBePickedUp asks of the character itself, given the blueprint hook `allows`. */
    predicate Eligible(c: CharacterBase, allows: CharacterBase -> bool)
      reads this`pendingKill, c
    {
      c.IsAlive() && !pendingKill && c.ownedTags * restrictedPickupTags == {} && allows(c)
    }

    /** An active pickup may go to a live character without a restricted tag whom the hook accepts. */
    predicate CanBePickedUp(test: Option<CharacterBase>, allows: CharacterBase -> bool): (r: bool)
      reads this`isActive, this`pendingKill, if test.Some? then {test.value} else {}
      ensures r ==> isActive && test.Some? && test.value.IsAlive() && !pendingKill && allows(test.value)
      ensures r ==> forall t :: t in test.value.ownedTags ==> t !in restrictedPickupTags
      ensures (isActive && test.Some? && test.value.IsAlive() && !pendingKill && allows(test.value) &&
        forall t :: t in test.value.ownedTags ==> t !in restrictedPickupTags) ==> r
    {
      isActive && test.Some? && (DisjointTags(test.value.ownedTags, restrictedPickupTags); Eligible(test.value, allows))
    }

    /** Two tag sets share nothing exactly when no tag of the first is in the second. */
    static lemma DisjointTags(owned: set<Tag>, restricted: set<Tag>)
      ensures owned * restricted == {} <==> forall t :: t in owned ==> t !in restricted
    {
      assert forall t :: t in owned && t in restricted ==> t in owned * restricted;
    }

    /** An inactive pickup refuses everyone, which is why a taken pickup stays taken until it respawns. */
    lemma InactiveRefusesAll(test: Option<CharacterBase>, allows: CharacterBase -> bool)
      requires !isActive
      ensures !CanBePickedUp(test, allows)
    {
    }

    /** The first of `pawns` that is eligible, if any. */
    function FirstEligible(pawns: seq<CharacterBase>, allows: CharacterBase -> bool): (r: Option<CharacterBase>)
      reads this`pendingKill, set i | 0 <= i < |pawns| :: pawns[i]
      ensures r.None? ==> forall i :: 0 <= i < |pawns| ==> !Eligible(pawns[i], allows)
      ensures r.Some? ==>
        exists i :: 0 <= i < |pawns| && pawns[i] == r.value && Eligible(pawns[i], allows) &&
          forall j :: 0 <= j < i ==> !Eligible(pawns[j], allows)
    {
      if |pawns| == 0 then Option.None
      else
        var first := FirstEligible(pawns[..|pawns| - 1], allows);
        if first.Some? then first
        else if Eligible(pawns[|pawns| - 1], allows) then Option.Some(pawns[|pawns| - 1])
        else Option.None
    }

    /** The stand-up montage when standing, the crouch montage otherwise. */
    function GetPickUpMontage(stance: Stance): (r: Option<nat>)
      ensures stance == Standing ==> r == pickUpMontageStanding
      ensures stance != Standing ==> r == pickUpMontageCrouch
    {
      if stance == Standing then pickUpMontageStanding else pickUpMontageCrouch
    }

    /** Raises the picked-up notification for the recorded character. */
    method OnPickedUp()
      modifies this`events
      ensures events == old(events) + [PickedUp(pickedUpBy)]
    {
      events := events + [PickedUp(pickedUpBy)];
    }

    method OnRespawned()
      modifies this`events
      ensures events == old(events) + [Respawned]
    {
      events := events + [Respawned];
    }

    /** The pickup takes over the ability system of the character it is given to. */
    method GivePickupTo(pawn: CharacterBase)
      modifies this`abilitySystem
      ensures abilitySystem == Option.Some(pawn.abilitySystem)
    {
      abilitySystem := Option.Some(pawn.abilitySystem);
    }

    /** A character that may take the pickup takes it and the pickup goes inactive; otherwise nothing changes. */
    method PickupOnTouch(pawn: Option<CharacterBase>, allows: CharacterBase -> bool)
      modifies this`pickedUpBy, this`abilitySystem, this`isActive, this`events
      ensures old(CanBePickedUp(pawn, allows)) ==>
        pickedUpBy == pawn && !isActive && abilitySystem == Option.Some(pawn.value.abilitySystem) &&
        events == old(events) + [PickedUp(pawn)]
      ensures !old(CanBePickedUp(pawn, allows)) ==> unchanged(this)
    {
      if CanBePickedUp(pawn, allows) {
        pickedUpBy := pawn;
        GivePickupTo(pawn.value);
        isActive := false;
        OnPickedUp();
      }
    }

    /**
     * The pickup comes back active and unowned, then is offered to each overlapping pawn in
     * turn: the first eligible one takes it, and nobody after it does.
     */
    method RespawnPickup(overlapping: seq<CharacterBase>, allows: CharacterBase -> bool)
      modifies this`pickedUpBy, this`abilitySystem, this`isActive, this`events
      ensures pickedUpBy == FirstEligible(overlapping, allows)
      ensures isActive <==> pickedUpBy.None?
      ensures events == old(events) + [Respawned] + (if pickedUpBy.Some? then [PickedUp(pickedUpBy)] else [])
      ensures pickedUpBy.None? ==> abilitySystem == old(abilitySystem)
      ensures pickedUpBy.Some? ==> abilitySystem == Option.Some(pickedUpBy.value.abilitySystem)
    {
      isActive := true;
      pickedUpBy := Option.None;
      OnRespawned();
      ghost var events0, system0 := events, abilitySystem;
      var i := 0;
      while i < |overlapping|
        invariant 0 <= i <= |overlapping|
        invariant pickedUpBy == FirstEligible(overlapping[..i], allows)
        invariant RespawnedState(events0, system0)
      {
        assert overlapping[..i + 1][..i] == overlapping[..i];
        OfferTo(overlapping[i], allows, events0, system0);
        i := i + 1;
      }
      assert overlapping[..i] == overlapping;
    }

    /** After a respawn: active exactly while nobody has the pickup, with the events and owner that implies. */
    ghost predicate RespawnedState(events0: seq<PickupEvent>, system0: Option<nat>)
      reads this`isActive, this`pickedUpBy, this`events, this`abilitySystem, if pickedUpBy.Some? then {pickedUpBy.value} else {}
    {
      (isActive <==> pickedUpBy.None?) &&
      (pickedUpBy.None? ==> events == events0 && abilitySystem == system0) &&
      (pickedUpBy.Some? ==> events == events0 + [PickedUp(pickedUpBy)] && abilitySystem == Option.Some(pickedUpBy.value.abilitySystem))
    }

    /** One step of the respawn offer: the pawn takes the pickup if it is still free and the pawn is eligible. */
    method OfferTo(pawn: CharacterBase, allows: CharacterBase -> bool, ghost events0: seq<PickupEvent>, ghost system0: Option<nat>)
      requires RespawnedState(events0, system0)
      modifies this`pickedUpBy, this`abilitySystem, this`isActive, this`events
      ensures RespawnedState(events0, system0)
      ensures pickedUpBy == if old(pickedUpBy).Some? then old(pickedUpBy)
        else if Eligible(pawn, allows) then Option.Some(pawn) else Option.None
    {
      PickupOnTouch(Option.Some(pawn), allows);
    }

    /** On a replica the active flag decides which notification runs. */
    method OnRep_IsActive()
      modifies this`events
      ensures isActive ==> events == old(events) + [Respawned]
      ensures !isActive ==> events == old(events) + [PickedUp(pickedUpBy)]
    {
      if isActive {
        OnRespawned();
      } else {
        OnPickedUp();
      }
    }
  }
}
