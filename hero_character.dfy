/**
 * The hero character of the game layer (GSHeroCharacter.cpp): its inventory of weapons and
 * other pickups, the current weapon and its tag, the weapon chosen when the overlay state
 * changes, and the holstered weapon meshes shown when a weapon overlay is left.
 */
module GsHero {
  import opened Common
  import opened AlsEnums
  import opened AlsCharacter
  import opened GsPickup

  const RootSocket: string := "root"
  const PickUpWarping: string := "PickUp"

  const RifleTag: Tag := "Weapon.Equipped.Rifle"
  const PistolTag: Tag := "Weapon.Equipped.Pistol"
  const BowTag: Tag := "Weapon.Equipped.Bow"
  const NoWeaponTag: Tag := "Weapon.Equipped.None"
  const WeaponAbilityTag: Tag := "Ability.Weapon"

  /** EGSEquipType: None, Rifle, Pistol. */
  datatype EquipType = EquipNone | EquipRifle | EquipPistol

  /** The holstered weapon meshes attached to the character. */
  datatype HolsterMesh = RifleMesh | PistolMesh | BowMesh

  /** Engine-side effects the hero asks for. */
  datatype HeroRequest =
    | ClearHeldObject
    | CancelAbilities(tag: Tag)
    | RemoveLooseTag(tag: Tag)
    | AddLooseTag(tag: Tag)
    | ServerEquipWeapon(weapon: Option<Pickup>)
    | AddWarpTarget(name: string, location: Vec3)
    | PlayPickUpMontage(montage: nat)
    | PickUpEnd

  predicate IsWeaponOverlay(s: OverlayState)
  {
    s == Rifle || s == PistolOneHanded || s == PistolTwoHanded || s == Bow
  }

  /** The overlay state asks for a weapon with this tag. */
  predicate OverlayWantsTag(s: OverlayState, tag: Option<Tag>)
  {
    (s == Rifle && tag == Option.Some(RifleTag)) ||
    ((s == PistolTwoHanded || s == PistolOneHanded) && tag == Option.Some(PistolTag)) ||
    (s == Bow && tag == Option.Some(BowTag))
  }

  /** Only weapon overlays ask for a weapon, and each asks for exactly one tag. */
  lemma OverlayWantsOneTag(s: OverlayState, t: Option<Tag>, u: Option<Tag>)
    requires OverlayWantsTag(s, t)
    ensures IsWeaponOverlay(s) && t.Some?
    ensures OverlayWantsTag(s, u) ==> t == u
  {
  }

  /** A switch between the one- and two-handed pistol overlays. */
  predicate PistolGripChange(previous: OverlayState, now: OverlayState)
  {
    (now == PistolOneHanded && previous == PistolTwoHanded) || (previous == PistolOneHanded && now == PistolTwoHanded)
  }

  /**
   * The holster mesh made visible by an overlay change, given the tag of the current weapon
   * (`None` without one): only after a weapon overlay, and not for a pistol grip change.
   */
  function HolsterToShow(current: Option<Tag>, previous: OverlayState, now: OverlayState): Option<HolsterMesh>
  {
    if current.None? || !IsWeaponOverlay(previous) then Option.None
    else if current.value == PistolTag then
      (if PistolGripChange(previous, now) then Option.None else Option.Some(PistolMesh))
    else if current.value == RifleTag then Option.Some(RifleMesh)
    else if current.value == BowTag then Option.Some(BowMesh)
    else Option.None
  }

  /** A holster mesh appears exactly when a weapon overlay is left holding that weapon, except between pistol grips. */
  lemma HolsterToShowCases(current: Option<Tag>, previous: OverlayState, now: OverlayState)
    ensures HolsterToShow(current, previous, now).Some? ==> current.Some? && IsWeaponOverlay(previous)
    ensures HolsterToShow(current, previous, now) == Option.Some(PistolMesh) <==>
      current == Option.Some(PistolTag) && IsWeaponOverlay(previous) && !PistolGripChange(previous, now)
    ensures HolsterToShow(current, previous, now) == Option.Some(RifleMesh) <==>
      current == Option.Some(RifleTag) && IsWeaponOverlay(previous)
    ensures HolsterToShow(current, previous, now) == Option.Some(BowMesh) <==>
      current == Option.Some(BowTag) && IsWeaponOverlay(previous)
  {
  }

  /** Some weapon of the list carries this tag. */
  predicate HasWeaponWithTag(weapons: seq<Pickup>, tag: Tag)
  {
    exists i :: 0 <= i < |weapons| && weapons[i].weaponTag == Option.Some(tag)
  }

  /** The first weapon of the list that the overlay state asks for. */
  function FirstWantedWeapon(weapons: seq<Pickup>, s: OverlayState): (r: Option<Pickup>)
    ensures r.None? ==> forall i :: 0 <= i < |weapons| ==> !OverlayWantsTag(s, weapons[i].weaponTag)
    ensures r.Some? ==>
      exists i :: 0 <= i < |weapons| && weapons[i] == r.value && OverlayWantsTag(s, weapons[i].weaponTag) &&
        (forall j :: 0 <= j < i ==> !OverlayWantsTag(s, weapons[j].weaponTag))
  {
    if |weapons| == 0 then Option.None
    else if OverlayWantsTag(s, weapons[0].weaponTag) then Option.Some(weapons[0])
    else
      var r := FirstWantedWeapon(weapons[1..], s);
      assert r.Some? ==>
        exists i :: 1 <= i < |weapons| && weapons[i] == r.value && OverlayWantsTag(s, weapons[i].weaponTag) &&
          (forall j :: 0 <= j < i ==> !OverlayWantsTag(s, weapons[j].weaponTag)) by {
        if r.Some? {
          var k :| 0 <= k < |weapons| - 1 && weapons[1..][k] == r.value && OverlayWantsTag(s, weapons[1..][k].weaponTag) &&
            forall j :: 0 <= j < k ==> !OverlayWantsTag(s, weapons[1..][j].weaponTag);
          assert weapons[k + 1] == r.value;
          assert forall j :: 0 <= j < k + 1 ==> !OverlayWantsTag(s, weapons[j].weaponTag) by {
            forall j | 0 <= j < k + 1
              ensures !OverlayWantsTag(s, weapons[j].weaponTag)
            {
              if j > 0 {
                assert weapons[j] == weapons[1..][j - 1];
              }
            }
          }
        }
      }
      r
  }

  /** A non-weapon overlay asks for no weapon at all. */
  lemma {:induction false} NoWeaponForOtherOverlays(weapons: seq<Pickup>, s: OverlayState)
    requires !IsWeaponOverlay(s)
    ensures FirstWantedWeapon(weapons, s).None?
  {
    if |weapons| > 0 {
      NoWeaponForOtherOverlays(weapons[1..], s);
    }
  }

  class Hero {
    const character: Character
    /** The configured attach socket per equip type. */
    const equipSockets: map<EquipType, string>
    const hasAbilitySystem: bool
    const hasMainAnimInstance: bool

    var weapons: seq<Pickup>
    var pickUpItems: seq<Pickup>
    var lastTouchItem: Option<Pickup>
    var currentWeapon: Option<Pickup>
    var currentWeaponTag: Tag
    var changedWeaponLocally: bool
    var rifleMeshVisible: bool
    var pistolMeshVisible: bool
    var bowMeshVisible: bool
    var requests: seq<HeroRequest>

    /** Constructor defaults: empty inventory, no weapon, the no-weapon tag, all holster meshes hidden. */
    constructor (character: Character, equipSockets: map<EquipType, string>, hasAbilitySystem: bool, hasMainAnimInstance: bool)
      ensures this.character == character && this.equipSockets == equipSockets
      ensures this.hasAbilitySystem == hasAbilitySystem && this.hasMainAnimInstance == hasMainAnimInstance
      ensures weapons == [] && pickUpItems == [] && lastTouchItem.None? && currentWeapon.None?
      ensures currentWeaponTag == NoWeaponTag && !changedWeaponLocally
      ensures !rifleMeshVisible && !pistolMeshVisible && !bowMeshVisible && requests == []
      ensures InventoryValid()
    {
      this.character := character;
      this.equipSockets := equipSockets;
      this.hasAbilitySystem := hasAbilitySystem;
      this.hasMainAnimInstance := hasMainAnimInstance;
      weapons := [];
      pickUpItems := [];
      lastTouchItem := Option.None;
      currentWeapon := Option.None;
      currentWeaponTag := NoWeaponTag;
      changedWeaponLocally := false;
      rifleMeshVisible := false;
      pistolMeshVisible := false;
      bowMeshVisible := false;
      requests := [];
    }

    /** Every inventory weapon is a weapon, and no two share a weapon tag. */
    ghost predicate InventoryValid()
      reads this`weapons
    {
      (forall i :: 0 <= i < |weapons| ==> weapons[i].weaponTag.Some?) &&
      (forall i, j :: 0 <= i < j < |weapons| ==> weapons[i].weaponTag != weapons[j].weaponTag)
    }

    /** The stored weapon tag is the current weapon's own tag. */
    ghost predicate CurrentTagMatches()
      reads this`currentWeapon, this`currentWeaponTag
    {
      currentWeapon.Some? ==> currentWeapon.value.weaponTag == Option.Some(currentWeaponTag)
    }

    /** The attach socket for an equip type, falling back to the root bone. */
    function GetEquipSocket(equipType: EquipType): (r: string)
      ensures equipType in equipSockets ==> r == equipSockets[equipType]
      ensures equipType !in equipSockets ==> r == RootSocket
    {
      if equipType in equipSockets then equipSockets[equipType] else RootSocket
    }

    /** Whether the inventory already holds a weapon with the same tag as `inWeapon`. */
    method DoesWeaponExistInInventory(inWeapon: Option<Pickup>) returns (r: bool)
      requires inWeapon.Some? ==> inWeapon.value.weaponTag.Some?
      ensures r <==> inWeapon.Some? && HasWeaponWithTag(weapons, inWeapon.value.weaponTag.value)
    {
      var i := 0;
      while i < |weapons|
        invariant 0 <= i <= |weapons|
        invariant inWeapon.Some? ==> forall j :: 0 <= j < i ==> weapons[j].weaponTag != inWeapon.value.weaponTag
      {
        if inWeapon.Some? && weapons[i].weaponTag == inWeapon.value.weaponTag {
          return true;
        }
        i := i + 1;
      }
      return false;
    }

    /** The requests a weapon change makes, in order. */
    function SwitchRequests(newWeapon: Option<Pickup>, oldTag: Tag): seq<HeroRequest>
      requires newWeapon.Some? ==> newWeapon.value.weaponTag.Some?
    {
      [ClearHeldObject] + (if hasAbilitySystem then [CancelAbilities(WeaponAbilityTag)] else []) +
      (if newWeapon.Some? && hasAbilitySystem
       then [RemoveLooseTag(oldTag), AddLooseTag(newWeapon.value.weaponTag.value)] else [])
    }

    /**
     * A change away from `lastWeapon` clears the held object and cancels weapon abilities; a
     * new weapon becomes current with its tag. Un-equipping (a null new weapon) does nothing
     * further, so the current weapon is kept.
     */
    method SetCurrentWeapon(newWeapon: Option<Pickup>, lastWeapon: Option<Pickup>)
      requires newWeapon.Some? ==> newWeapon.value.weaponTag.Some?
      modifies this`currentWeapon, this`currentWeaponTag, this`requests
      ensures newWeapon == lastWeapon ==> unchanged(this)
      ensures old(CurrentTagMatches()) ==> CurrentTagMatches()
      ensures newWeapon != lastWeapon ==> requests == old(requests) + SwitchRequests(newWeapon, old(currentWeaponTag))
      ensures newWeapon != lastWeapon && newWeapon.Some? ==>
        currentWeapon == newWeapon && currentWeaponTag == newWeapon.value.weaponTag.value
      ensures newWeapon.None? ==> currentWeapon == old(currentWeapon) && currentWeaponTag == old(currentWeaponTag)
    {
      if newWeapon == lastWeapon {
        return;
      }
      requests := requests + [ClearHeldObject];
      if hasAbilitySystem {
        requests := requests + [CancelAbilities(WeaponAbilityTag)];
      }
      if newWeapon.Some? {
        var oldTag := currentWeaponTag;
        currentWeapon := newWeapon;
        currentWeaponTag := newWeapon.value.weaponTag.value;
        if hasAbilitySystem {
          requests := requests + [RemoveLooseTag(oldTag), AddLooseTag(currentWeaponTag)];
        }
      }
    }

    /** Equips a weapon; without authority the server is asked too and the change is marked as local. */
    method EquipWeapon(newWeapon: Option<Pickup>, hasAuthority: bool)
      requires newWeapon.Some? ==> newWeapon.value.weaponTag.Some?
      modifies this`currentWeapon, this`currentWeaponTag, this`requests, this`changedWeaponLocally
      ensures !hasAuthority ==> changedWeaponLocally
      ensures hasAuthority ==> changedWeaponLocally == old(changedWeaponLocally)
      ensures old(CurrentTagMatches()) ==> CurrentTagMatches()
      ensures newWeapon.Some? ==> currentWeapon == newWeapon
      ensures newWeapon.None? ==> currentWeapon == old(currentWeapon) && currentWeaponTag == old(currentWeaponTag)
      ensures var sent := if hasAuthority then [] else [ServerEquipWeapon(newWeapon)];
        requests == old(requests) + sent +
          (if newWeapon == old(currentWeapon) then [] else SwitchRequests(newWeapon, old(currentWeaponTag)))
    {
      if !hasAuthority {
        requests := requests + [ServerEquipWeapon(newWeapon)];
        SetCurrentWeapon(newWeapon, currentWeapon);
        changedWeaponLocally := true;
      } else {
        SetCurrentWeapon(newWeapon, currentWeapon);
      }
    }

    /**
     * The requests the overlay hook's weapon choice makes, given the weapon held before and its
     * tag: a weapon overlay switches to the first inventory weapon it asks for unless that one is
     * already held, and asks for nothing when no weapon is wanted; any other overlay un-equips,
     * which requests something only when a weapon is held.
     */
    function OverlaySwitchRequests(overlay: OverlayState, held: Option<Pickup>, heldTag: Tag): seq<HeroRequest>
      reads this`weapons
    {
      if !IsWeaponOverlay(overlay) then
        if held.None? then [] else SwitchRequests(Option.None, heldTag)
      else
        var wanted := FirstWantedWeapon(weapons, overlay);
        if wanted.None? || wanted == held then [] else SwitchRequests(wanted, heldTag)
    }

    /** Makes one holster mesh visible. */
    method ShowHolster(mesh: HolsterMesh)
      modifies this`rifleMeshVisible, this`pistolMeshVisible, this`bowMeshVisible
      ensures rifleMeshVisible == (old(rifleMeshVisible) || mesh == RifleMesh)
      ensures pistolMeshVisible == (old(pistolMeshVisible) || mesh == PistolMesh)
      ensures bowMeshVisible == (old(bowMeshVisible) || mesh == BowMesh)
    {
      match mesh
      case RifleMesh => rifleMeshVisible := true;
      case PistolMesh => pistolMeshVisible := true;
      case BowMesh => bowMeshVisible := true;
    }

    /**
     * The holster flags are the earlier ones plus the mesh HolsterToShow picks for leaving
     * `previous` for `now` while `held` is the current weapon.
     */
    ghost predicate HolstersShown(held: Option<Pickup>, previous: OverlayState, now: OverlayState,
                                  rifle0: bool, pistol0: bool, bow0: bool)
      reads this`rifleMeshVisible, this`pistolMeshVisible, this`bowMeshVisible
    {
      var shown := HolsterToShow(if held.Some? then held.value.weaponTag else Option.None, previous, now);
      rifleMeshVisible == (rifle0 || shown == Option.Some(RifleMesh)) &&
      pistolMeshVisible == (pistol0 || shown == Option.Some(PistolMesh)) &&
      bowMeshVisible == (bow0 || shown == Option.Some(BowMesh))
    }

    /**
     * The hero's part of the overlay-change hook: show the holster of a weapon whose overlay
     * was left, then equip the first inventory weapon the new overlay asks for. A non-weapon
     * overlay un-equips, which keeps the current weapon.
     */
    method OnOverlayStateChanged(previous: OverlayState)
      requires InventoryValid()
      modifies this`currentWeapon, this`currentWeaponTag, this`requests,
        this`rifleMeshVisible, this`pistolMeshVisible, this`bowMeshVisible
      ensures HolstersShown(old(currentWeapon), previous, character.overlayState,
        old(rifleMeshVisible), old(pistolMeshVisible), old(bowMeshVisible))
      ensures var wanted := FirstWantedWeapon(weapons, character.overlayState);
        currentWeapon == (if wanted.Some? then wanted else old(currentWeapon))
      ensures FirstWantedWeapon(weapons, character.overlayState).None? ==> currentWeaponTag == old(currentWeaponTag)
      ensures old(CurrentTagMatches()) ==> CurrentTagMatches()
      ensures currentWeapon.Some? && currentWeapon != old(currentWeapon) ==> currentWeaponTag == currentWeapon.value.weaponTag.value
      ensures requests == old(requests) + OverlaySwitchRequests(character.overlayState, old(currentWeapon), old(currentWeaponTag))
    {
      var current := if currentWeapon.Some? then currentWeapon.value.weaponTag else Option.None;
      var shown := HolsterToShow(current, previous, character.overlayState);
      if shown.Some? {
        ShowHolster(shown.value);
      }
      var overlay := character.overlayState;
      if IsWeaponOverlay(overlay) {
        var i := 0;
        while i < |weapons|
          invariant 0 <= i <= |weapons|
          invariant forall j :: 0 <= j < i ==> !OverlayWantsTag(overlay, weapons[j].weaponTag)
          invariant unchanged(this`currentWeapon, this`currentWeaponTag)
        {
          if OverlayWantsTag(overlay, weapons[i].weaponTag) {
            FirstWantedIsFirst(weapons, overlay, i);
            SetCurrentWeapon(Option.Some(weapons[i]), currentWeapon);
            return;
          }
          i := i + 1;
        }
        NoneWantedIsNone(weapons, overlay);
      } else {
        NoWeaponForOtherOverlays(weapons, overlay);
        SetCurrentWeapon(Option.None, currentWeapon);
      }
    }

    /**
     * Changing the overlay state through the hero runs the base setter and then the
     * hero's part of the hook; nothing happens when the state is unchanged and not forced.
     */
    method SetOverlayState(newState: OverlayState, force: bool)
      requires InventoryValid()
      modifies character`overlayState, character.anim`overlayState, character.anim`lastOverlayState,
        this`currentWeapon, this`currentWeaponTag, this`requests,
        this`rifleMeshVisible, this`pistolMeshVisible, this`bowMeshVisible
      ensures !(force || old(character.overlayState) != newState) ==>
        unchanged(this) && character.overlayState == old(character.overlayState) &&
        unchanged(character.anim`overlayState, character.anim`lastOverlayState)
      ensures force || old(character.overlayState) != newState ==>
        character.overlayState == newState && character.anim.overlayState == newState &&
        character.anim.lastOverlayState == old(character.overlayState) &&
        HolstersShown(old(currentWeapon), old(character.overlayState), newState,
          old(rifleMeshVisible), old(pistolMeshVisible), old(bowMeshVisible)) &&
        var wanted := FirstWantedWeapon(weapons, newState);
        currentWeapon == (if wanted.Some? then wanted else old(currentWeapon)) &&
        (wanted.None? ==> currentWeaponTag == old(currentWeaponTag)) &&
        requests == old(requests) + OverlaySwitchRequests(newState, old(currentWeapon), old(currentWeaponTag))
    {
      var prev := character.overlayState;
      var acts := force || prev != newState;
      character.SetOverlayState(newState, force);
      if acts {
        OnOverlayStateChanged(prev);
      }
    }

    /**
     * Records the touched item, then refuses a weapon whose tag is already held and refuses
     * on a non-authority instance. Otherwise resets the overlay, stores the item (weapons and
     * other pickups apart), and either plays the pick-up montage, blocking movement input, or
     * hides the item and ends the pick-up at once.
     */
    method AddWeaponToInventory(newItem: Pickup, hasAuthority: bool) returns (added: bool)
      requires InventoryValid()
      modifies this`lastTouchItem, this`weapons, this`pickUpItems,
        this`currentWeapon, this`currentWeaponTag, this`requests,
        this`rifleMeshVisible, this`pistolMeshVisible, this`bowMeshVisible,
        character`overlayState, character`canInputMove,
        character.anim`overlayState, character.anim`lastOverlayState, newItem`hiddenInGame
      ensures InventoryValid()
      ensures lastTouchItem == Option.Some(newItem)
      ensures added <==>
        hasAuthority && !(newItem.weaponTag.Some? && HasWeaponWithTag(old(weapons), newItem.weaponTag.value))
      ensures !added ==>
        weapons == old(weapons) && pickUpItems == old(pickUpItems) &&
        character.canInputMove == old(character.canInputMove) && unchanged(character`overlayState) &&
        unchanged(character.anim`overlayState, character.anim`lastOverlayState) &&
        unchanged(this`rifleMeshVisible, this`pistolMeshVisible, this`bowMeshVisible) && unchanged(newItem`hiddenInGame)
      // Leaving a weapon overlay for the default one shows the holster of the weapon held.
      ensures added ==>
        HolstersShown(old(currentWeapon), old(character.overlayState), Default,
          old(rifleMeshVisible), old(pistolMeshVisible), old(bowMeshVisible))
      ensures added && newItem.weaponTag.Some? ==> weapons == old(weapons) + [newItem] && pickUpItems == old(pickUpItems)
      ensures added && newItem.weaponTag.None? ==> pickUpItems == old(pickUpItems) + [newItem] && weapons == old(weapons)
      ensures added ==> character.overlayState == Default
      ensures added && newItem.GetPickUpMontage(old(character.stance)).Some? ==>
        !character.canInputMove && newItem.hiddenInGame == old(newItem.hiddenInGame)
      ensures added && newItem.GetPickUpMontage(old(character.stance)).None? ==>
        newItem.hiddenInGame && character.canInputMove == old(character.canInputMove)
      // Resetting to the default overlay un-equips through a null weapon, which keeps the current one.
      ensures currentWeapon == old(currentWeapon) && currentWeaponTag == old(currentWeaponTag)
      ensures !added ==> requests == old(requests)
      ensures added ==>
        requests == old(requests) +
          (if old(character.overlayState) != Default then OverlaySwitchRequests(Default, old(currentWeapon), old(currentWeaponTag))
           else []) +
          PickUpRequests(newItem)
    {
      lastTouchItem := Option.Some(newItem);
      if newItem.weaponTag.Some? {
        var exists_ := DoesWeaponExistInInventory(Option.Some(newItem));
        if exists_ {
          return false;
        }
      }
      if !hasAuthority {
        return false;
      }
      AcceptItem(newItem);
      return true;
    }

    /**
     * The accepting half of AddWeaponToInventory: resets the overlay to the default one, stores
     * the item and starts the pick-up.
     */
    method AcceptItem(newItem: Pickup)
      requires InventoryValid()
      requires newItem.weaponTag.Some? ==> !HasWeaponWithTag(weapons, newItem.weaponTag.value)
      modifies this`weapons, this`pickUpItems,
        this`currentWeapon, this`currentWeaponTag, this`requests,
        this`rifleMeshVisible, this`pistolMeshVisible, this`bowMeshVisible,
        character`overlayState, character`canInputMove,
        character.anim`overlayState, character.anim`lastOverlayState, newItem`hiddenInGame
      ensures InventoryValid()
      ensures HolstersShown(old(currentWeapon), old(character.overlayState), Default,
        old(rifleMeshVisible), old(pistolMeshVisible), old(bowMeshVisible))
      ensures newItem.weaponTag.Some? ==> weapons == old(weapons) + [newItem] && pickUpItems == old(pickUpItems)
      ensures newItem.weaponTag.None? ==> pickUpItems == old(pickUpItems) + [newItem] && weapons == old(weapons)
      ensures character.overlayState == Default
      ensures newItem.GetPickUpMontage(old(character.stance)).Some? ==>
        !character.canInputMove && newItem.hiddenInGame == old(newItem.hiddenInGame)
      ensures newItem.GetPickUpMontage(old(character.stance)).None? ==>
        newItem.hiddenInGame && character.canInputMove == old(character.canInputMove)
      ensures currentWeapon == old(currentWeapon) && currentWeaponTag == old(currentWeaponTag)
      ensures requests == old(requests) +
        (if old(character.overlayState) != Default then OverlaySwitchRequests(Default, old(currentWeapon), old(currentWeaponTag))
         else []) +
        PickUpRequests(newItem)
    {
      SetOverlayState(Default, false);
      StoreItem(newItem);
      PlayPickUp(newItem);
    }

    /** Stores an item whose weapon tag is not yet held: weapons and other pickups apart. */
    method StoreItem(newItem: Pickup)
      requires InventoryValid()
      requires newItem.weaponTag.Some? ==> !HasWeaponWithTag(weapons, newItem.weaponTag.value)
      modifies this`weapons, this`pickUpItems
      ensures InventoryValid()
      ensures newItem.weaponTag.Some? ==> weapons == old(weapons) + [newItem] && pickUpItems == old(pickUpItems)
      ensures newItem.weaponTag.None? ==> pickUpItems == old(pickUpItems) + [newItem] && weapons == old(weapons)
    {
      if newItem.weaponTag.Some? {
        weapons := weapons + [newItem];
      } else {
        pickUpItems := pickUpItems + [newItem];
      }
    }

    /**
     * The requests of a pick-up in the character's stance: with a montage, a warp target at the
     * item (at the character's height) and, given an animation instance, the montage; without
     * one, the end of the pick-up.
     */
    function PickUpRequests(item: Pickup): seq<HeroRequest>
      reads character`stance, character`actorLocation
    {
      var montage := item.GetPickUpMontage(character.stance);
      if montage.Some? then
        [AddWarpTarget(PickUpWarping, Vec3(item.location.x, item.location.y, character.actorLocation.z))] +
        (if hasMainAnimInstance then [PlayPickUpMontage(montage.value)] else [])
      else [PickUpEnd]
    }

    /**
     * With a montage for the current stance the character stops taking movement input, a warp
     * target is set at the item (at the character's height) and the montage plays; without one
     * the item is hidden and the pick-up ends at once.
     */
    method PlayPickUp(newItem: Pickup)
      modifies this`requests, character`canInputMove, newItem`hiddenInGame
      ensures newItem.GetPickUpMontage(character.stance).Some? ==>
        !character.canInputMove && newItem.hiddenInGame == old(newItem.hiddenInGame) &&
        requests == old(requests) + [AddWarpTarget(PickUpWarping, Vec3(newItem.location.x, newItem.location.y, character.actorLocation.z))] +
          (if hasMainAnimInstance then [PlayPickUpMontage(newItem.GetPickUpMontage(character.stance).value)] else [])
      ensures newItem.GetPickUpMontage(character.stance).None? ==>
        newItem.hiddenInGame && character.canInputMove == old(character.canInputMove) &&
        requests == old(requests) + [PickUpEnd]
    {
      var montage := newItem.GetPickUpMontage(character.stance);
      if montage.Some? {
        character.canInputMove := false;
        var target := Vec3(newItem.location.x, newItem.location.y, character.actorLocation.z);
        requests := requests + [AddWarpTarget(PickUpWarping, target)];
        if hasMainAnimInstance {
          requests := requests + [PlayPickUpMontage(montage.value)];
        }
      } else {
        newItem.hiddenInGame := true;
        requests := requests + [PickUpEnd];
      }
    }
  }

  /** The loop's first match is the first wanted weapon. */
  lemma FirstWantedIsFirst(weapons: seq<Pickup>, s: OverlayState, i: nat)
    requires i < |weapons| && OverlayWantsTag(s, weapons[i].weaponTag)
    requires forall j :: 0 <= j < i ==> !OverlayWantsTag(s, weapons[j].weaponTag)
    ensures FirstWantedWeapon(weapons, s) == Option.Some(weapons[i])
  {
  }

  /** A loop that found nothing agrees with the specification. */
  lemma NoneWantedIsNone(weapons: seq<Pickup>, s: OverlayState)
    requires forall j :: 0 <= j < |weapons| ==> !OverlayWantsTag(s, weapons[j].weaponTag)
    ensures FirstWantedWeapon(weapons, s).None?
  {
  }
}
