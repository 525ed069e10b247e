/**
 * The debug component (ALSDebugComponent.cpp): cycling the focused debug character
 * through the characters found at begin play, the slow-motion and debug-mesh toggles,
 * and the debug switches that every debug component shares.
 */
module AlsDebug {
  import opened Common
  import opened AlsCharacter

  /** The engine's "no index" marker. */
  const INDEX_NONE: int := -1

  /** Dilation applied while slow motion is on, and the normal rate. */
  const SlomoDilation: real := 0.15
  const NormalDilation: real := 1.0

  /** The four switches the source keeps as static members, shared by every debug component. */
  class DebugFlags {
    var debugView: bool
    var showTraces: bool
    var showDebugShapes: bool
    var showLayerColors: bool

    constructor ()
      ensures !debugView && !showTraces && !showDebugShapes && !showLayerColors
    {
      debugView := false;
      showTraces := false;
      showDebugShapes := false;
      showLayerColors := false;
    }
  }

  /** The world's global time dilation, which only a standalone game lets this component set. */
  class GameWorld {
    const isStandalone: bool
    var globalTimeDilation: real

    constructor (isStandalone: bool)
      ensures this.isStandalone == isStandalone && globalTimeDilation == NormalDilation
    {
      this.isStandalone := isStandalone;
      globalTimeDilation := NormalDilation;
    }
  }

  /** The camera animation instance's own copy of the debug-view switch. */
  class CameraBehavior {
    var debugView: bool

    constructor ()
      ensures !debugView
    {
      debugView := false;
    }
  }

  /** The characters among the found actors, in order; an actor that does not cast is `None`. */
  function CastCharacters(actors: seq<Option<Character>>): (r: seq<Character>)
    ensures |r| <= |actors|
    ensures forall i :: 0 <= i < |r| ==> Option.Some(r[i]) in actors
    ensures forall i :: 0 <= i < |actors| && actors[i].Some? ==> actors[i].value in r
  {
    if |actors| == 0 then []
    else
      var last := actors[|actors| - 1];
      CastCharacters(actors[..|actors| - 1]) + (if last.Some? then [last.value] else [])
  }

  /** The position of the first occurrence of `c` in `s`, or `INDEX_NONE`. */
  function IndexOf(s: seq<Character>, c: Character): (r: int)
    ensures r == INDEX_NONE <==> c !in s
    ensures r != INDEX_NONE ==> 0 <= r < |s| && s[r] == c && c !in s[..r]
  {
    if |s| == 0 then INDEX_NONE
    else if s[0] == c then 0
    else
      var k := IndexOf(s[1..], c);
      assert s[1..][..if k == INDEX_NONE then 0 else k] == s[1..if k == INDEX_NONE then 1 else k + 1];
      if k == INDEX_NONE then INDEX_NONE else k + 1
  }

  /** The array search on a possibly-null character: null is never among the found characters. */
  function Find(s: seq<Character>, c: Option<Character>): (r: int)
    ensures c.None? ==> r == INDEX_NONE
    ensures c.Some? ==> r == IndexOf(s, c.value)
  {
    if c.None? then INDEX_NONE else IndexOf(s, c.value)
  }

  /** The index stepping of PreviousFocusedDebugCharacter: up by one, back to 0 at the end. */
  function PreviousIndex(i: int, n: nat): (r: int)
    ensures 0 <= i < n ==> 0 <= r < n
  {
    if i + 1 >= n then 0 else i + 1
  }

  /** The index stepping of NextFocusedDebugCharacter: down by one, to the last index below 0. */
  function NextIndex(i: int, n: nat): (r: int)
    ensures 0 <= i < n ==> 0 <= r < n
  {
    if i - 1 < 0 then n - 1 else i - 1
  }

  /** Stepping one way and then the other returns to the starting index. */
  lemma NextUndoesPrevious(i: int, n: nat)
    requires 0 <= i < n
    ensures NextIndex(PreviousIndex(i, n), n) == i
    ensures PreviousIndex(NextIndex(i, n), n) == i
  {
  }

  /** `k` presses of the previous-character key. */
  function PreviousPresses(i: int, n: nat, k: nat): int
  {
    if k == 0 then i else PreviousIndex(PreviousPresses(i, n, k - 1), n)
  }

  /** Arithmetic steps for the wrap-around of the press count. */
  lemma MulAtLeast(k: int, n: int)
    requires k >= 1 && n > 0
    ensures k * n >= n
  {
    assert k * n == (k - 1) * n + n;
    assert (k - 1) * n >= 0;
  }

  lemma ModUnique(a: int, n: int, q: int, r: int)
    requires n > 0 && 0 <= r < n && a == q * n + r
    ensures a % n == r
  {
    var q', r' := a / n, a % n;
    assert a == q' * n + r';
    assert q * n - q' * n == r' - r;
    assert (q - q') * n == q * n - q' * n;
    if q > q' {
      MulAtLeast(q - q', n);
    } else if q < q' {
      assert (q' - q) * n == q' * n - q * n;
      MulAtLeast(q' - q, n);
    }
  }

  lemma ModSucc(a: nat, n: nat)
    requires n > 0
    ensures (a + 1) % n == if a % n + 1 == n then 0 else a % n + 1
  {
    var q, r := a / n, a % n;
    assert a == q * n + r;
    if r + 1 == n {
      assert a + 1 == (q + 1) * n + 0;
      ModUnique(a + 1, n, q + 1, 0);
    } else {
      ModUnique(a + 1, n, q, r + 1);
    }
  }

  /** After `k` presses a valid index has moved `k` places round the list. */
  lemma {:induction false} PreviousPressesCycle(i: int, n: nat, k: nat)
    requires 0 <= i < n
    ensures PreviousPresses(i, n, k) == (i + k) % n
  {
    if k > 0 {
      PreviousPressesCycle(i, n, k - 1);
      ModSucc(i + k - 1, n);
    }
  }

  /** A full round of presses brings the focus back to the starting character. */
  lemma PreviousPressesFullRound(i: int, n: nat)
    requires 0 <= i < n
    ensures PreviousPresses(i, n, n) == i
  {
    PreviousPressesCycle(i, n, n);
    assert i + n == 1 * n + i;
  }

  class DebugComponent {
    /** Storage of the shared static switches. */
    const flags: DebugFlags
    /** The mesh shown while the debug mesh is on. */
    const debugMesh: nat

    var ownerCharacter: Option<Character>
    var debugFocusCharacter: Option<Character>
    var availableDebugCharacters: seq<Character>
    var focusedDebugCharacterIndex: int
    var slomo: bool
    var debugMeshVisible: bool
    var defaultMesh: nat

    /** No character is focused and the index is `INDEX_NONE` until begin play. */
    constructor (flags: DebugFlags, debugMesh: nat)
      ensures this.flags == flags && this.debugMesh == debugMesh
      ensures ownerCharacter.None? && debugFocusCharacter.None? && availableDebugCharacters == []
      ensures focusedDebugCharacterIndex == INDEX_NONE && !slomo && !debugMeshVisible
      ensures IndexValid()
    {
      this.flags := flags;
      this.debugMesh := debugMesh;
      ownerCharacter := Option.None;
      debugFocusCharacter := Option.None;
      availableDebugCharacters := [];
      focusedDebugCharacterIndex := INDEX_NONE;
      slomo := false;
      debugMeshVisible := false;
      defaultMesh := 0;
    }

    /** The focused index is either unset or a position in the list. */
    ghost predicate IndexValid()
      reads this
    {
      focusedDebugCharacterIndex == INDEX_NONE || 0 <= focusedDebugCharacterIndex < |availableDebugCharacters|
    }

    /** Static switches are cleared when a debug component goes away. */
    method OnComponentDestroyed()
      modifies flags
      ensures !flags.debugView && !flags.showTraces && !flags.showDebugShapes && !flags.showLayerColors
    {
      flags.debugView := false;
      flags.showTraces := false;
      flags.showDebugShapes := false;
      flags.showLayerColors := false;
    }

    /** Without an index the focus is cleared; otherwise the focus moves one place forward. */
    method PreviousFocusedDebugCharacter()
      requires IndexValid()
      modifies this`focusedDebugCharacterIndex, this`debugFocusCharacter
      ensures IndexValid()
      ensures old(focusedDebugCharacterIndex) == INDEX_NONE ==>
        focusedDebugCharacterIndex == INDEX_NONE && debugFocusCharacter.None?
      ensures old(focusedDebugCharacterIndex) != INDEX_NONE ==>
        focusedDebugCharacterIndex == PreviousIndex(old(focusedDebugCharacterIndex), |availableDebugCharacters|) &&
        debugFocusCharacter == Option.Some(availableDebugCharacters[focusedDebugCharacterIndex])
    {
      if focusedDebugCharacterIndex == INDEX_NONE {
        debugFocusCharacter := Option.None;
        return;
      }
      focusedDebugCharacterIndex := focusedDebugCharacterIndex + 1;
      if focusedDebugCharacterIndex >= |availableDebugCharacters| {
        focusedDebugCharacterIndex := 0;
      }
      debugFocusCharacter := Option.Some(availableDebugCharacters[focusedDebugCharacterIndex]);
    }

    /** Without an index the focus is cleared; otherwise the focus moves one place back. */
    method NextFocusedDebugCharacter()
      requires IndexValid()
      modifies this`focusedDebugCharacterIndex, this`debugFocusCharacter
      ensures IndexValid()
      ensures old(focusedDebugCharacterIndex) == INDEX_NONE ==>
        focusedDebugCharacterIndex == INDEX_NONE && debugFocusCharacter.None?
      ensures old(focusedDebugCharacterIndex) != INDEX_NONE ==>
        focusedDebugCharacterIndex == NextIndex(old(focusedDebugCharacterIndex), |availableDebugCharacters|) &&
        debugFocusCharacter == Option.Some(availableDebugCharacters[focusedDebugCharacterIndex])
    {
      if focusedDebugCharacterIndex == INDEX_NONE {
        debugFocusCharacter := Option.None;
        return;
      }
      focusedDebugCharacterIndex := focusedDebugCharacterIndex - 1;
      if focusedDebugCharacterIndex < 0 {
        focusedDebugCharacterIndex := |availableDebugCharacters| - 1;
      }
      debugFocusCharacter := Option.Some(availableDebugCharacters[focusedDebugCharacterIndex]);
    }

    /**
     * The owner (when it is a character) becomes the focus; the characters among `actors`
     * become the list, and the index points at the owner, or at the first entry when the owner
     * is not listed. With no actors at all the index is left as it was.
     */
    method BeginPlay(ownerCast: Option<Character>, actors: seq<Option<Character>>)
      modifies this`ownerCharacter, this`debugFocusCharacter, this`availableDebugCharacters,
        this`focusedDebugCharacterIndex
      ensures ownerCharacter == ownerCast && debugFocusCharacter == ownerCast
      ensures availableDebugCharacters == CastCharacters(actors)
      ensures |actors| == 0 ==> focusedDebugCharacterIndex == old(focusedDebugCharacterIndex)
      ensures |actors| > 0 && ownerCast.Some? && ownerCast.value in availableDebugCharacters ==>
        0 <= focusedDebugCharacterIndex < |availableDebugCharacters| &&
        availableDebugCharacters[focusedDebugCharacterIndex] == ownerCast.value &&
        ownerCast.value !in availableDebugCharacters[..focusedDebugCharacterIndex]
      ensures |actors| > 0 && (ownerCast.None? || ownerCast.value !in availableDebugCharacters) ==>
        focusedDebugCharacterIndex == (if |availableDebugCharacters| > 0 then 0 else INDEX_NONE)
      ensures old(focusedDebugCharacterIndex) == INDEX_NONE ==> IndexValid()
    {
      ownerCharacter := ownerCast;
      debugFocusCharacter := ownerCharacter;
      availableDebugCharacters := [];
      if |actors| > 0 {
        var i := 0;
        while i < |actors|
          invariant 0 <= i <= |actors|
          invariant availableDebugCharacters == CastCharacters(actors[..i])
          invariant ownerCharacter == ownerCast && debugFocusCharacter == ownerCast
        {
          assert actors[..i + 1][..i] == actors[..i];
          if actors[i].Some? {
            availableDebugCharacters := availableDebugCharacters + [actors[i].value];
          }
          i := i + 1;
        }
        assert actors[..i] == actors;
        focusedDebugCharacterIndex := Find(availableDebugCharacters, debugFocusCharacter);
        if focusedDebugCharacterIndex == INDEX_NONE && |availableDebugCharacters| > 0 {
          focusedDebugCharacterIndex := 0;
        }
      }
    }

    /** Sets the global time dilation, but only in a standalone game. */
    method ToggleGlobalTimeDilationLocal(world: GameWorld, timeDilation: real)
      modifies world`globalTimeDilation
      ensures world.globalTimeDilation == if world.isStandalone then timeDilation else old(world.globalTimeDilation)
    {
      if world.isStandalone {
        world.globalTimeDilation := timeDilation;
      }
    }

    /** Flips slow motion and asks for the matching dilation. */
    method ToggleSlomo(world: GameWorld)
      modifies this`slomo, world`globalTimeDilation
      ensures slomo == !old(slomo)
      ensures world.isStandalone ==> world.globalTimeDilation == if slomo then SlomoDilation else NormalDilation
      ensures !world.isStandalone ==> world.globalTimeDilation == old(world.globalTimeDilation)
    {
      slomo := !slomo;
      ToggleGlobalTimeDilationLocal(world, if slomo then SlomoDilation else NormalDilation);
    }

    /** Flips the shared debug-view switch and copies it to the camera behaviour when there is one. */
    method ToggleDebugView(camera: Option<CameraBehavior>)
      modifies flags`debugView, if camera.Some? then {camera.value} else {}
      ensures flags.debugView == !old(flags.debugView)
      ensures camera.Some? ==> camera.value.debugView == flags.debugView
    {
      flags.debugView := !flags.debugView;
      if camera.Some? {
        camera.value.debugView := flags.debugView;
      }
    }

    /**
     * Turning the debug mesh on remembers the mesh the owner displays and makes the debug mesh
     * visible; turning it off makes the remembered mesh visible again.
     */
    method ToggleDebugMesh()
      requires ownerCharacter.Some?
      modifies this`debugMeshVisible, this`defaultMesh,
        ownerCharacter.value, ownerCharacter.value.anim, ownerCharacter.value.movement
      ensures debugMeshVisible == !old(debugMeshVisible)
      ensures old(debugMeshVisible) ==>
        defaultMesh == old(defaultMesh) && ownerCharacter.value.visibleMesh == defaultMesh &&
        ownerCharacter.value.displayedMesh ==
          (if old(ownerCharacter.value.visibleMesh) != defaultMesh then defaultMesh else old(ownerCharacter.value.displayedMesh))
      ensures !old(debugMeshVisible) ==>
        defaultMesh == old(ownerCharacter.value.displayedMesh) && ownerCharacter.value.visibleMesh == debugMesh &&
        ownerCharacter.value.displayedMesh ==
          (if old(ownerCharacter.value.visibleMesh) != debugMesh then debugMesh else old(ownerCharacter.value.displayedMesh))
    {
      var owner := ownerCharacter.value;
      if debugMeshVisible {
        owner.SetVisibleMesh(defaultMesh);
      } else {
        defaultMesh := owner.displayedMesh;
        owner.SetVisibleMesh(debugMesh);
      }
      debugMeshVisible := !debugMeshVisible;
    }
  }
}
