/**
 * The wait-for-interactable-target ability task (GSAT_WaitInteractableTarget.cpp): the
 * filtered line trace that looks past the ability's own avatar, the aim-trace range rule,
 * and the found/lost tracking of the current target on every periodic trace.
 */
module GsInteractable {
  import opened Common

  /** The parts of a hit result the task reads or writes; actors are identities. */
  datatype HitResult = HitResult(actor: Option<nat>, location: Vec3, traceStart: Vec3, traceEnd: Vec3, blockingHit: bool)

  /**
   * One hit of the multi-line trace with the engine answers about it: whether the hit
   * component is valid and overlaps the interactable channel, whether the actor implements
   * the interactable interface, and whether it says it is available for interaction.
   */
  datatype TraceHit = TraceHit(hit: HitResult, overlapsInteractable: bool, implementsInteractable: bool, available: bool)

  /** A freshly made hit result with only the trace ends filled in. */
  function EmptyResult(start: Vec3, end: Vec3): HitResult
  {
    HitResult(Option.None, Zero, start, end, false)
  }

  /** A hit the trace does not skip: one without an actor, or on an actor other than the avatar. */
  predicate Considered(h: HitResult, avatar: Option<nat>)
  {
    h.actor.None? || h.actor != avatar
  }

  /** Index of the first hit the trace does not skip. */
  function FirstConsidered(hits: seq<TraceHit>, avatar: Option<nat>): (r: Option<nat>)
    ensures r.Some? ==> r.value < |hits| && Considered(hits[r.value].hit, avatar)
    ensures forall i :: 0 <= i < (if r.Some? then r.value else |hits|) ==> !Considered(hits[i].hit, avatar)
  {
    if |hits| == 0 then Option.None
    else if Considered(hits[0].hit, avatar) then Option.Some(0)
    else
      var r := FirstConsidered(hits[1..], avatar);
      assert forall i :: 1 <= i < (if r.Some? then r.value + 1 else |hits|) ==> hits[i] == hits[1..][i - 1];
      if r.Some? then Option.Some(r.value + 1) else Option.None
  }

  /**
   * What the first considered hit makes of the result. Looking for an interactable: an
   * available interactable on an overlapping component is taken as a blocking hit; any other
   * actor only shortens the trace and is not blocking. Looking for an end point (or for a hit
   * without an actor): the hit itself, taken as blocking.
   */
  function Decide(th: TraceHit, start: Vec3, end: Vec3, lookForInteractable: bool): (r: HitResult)
    ensures r.blockingHit ==> r == th.hit.(blockingHit := true)
    ensures !r.blockingHit ==> r.actor.None? && r.traceStart == start && r.traceEnd == th.hit.location
    ensures !lookForInteractable || th.hit.actor.None? ==> r.blockingHit
    ensures lookForInteractable && th.hit.actor.Some? ==>
      (r.blockingHit <==> th.overlapsInteractable && th.implementsInteractable && th.available)
  {
    if lookForInteractable && th.hit.actor.Some? then
      if th.overlapsInteractable && th.implementsInteractable && th.available then th.hit.(blockingHit := true)
      else EmptyResult(start, end).(traceEnd := th.hit.location)
    else th.hit.(blockingHit := true)
  }

  /** The result of the filtered line trace over the hits in trace order. */
  function LineTraceResult(hits: seq<TraceHit>, start: Vec3, end: Vec3, avatar: Option<nat>, lookForInteractable: bool): (r: HitResult)
    ensures r.actor.Some? ==> r.actor != avatar
    ensures r.blockingHit ==> exists k :: 0 <= k < |hits| && Considered(hits[k].hit, avatar) && r == hits[k].hit.(blockingHit := true)
    ensures !r.blockingHit ==> r.actor.None? && r.traceStart == start
  {
    var k := FirstConsidered(hits, avatar);
    if k.None? then EmptyResult(start, end) else Decide(hits[k.value], start, end, lookForInteractable)
  }

  /** With no hit past the avatar the result is the unchanged, non-blocking trace. */
  lemma NoHitKeepsTrace(hits: seq<TraceHit>, start: Vec3, end: Vec3, avatar: Option<nat>, look: bool)
    requires forall i :: 0 <= i < |hits| ==> !Considered(hits[i].hit, avatar)
    ensures LineTraceResult(hits, start, end, avatar, look) == EmptyResult(start, end)
  {
  }

  /** A skipped first hit leaves the result to the remaining hits. */
  lemma SkipFirst(hits: seq<TraceHit>, start: Vec3, end: Vec3, avatar: Option<nat>, look: bool)
    requires |hits| > 0 && !Considered(hits[0].hit, avatar)
    ensures LineTraceResult(hits, start, end, avatar, look) == LineTraceResult(hits[1..], start, end, avatar, look)
  {
    var r := FirstConsidered(hits[1..], avatar);
    if r.Some? {
      assert hits[r.value + 1] == hits[1..][r.value];
    }
  }

  /** Hits on the avatar in front of the others change nothing. */
  lemma {:induction false} AvatarHitsSkipped(skipped: seq<TraceHit>, hits: seq<TraceHit>, start: Vec3, end: Vec3, avatar: Option<nat>, look: bool)
    requires forall i :: 0 <= i < |skipped| ==> !Considered(skipped[i].hit, avatar)
    ensures LineTraceResult(skipped + hits, start, end, avatar, look) == LineTraceResult(hits, start, end, avatar, look)
  {
    if |skipped| > 0 {
      assert (skipped + hits)[1..] == skipped[1..] + hits;
      assert (skipped + hits)[0] == skipped[0];
      SkipFirst(skipped + hits, start, end, avatar, look);
      AvatarHitsSkipped(skipped[1..], hits, start, end, avatar, look);
    } else {
      assert skipped + hits == hits;
    }
  }

  /** Only the first considered hit matters: later hits never change the result. */
  lemma FirstConsideredDecides(hits: seq<TraceHit>, rest: seq<TraceHit>, start: Vec3, end: Vec3, avatar: Option<nat>, look: bool)
    requires FirstConsidered(hits, avatar).Some?
    ensures LineTraceResult(hits + rest, start, end, avatar, look) == LineTraceResult(hits, start, end, avatar, look)
  {
    var k := FirstConsidered(hits, avatar).value;
    FirstConsideredPrefix(hits, rest, avatar, k);
  }

  lemma {:induction false} FirstConsideredPrefix(hits: seq<TraceHit>, rest: seq<TraceHit>, avatar: Option<nat>, k: nat)
    requires k < |hits| && Considered(hits[k].hit, avatar)
    requires forall i :: 0 <= i < k ==> !Considered(hits[i].hit, avatar)
    ensures FirstConsidered(hits + rest, avatar) == Option.Some(k)
    ensures FirstConsidered(hits, avatar) == Option.Some(k)
  {
    if k > 0 {
      assert (hits + rest)[1..] == hits[1..] + rest;
      FirstConsideredPrefix(hits[1..], rest, avatar, k - 1);
    }
  }

  /** In interactable mode a result is blocking exactly for an available interactable on an overlapping component. */
  lemma InteractableModeBlocking(hits: seq<TraceHit>, start: Vec3, end: Vec3, avatar: Option<nat>, k: nat)
    requires FirstConsidered(hits, avatar) == Option.Some(k) && hits[k].hit.actor.Some?
    ensures var r := LineTraceResult(hits, start, end, avatar, true);
      r.blockingHit <==> hits[k].overlapsInteractable && hits[k].implementsInteractable && hits[k].available
    ensures var r := LineTraceResult(hits, start, end, avatar, true);
      r.blockingHit ==> r == hits[k].hit.(blockingHit := true)
    ensures var r := LineTraceResult(hits, start, end, avatar, true);
      !r.blockingHit ==> r.traceStart == start && r.traceEnd == hits[k].hit.location && r.actor.None?
  {
  }

  /** In end-point mode the first considered hit comes back as a blocking hit. */
  lemma EndPointModeBlocking(hits: seq<TraceHit>, start: Vec3, end: Vec3, avatar: Option<nat>, k: nat)
    requires FirstConsidered(hits, avatar) == Option.Some(k)
    ensures LineTraceResult(hits, start, end, avatar, false) == hits[k].hit.(blockingHit := true)
  {
  }

  /** A non-blocking result never names an actor: a miss carries no target. */
  lemma NonBlockingHasNoActor(hits: seq<TraceHit>, start: Vec3, end: Vec3, avatar: Option<nat>, look: bool)
    ensures !LineTraceResult(hits, start, end, avatar, look).blockingHit ==> LineTraceResult(hits, start, end, avatar, look).actor.None?
  {
  }

  /**
   * The aim trace is trusted only when it hit something blocking within the ability range of
   * the trace start (compared on squared distances).
   */
  function UseTraceResult(hit: HitResult, traceStart: Vec3, maxRange: real): (r: bool)
    ensures r ==> hit.blockingHit
    ensures hit.blockingHit && hit.location == traceStart ==> r
  {
    hit.blockingHit && DistSquared(traceStart, hit.location) <= maxRange * maxRange
  }

  /** A trusted hit lies within the range of the trace start on every axis. */
  lemma TrustedHitInRange(hit: HitResult, traceStart: Vec3, maxRange: real)
    requires maxRange >= 0.0
    ensures UseTraceResult(hit, traceStart, maxRange) ==>
      Abs(hit.location.x - traceStart.x) <= maxRange && Abs(hit.location.y - traceStart.y) <= maxRange &&
      Abs(hit.location.z - traceStart.z) <= maxRange
  {
    if UseTraceResult(hit, traceStart, maxRange) {
      var d := traceStart.Sub(hit.location);
      SquareWithin(d.x, d.y * d.y + d.z * d.z, maxRange);
      SquareWithin(d.y, d.x * d.x + d.z * d.z, maxRange);
      SquareWithin(d.z, d.x * d.x + d.y * d.y, maxRange);
    }
  }

  /** A square that fits, with other squares, under m * m has an absolute value of at most m. */
  lemma SquareWithin(a: real, rest: real, m: real)
    requires m >= 0.0 && rest >= 0.0 && a * a + rest <= m * m
    ensures Abs(a) <= m && Abs(-a) <= m
  {
    var b := Abs(a);
    assert b * b == a * a;
    if b + m > 0.0 {
      assert (b - m) * (b + m) == b * b - m * m;
      assert b - m == (b * b - m * m) / (b + m);
    }
  }

  function DistSquared(a: Vec3, b: Vec3): (r: real)
    ensures r >= 0.0
  {
    var d := a.Sub(b);
    d.x * d.x + d.y * d.y + d.z * d.z
  }

  /**
   * The point the aim direction is taken towards: a blocking hit within range is always used,
   * anything else (no blocking hit, or a hit beyond the range) falls back to the end of the view ray.
   */
  function AdjustedAimEnd(hit: HitResult, traceStart: Vec3, viewEnd: Vec3, maxRange: real): (r: Vec3)
    ensures hit.blockingHit && DistSquared(traceStart, hit.location) <= maxRange * maxRange ==> r == hit.location
    ensures !hit.blockingHit || DistSquared(traceStart, hit.location) > maxRange * maxRange ==> r == viewEnd
    ensures r != viewEnd ==> DistSquared(traceStart, r) <= maxRange * maxRange
  {
    if UseTraceResult(hit, traceStart, maxRange) then hit.location else viewEnd
  }

  /** Blueprint delegates and actor hooks fired by the task, in order. */
  datatype TargetEvent =
    | FoundNewInteractableTarget(data: seq<HitResult>)
    | LostInteractableTarget(data: seq<HitResult>)
    | TouchEnd(actor: nat)
    | OnTouch(actor: nat)

  class WaitInteractableTarget {
    /** The target data handle; its first entry is the current target. */
    var targetData: seq<HitResult>
    var events: seq<TargetEvent>

    constructor ()
      ensures targetData == [] && events == []
    {
      targetData := [];
      events := [];
    }

    /** The actor of the held target data, if there is data and it names one. */
    function HeldActor(): Option<nat>
      reads this
    {
      if |targetData| > 0 then targetData[0].actor else Option.None
    }

    /** The multi-line trace filtered hit by hit, stopping at the first hit past the avatar. */
    method LineTrace(hits: seq<TraceHit>, start: Vec3, end: Vec3, avatar: Option<nat>, lookForInteractable: bool)
      returns (out: HitResult)
      ensures out == LineTraceResult(hits, start, end, avatar, lookForInteractable)
    {
      out := EmptyResult(start, end);
      var i := 0;
      while i < |hits|
        invariant 0 <= i <= |hits|
        invariant forall j :: 0 <= j < i ==> !Considered(hits[j].hit, avatar)
        invariant out == EmptyResult(start, end)
      {
        var h := hits[i];
        if h.hit.actor.None? || h.hit.actor != avatar {
          FirstConsideredPrefix(hits, [], avatar, i);
          assert hits + [] == hits;
          if lookForInteractable && h.hit.actor.Some? {
            if h.overlapsInteractable && h.implementsInteractable && h.available {
              out := h.hit.(blockingHit := true);
              return;
            }
            out := out.(traceEnd := h.hit.location, blockingHit := false);
            return;
          }
          out := h.hit.(blockingHit := true);
          return;
        }
        i := i + 1;
      }
      NoHitKeepsTrace(hits, start, end, avatar, lookForInteractable);
    }

    /** The events of losing the held target: the lost delegate, then the touch-end hook when it is an item actor. */
    function LoseEvents(item: nat, isItemActor: nat -> bool): seq<TargetEvent>
      reads this
    {
      [LostInteractableTarget(targetData)] + (if isItemActor(item) then [TouchEnd(item)] else [])
    }

    /**
     * One periodic trace from `traceStart` to `traceEnd` over `hits`. Without an avatar
     * nothing happens. A miss drops the held target, firing Lost once for a target that named
     * an actor. A hit on the held actor is silent; a hit on another actor fires Lost for the old
     * one (when it named an actor) and then Found for the new one.
     */
    method PerformTrace(avatar: Option<nat>, traceStart: Vec3, traceEnd: Vec3, hits: seq<TraceHit>, isItemActor: nat -> bool)
      modifies this
      ensures avatar.None? ==> unchanged(this)
      ensures avatar.Some? ==>
        var r := LineTraceResult(hits, traceStart, traceEnd, avatar, true);
        var lost := if old(HeldActor()).Some? then
          [LostInteractableTarget(old(targetData))] + (if isItemActor(old(HeldActor()).value) then [TouchEnd(old(HeldActor()).value)] else [])
          else [];
        if !r.blockingHit then
          targetData == [r.(location := traceEnd)] && HeldActor().None? && events == old(events) + lost
        else if |old(targetData)| > 0 && old(HeldActor()) == r.actor then
          targetData == old(targetData) && events == old(events)
        else
          targetData == [r] &&
          events == old(events) + lost + [FoundNewInteractableTarget([r])] +
            (if r.actor.Some? && isItemActor(r.actor.value) then [OnTouch(r.actor.value)] else [])
    {
      if avatar.None? {
        return;
      }
      var ret := LineTrace(hits, traceStart, traceEnd, avatar, true);
      NonBlockingHasNoActor(hits, traceStart, traceEnd, avatar, true);
      if !ret.blockingHit {
        ret := ret.(location := traceEnd);
        if |targetData| > 0 {
          var item := targetData[0].actor;
          if item.Some? {
            events := events + LoseEvents(item.value, isItemActor);
          }
        }
        targetData := [ret];
      } else {
        var broadcastNewTarget := true;
        if |targetData| > 0 {
          var oldTarget := targetData[0].actor;
          if oldTarget == ret.actor {
            broadcastNewTarget := false;
          } else if oldTarget.Some? {
            events := events + LoseEvents(oldTarget.value, isItemActor);
          }
        }
        if broadcastNewTarget {
          targetData := [ret];
          events := events + [FoundNewInteractableTarget(targetData)];
          if ret.actor.Some? && isItemActor(ret.actor.value) {
            events := events + [OnTouch(ret.actor.value)];
          }
        }
      }
    }
  }
}
