/**
 * The world as an emplacement sees it at one moment, and the target choice
 * of HandleFindNewTarget (Turret.cpp, Cannon.cpp, CannonV1.cpp).
 *
 * CanHitTarget sweeps a sphere and succeeds when the first blocking actor is
 * the queried target. The sweeps themselves are engine geometry and are
 * given: the sight sweep from the base's connection socket towards each
 * actor, and the muzzle sweep straight ahead of the barrel, which does not
 * depend on the target.
 */
module Targeting {
  import opened EngineTypes

  datatype World = World(
    /** GetOverlappingActors of the detector, in enumeration order. */
    overlapping: seq<ActorId>,
    /** The first blocking actor of the sweep towards each actor, if any. */
    sightSweep: ActorId -> Option<ActorId>,
    /** The first blocking actor of the sweep ahead of the muzzle, if any. */
    muzzleSweep: Option<ActorId>,
    /** The barrel's ProjectileSocket rotation. */
    projectileSocket: Rotator)

  /**
   * CanHitTarget(target, useMuzzle): the sweep's blocking actor is the target
   * itself. A sweep that blocks on nothing hits no target, and since the
   * muzzle sweep does not depend on the target, a passing muzzle check rules
   * out every other actor.
   */
  predicate CanHitTarget(w: World, target: ActorId, useMuzzle: bool): (r: bool)
    ensures useMuzzle && w.muzzleSweep.None? ==> !r
    ensures !useMuzzle && w.sightSweep(target).None? ==> !r
    ensures useMuzzle && r ==> forall other :: other != target ==> w.muzzleSweep != Some(other)
  {
    if useMuzzle then w.muzzleSweep == Some(target) else w.sightSweep(target) == Some(target)
  }

  /** The position of the first actor of `actors` in sight, or |actors| when there is none. */
  function FirstHittableIndex(w: World, actors: seq<ActorId>): (k: nat)
    ensures k <= |actors|
    ensures forall j :: 0 <= j < k ==> !CanHitTarget(w, actors[j], false)
    ensures k < |actors| ==> CanHitTarget(w, actors[k], false)
    decreases |actors|
  {
    if actors == [] then 0
    else if CanHitTarget(w, actors[0], false) then 0
    else 1 + FirstHittableIndex(w, actors[1..])
  }

  /** The target the search settles on: the first overlapping actor in sight. */
  function Acquire(w: World): (t: Option<ActorId>)
    ensures t.Some? ==> t.value in w.overlapping && CanHitTarget(w, t.value, false)
    ensures t.None? <==> forall a :: a in w.overlapping ==> !CanHitTarget(w, a, false)
  {
    var k := FirstHittableIndex(w, w.overlapping);
    if k < |w.overlapping| then Some(w.overlapping[k]) else None
  }

  /** Only one index can be the first hittable one. */
  lemma FirstHittableIsUnique(w: World, actors: seq<ActorId>, i: nat)
    requires i < |actors| && CanHitTarget(w, actors[i], false)
    requires forall j :: 0 <= j < i ==> !CanHitTarget(w, actors[j], false)
    ensures FirstHittableIndex(w, actors) == i
  {
  }

  /** When exactly one overlapping actor is in sight it is chosen, whatever the enumeration order. */
  lemma UniqueVisibleActorIsChosen(w: World, a: ActorId)
    requires a in w.overlapping && CanHitTarget(w, a, false)
    requires forall b :: b in w.overlapping && CanHitTarget(w, b, false) ==> b == a
    ensures Acquire(w) == Some(a)
  {
  }

  /** Actors enumerated first that are never in sight do not change the choice; they only shift its position. */
  lemma {:induction false} HiddenActorsDoNotMatter(w: World, actors: seq<ActorId>, hidden: seq<ActorId>)
    requires forall j :: 0 <= j < |hidden| ==> !CanHitTarget(w, hidden[j], false)
    ensures FirstHittableIndex(w, hidden + actors) == |hidden| + FirstHittableIndex(w, actors)
    decreases |hidden|
  {
    if hidden == [] {
      assert hidden + actors == actors;
    } else {
      assert (hidden + actors)[0] == hidden[0];
      assert (hidden + actors)[1..] == hidden[1..] + actors;
      HiddenActorsDoNotMatter(w, actors, hidden[1..]);
    }
  }
}
