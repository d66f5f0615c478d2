/**
 * AProjectile (Source/TurretAI/Private/Actors/Projectile.cpp): the shot an
 * emplacement spawns. It carries an ability byte and an optional homing
 * target set by the spawner, enables homing on BeginPlay, and processes
 * exactly one hit, after which it is disabled and expires two seconds later.
 */
module Projectiles {
  import opened EngineTypes

  /** Ability_None and Ability_Explosive: bit 0 and bit 1 of the ability byte. */
  const AbilityNone: bv8 := 0x01
  const AbilityExplosive: bv8 := 0x02

  /** The projectile's explosive test: the Ability_Explosive bit is set. */
  predicate IsExplosive(ability: bv8)
  {
    ability & AbilityExplosive == AbilityExplosive
  }

  /** The damage a hit applies through the engine. */
  datatype Damage =
    | PointDamage(hitActor: ActorId)   // ApplyPointDamage on the actor that was hit
    | RadialDamage                     // ApplyRadialDamageWithFalloff around the impact point

  /** The damage one processed hit applies: none on a client, otherwise exactly one kind. */
  function HitDamage(isClient: bool, ability: bv8, hitActor: ActorId): (d: seq<Damage>)
    ensures isClient <==> d == []
    ensures !isClient ==> |d| == 1
    ensures !isClient ==> (d[0].RadialDamage? <==> IsExplosive(ability))
    ensures !isClient && !IsExplosive(ability) ==> d[0] == PointDamage(hitActor)
  {
    if isClient then []
    else if IsExplosive(ability) then [RadialDamage]
    else [PointDamage(hitActor)]
  }

  class Projectile {
    var doOnceHit: bool
    var lifeSpan: real
    var notifyRigidBodyCollision: bool
    var simulatePhysics: bool
    var collisionEnabled: bool
    var visible: bool
    var trailActive: bool
    /** HomingTarget: the root component of the target, set by the spawner. */
    var homingTarget: Option<ActorId>
    /** ProjectileAbility, ORed with Ability_Explosive by the spawner. */
    var ability: bv8
    /** The movement component's homing target, homing switch and gravity scale. */
    var homingComponent: Option<ActorId>
    var homingEnabled: bool
    var gravityScale: real
    /** Every damage application, in order. */
    var damageApplied: seq<Damage>

    /** The projectile's state once its one hit has been processed. */
    predicate Disabled()
      reads this
    {
      && !notifyRigidBodyCollision && !simulatePhysics && !collisionEnabled
      && !visible && !trailActive && lifeSpan == 2.0
    }

    /** Before the hit nothing has been applied; after it, the projectile is disabled. */
    ghost predicate Valid()
      reads this
    {
      && (doOnceHit ==> damageApplied == [] && notifyRigidBodyCollision)
      && (!doOnceHit ==> Disabled() && |damageApplied| <= 1)
    }

    /** The constructor's defaults; the movement component starts without homing and with gravity. */
    constructor ()
      ensures Valid()
      ensures doOnceHit && lifeSpan == 5.0 && notifyRigidBodyCollision
      ensures collisionEnabled && visible && trailActive
      ensures homingTarget == None && ability == AbilityNone && !IsExplosive(ability)
      ensures homingComponent == None && !homingEnabled && gravityScale == 1.0
      ensures damageApplied == []
    {
      doOnceHit := true;
      lifeSpan := 5.0;
      notifyRigidBodyCollision := true;
      simulatePhysics := false;
      collisionEnabled := true;
      visible := true;
      trailActive := true;
      homingTarget := None;
      ability := AbilityNone;
      homingComponent := None;
      homingEnabled := false;
      gravityScale := 1.0;
      damageApplied := [];
    }

    /** Homing is switched on, with gravity 0, exactly when a homing target was given. */
    method BeginPlay()
      modifies this`homingComponent, this`homingEnabled, this`gravityScale
      ensures homingTarget.Some? ==> homingComponent == homingTarget && homingEnabled && gravityScale == 0.0
      ensures homingTarget.None? ==> unchanged(this)
    {
      if homingTarget.Some? {
        homingComponent := homingTarget;
        gravityScale := 0.0;
        homingEnabled := true;
      }
    }

    /** Physics off, no collision, invisible, trail off, two more seconds to live. */
    method DisableProjectile()
      modifies this`simulatePhysics, this`collisionEnabled, this`visible, this`trailActive, this`lifeSpan
      ensures !simulatePhysics && !collisionEnabled && !visible && !trailActive && lifeSpan == 2.0
    {
      simulatePhysics := false;
      collisionEnabled := false;
      visible := false;
      trailActive := false;
      lifeSpan := 2.0;
    }

    /**
     * The hit handler: only the first call does anything. It clears the
     * latch, stops hit notifications, disables the projectile and, unless
     * running on a client, applies one kind of damage.
     */
    method ProjectileHit(isClient: bool, hitActor: ActorId)
      requires Valid()
      modifies this`doOnceHit, this`notifyRigidBodyCollision, this`damageApplied
      modifies this`simulatePhysics, this`collisionEnabled, this`visible, this`trailActive, this`lifeSpan
      ensures Valid() && !doOnceHit
      ensures old(doOnceHit) ==> Disabled() && damageApplied == HitDamage(isClient, ability, hitActor)
      ensures !old(doOnceHit) ==> unchanged(this)
    {
      if !doOnceHit {
        return;
      }
      doOnceHit := false;
      notifyRigidBodyCollision := false;
      DisableProjectile();
      if isClient {
        return;
      }
      if IsExplosive(ability) {
        damageApplied := damageApplied + [RadialDamage];
      } else {
        damageApplied := damageApplied + [PointDamage(hitActor)];
      }
    }
  }
}
