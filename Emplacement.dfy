/**
 * The target-acquisition and fire-control state machine shared by ATurret
 * (Source/TurretAI/Private/Actors/Turret.cpp), ACannon
 * (Source/CannonAI/Private/Actors/Cannon.cpp) and the three-part ACannonV1
 * (Source/CannonAI/Private/Actors/CannonV1.cpp), with the variations of the
 * subclasses TurretShotgun, TurretV2, TurretShotgunV2 and CannonV2.
 *
 * The three source files hold the same logic under different names
 * (FireWeapon / FireCannon, DestroyTurret / DestroyCannon, TurretInfo /
 * CannonInfo); one class models all of them and a `Variant` says which parts
 * exist and which of the small differences apply.
 *
 * Engine services are given to each operation: the world's overlap list and
 * sweep results as a `World`, the random draws as parameters within their
 * ranges. Timers that the source keeps in a member handle (FireTimer,
 * SearchTimer) are fields; timers set on a throw-away local handle cannot be
 * cancelled, so each one is recorded, by delay, in a log.
 */
module FireControl {
  import opened EngineTypes
  import opened Parts
  import opened Targeting
  import opened Firing
  import TurretTypes
  import Tuning
  import Health
  import Debris
  import Projectiles

  datatype Variant = Turret | TurretShotgun | TurretV2 | TurretShotgunV2 | Cannon | CannonV1 | CannonV2
  {
    /** The cannon family tests abilities with `&`; the turret family with HasFlag. */
    predicate IsCannon()
    {
      Cannon? || CannonV1? || CannonV2?
    }

    /** Three-part variants have a turret part between base and barrel, and aim both in Tick. */
    predicate HasTurretPart()
    {
      TurretV2? || TurretShotgunV2? || CannonV1? || CannonV2?
    }

    /** The cannons wreck and sink their turret part together with base and barrel. */
    predicate WrecksTurretPart()
    {
      CannonV1? || CannonV2?
    }

    /** The three-part turrets leave their turret part behind as debris on Destroyed. */
    predicate DetachesTurretPart()
    {
      TurretV2? || TurretShotgunV2?
    }
  }

  /** The ability test each family applies to the ability mask. */
  predicate VariantHasAbility(v: Variant, mask: bv32, flag: bv32)
  {
    if v.IsCannon() then Tuning.AnyBitSet(mask, flag) else TurretTypes.MaskHasFlag(mask, flag)
  }

  /** For every ability, turrets and cannons tuned alike take the same branches. */
  lemma FamiliesAgree(v1: Variant, v2: Variant, mask: bv32, flag: bv32)
    requires Tuning.IsAbility(flag)
    ensures VariantHasAbility(v1, mask, flag) <==> VariantHasAbility(v2, mask, flag)
  {
    Tuning.CannonTestAgreesWithHasFlag(mask, flag);
  }

  const SearchRetryDelay := 0.5
  const IdleScanDelay := 2.0
  const IdleRecheckDelay := 1.0
  const SinkDelay := 4.0
  const WreckLifeSpan := 6.0

  class Emplacement {
    const variant: Variant
    /** TurretInfo / CannonInfo. */
    const info: Tuning.Tuning
    /** GetLocalRole() == ROLE_Authority. */
    const isAuthority: bool
    /** HealthComp. */
    const health: Health.HealthTracker

    var currentTarget: Option<ActorId>
    var canRotateRandomly: bool
    var randomRotation: Rotator
    var fireTimer: Timer
    var searchTimer: Timer
    /** Delays of the FindRandomRotation timers set on local handles, in order. */
    var idleScans: seq<real>
    /** Every projectile handed to the world, in order. */
    var spawned: seq<SpawnRequest>
    /** Number of muzzle effects played (one per volley). */
    var fireEffects: nat
    var tickEnabled: bool
    /** The life span set by SetLifeSpan, once destruction has begun. */
    var lifeSpan: Option<real>
    /** Delays of the StartSink timers set on local handles, in order. */
    var sinkTimers: seq<real>
    var base: Part
    var barrel: Part
    var turret: Option<Part>

    /** The ability test of the variant's family. */
    predicate HasAbility(flag: bv32)
    {
      VariantHasAbility(variant, info.abilities, flag)
    }

    predicate ShotgunSet()
    {
      HasAbility(Tuning.Shotgun)
    }

    /** The draws one call of CalculateProjectileDirection consumes. */
    predicate OffsetsFit(offsets: seq<Rotator>)
    {
      ShotgunSet() ==> |offsets| == 3 && AllWithinSpread(offsets, info.accuracyOffset)
    }

    /** The projectiles one volley at `target` spawns. */
    function ShotsAt(target: ActorId, socket: Rotator, offsets: seq<Rotator>): seq<SpawnRequest>
    {
      Volley(ProjectileDirections(ShotgunSet(), socket, offsets),
             if HasAbility(Tuning.Homing) then Some(target) else None,
             HasAbility(Tuning.ExplosiveShot))
    }

    /** CanRotateRandomly(): idle scanning only on the authority, with the latch set and no target. */
    predicate CanRotateRandomly(): (r: bool)
      reads this
      ensures r <==> isAuthority && canRotateRandomly && currentTarget.None?
    {
      isAuthority && canRotateRandomly && currentTarget.None?
    }

    /** The invariants every operation keeps on the emplacement's own fields. */
    ghost predicate Consistent()
      reads this
    {
      && (fireTimer == Cleared || fireTimer == Armed(info.fireRate, true))
      && (searchTimer == Cleared || searchTimer == Armed(SearchRetryDelay, false))
      && (searchTimer.Armed? ==> currentTarget.None?)
      && (turret.Some? <==> variant.HasTurretPart())
      && (tickEnabled <==> lifeSpan.None?)
      && (tickEnabled <==> sinkTimers == [])
      && (forall i :: 0 <= i < |sinkTimers| ==> sinkTimers[i] == SinkDelay)
      && (lifeSpan.Some? ==>
            && lifeSpan == Some(WreckLifeSpan)
            && Wrecked(base) && base.mobility == Movable && Wrecked(barrel)
            && (variant.WrecksTurretPart() ==> Wrecked(turret.value)))
    }

    /**
     * Consistent, and: while standing, a target always has its repeating fire
     * timer armed; and the emplacement is destroyed once its health has died.
     */
    ghost predicate Valid()
      reads this, health
    {
      && Consistent()
      && health.Valid()
      && (lifeSpan.None? && currentTarget.Some? ==> fireTimer == SetTimer(info.fireRate, true))
      && (!health.isAlive ==> lifeSpan.Some?)
    }

    /** The effect of StartFire on a target: the fire loop armed, and one volley if the muzzle check passed. */
    twostate predicate Engaged(w: World, target: ActorId, offsets: seq<Rotator>)
      reads this
    {
      && fireTimer == SetTimer(info.fireRate, true)
      && spawned == old(spawned) + (if CanHitTarget(w, target, true) then ShotsAt(target, w.projectileSocket, offsets) else [])
      && fireEffects == old(fireEffects) + (if CanHitTarget(w, target, true) then 1 else 0)
    }

    /**
     * The effect of FindNewTarget: the first overlapping actor in sight becomes
     * the target and is engaged; with none, the target is null, idle scanning
     * is re-enabled, and a 0.5 s retry is armed if anything overlapped.
     */
    twostate predicate Searched(w: World, offsets: seq<Rotator>, fireBefore: Timer)
      reads this
    {
      && currentTarget == Acquire(w)
      && (Acquire(w).Some? ==>
            && Engaged(w, Acquire(w).value, offsets)
            && searchTimer == Cleared
            && canRotateRandomly == old(canRotateRandomly))
      && (Acquire(w).None? ==>
            && searchTimer == (if |w.overlapping| > 0 then Armed(SearchRetryDelay, false) else Cleared)
            && canRotateRandomly
            && fireTimer == fireBefore
            && spawned == old(spawned) && fireEffects == old(fireEffects))
    }

    /** The constructor and the health component's constructor; the base part is made static. */
    constructor (variant: Variant, info: Tuning.Tuning, isAuthority: bool, defaultHealth: real,
                 base: Part, barrel: Part, turret: Option<Part>)
      requires defaultHealth >= 0.0
      requires turret.Some? <==> variant.HasTurretPart()
      ensures Valid()
      ensures this.variant == variant && this.info == info && this.isAuthority == isAuthority
      ensures fresh(health) && health.isAlive && health.defaultHealth == defaultHealth && health.notifications == []
      ensures currentTarget == None && canRotateRandomly && randomRotation == ZeroRotator
      ensures fireTimer == Cleared && searchTimer == Cleared
      ensures idleScans == [] && spawned == [] && fireEffects == 0 && sinkTimers == []
      ensures tickEnabled && lifeSpan == None
      ensures this.base == base.(mobility := Static) && this.barrel == barrel && this.turret == turret
    {
      this.variant := variant;
      this.info := info;
      this.isAuthority := isAuthority;
      health := new Health.HealthTracker(defaultHealth);
      currentTarget := None;
      canRotateRandomly := true;
      randomRotation := ZeroRotator;
      fireTimer := Cleared;
      searchTimer := Cleared;
      idleScans := [];
      spawned := [];
      fireEffects := 0;
      tickEnabled := true;
      lifeSpan := None;
      sinkTimers := [];
      this.base := base.(mobility := Static);
      this.barrel := barrel;
      this.turret := turret;
    }

    /** Tick: the idle-scan latch, and on three-part variants the aim of turret part and barrel. */
    method Tick(turretAim: Rotator, barrelAim: Rotator)
      requires Valid() && tickEnabled
      modifies this`canRotateRandomly, this`idleScans, this`turret, this`barrel
      ensures Valid()
      ensures old(CanRotateRandomly()) ==> !canRotateRandomly && idleScans == old(idleScans) + [IdleScanDelay]
      ensures !old(CanRotateRandomly()) ==> canRotateRandomly == old(canRotateRandomly) && idleScans == old(idleScans)
      ensures |idleScans| != |old(idleScans)| ==> !CanRotateRandomly()
      ensures variant.HasTurretPart() ==>
        && turret == Some(old(turret).value.(rotation := YawOnly(turretAim)))
        && barrel == old(barrel).(rotation := BarrelAim(barrelAim, info.minPitch, info.maxPitch))
      ensures !variant.HasTurretPart() ==> turret == old(turret) && barrel == old(barrel)
    {
      if CanRotateRandomly() {
        canRotateRandomly := false;
        idleScans := idleScans + [IdleScanDelay];
      }
      if variant.HasTurretPart() {
        turret := Some(turret.value.(rotation := YawOnly(turretAim)));
        barrel := barrel.(rotation := BarrelAim(barrelAim, info.minPitch, info.maxPitch));
      }
    }

    /** DetectorBeginOverlap: a search starts only when there is no target. */
    method DetectorBeginOverlap(w: World, offsets: seq<Rotator>)
      requires Valid() && OffsetsFit(offsets)
      modifies this`currentTarget, this`fireTimer, this`searchTimer, this`spawned, this`fireEffects, this`canRotateRandomly
      ensures Valid()
      ensures old(currentTarget).None? ==> Searched(w, offsets, old(fireTimer))
      ensures old(currentTarget).Some? ==> unchanged(this)
    {
      if currentTarget.None? {
        FindNewTarget(w, offsets);
      }
    }

    /** DetectorEndOverlap: a search starts only when the leaving actor is the target. */
    method DetectorEndOverlap(w: World, otherActor: ActorId, offsets: seq<Rotator>)
      requires Valid() && OffsetsFit(offsets)
      modifies this`currentTarget, this`fireTimer, this`searchTimer, this`spawned, this`fireEffects, this`canRotateRandomly
      ensures Valid()
      ensures old(currentTarget) == Some(otherActor) ==> Searched(w, offsets, old(fireTimer))
      ensures old(currentTarget) != Some(otherActor) ==> unchanged(this)
    {
      if currentTarget == Some(otherActor) {
        FindNewTarget(w, offsets);
      }
    }

    /** FindNewTarget: cancel the retry, forget the target, search, and fall back to idle scanning. */
    method FindNewTarget(w: World, offsets: seq<Rotator>)
      requires Consistent() && health.Valid() && (!health.isAlive ==> lifeSpan.Some?)
      requires OffsetsFit(offsets)
      modifies this`currentTarget, this`fireTimer, this`searchTimer, this`spawned, this`fireEffects, this`canRotateRandomly
      ensures Valid()
      ensures Searched(w, offsets, old(fireTimer))
    {
      searchTimer := Cleared;
      currentTarget := None;
      HandleFindNewTarget(w, offsets);
      if currentTarget.None? {
        canRotateRandomly := true;
      }
    }

    /**
     * HandleFindNewTarget: engage the first overlapping actor in sight, in
     * enumeration order; with none, arm the 0.5 s retry if anything overlapped.
     */
    method HandleFindNewTarget(w: World, offsets: seq<Rotator>)
      requires Consistent() && health.Valid() && (!health.isAlive ==> lifeSpan.Some?)
      requires currentTarget.None? && searchTimer == Cleared && OffsetsFit(offsets)
      modifies this`currentTarget, this`fireTimer, this`searchTimer, this`spawned, this`fireEffects
      ensures Valid()
      ensures currentTarget == Acquire(w)
      ensures Acquire(w).Some? ==> Engaged(w, Acquire(w).value, offsets) && searchTimer == Cleared
      ensures Acquire(w).None? ==>
        && searchTimer == (if |w.overlapping| > 0 then Armed(SearchRetryDelay, false) else Cleared)
        && fireTimer == old(fireTimer) && spawned == old(spawned) && fireEffects == old(fireEffects)
    {
      var actors := w.overlapping;
      if |actors| > 0 {
        var i := 0;
        while i < |actors|
          invariant 0 <= i <= |actors|
          invariant forall j :: 0 <= j < i ==> !CanHitTarget(w, actors[j], false)
          invariant unchanged(this)
        {
          if CanHitTarget(w, actors[i], false) {
            FirstHittableIsUnique(w, actors, i);
            currentTarget := Some(actors[i]);
            StartFire(w, offsets);
            return;
          }
          i := i + 1;
        }
        searchTimer := SetTimer(SearchRetryDelay, false);
      }
    }

    /** The SearchTimer callback: the one-shot timer is spent, and the search is repeated. */
    method SearchTimerElapsed(w: World, offsets: seq<Rotator>)
      requires Valid() && searchTimer.Armed? && OffsetsFit(offsets)
      modifies this`currentTarget, this`fireTimer, this`searchTimer, this`spawned, this`fireEffects
      ensures Valid()
      ensures currentTarget == Acquire(w)
      ensures Acquire(w).Some? ==> Engaged(w, Acquire(w).value, offsets) && searchTimer == Cleared
      ensures Acquire(w).None? ==>
        && searchTimer == (if |w.overlapping| > 0 then Armed(SearchRetryDelay, false) else Cleared)
        && fireTimer == old(fireTimer) && spawned == old(spawned) && fireEffects == old(fireEffects)
    {
      searchTimer := Cleared;
      HandleFindNewTarget(w, offsets);
    }

    /** StartFire: one volley if the muzzle check passes, and the repeating fire timer armed regardless. */
    method StartFire(w: World, offsets: seq<Rotator>)
      requires currentTarget.Some? && OffsetsFit(offsets)
      modifies this`fireTimer, this`spawned, this`fireEffects
      ensures Engaged(w, currentTarget.value, offsets)
    {
      if CanHitTarget(w, currentTarget.value, true) {
        var rotations := CalculateProjectileDirection(ShotgunSet(), w.projectileSocket, info.accuracyOffset, offsets);
        MulticastFire(rotations);
      }
      fireTimer := SetTimer(info.fireRate, true);
    }

    /**
     * The FireTimer callback (FireWeapon / FireCannon): fire while the target
     * passes the muzzle check; otherwise stop the fire loop and search again.
     */
    method FireWeapon(w: World, offsets: seq<Rotator>)
      requires Valid() && fireTimer.Armed? && OffsetsFit(offsets)
      modifies this`currentTarget, this`fireTimer, this`searchTimer, this`spawned, this`fireEffects, this`canRotateRandomly
      ensures Valid()
      ensures old(currentTarget).Some? && CanHitTarget(w, old(currentTarget).value, true) ==>
        && currentTarget == old(currentTarget) && fireTimer == old(fireTimer)
        && searchTimer == old(searchTimer) && canRotateRandomly == old(canRotateRandomly)
        && spawned == old(spawned) + ShotsAt(currentTarget.value, w.projectileSocket, offsets)
        && fireEffects == old(fireEffects) + 1
      ensures !(old(currentTarget).Some? && CanHitTarget(w, old(currentTarget).value, true)) ==>
        Searched(w, offsets, Cleared)
    {
      if currentTarget.Some? && CanHitTarget(w, currentTarget.value, true) {
        var rotations := CalculateProjectileDirection(ShotgunSet(), w.projectileSocket, info.accuracyOffset, offsets);
        MulticastFire(rotations);
      } else {
        fireTimer := Cleared;
        FindNewTarget(w, offsets);
      }
    }

    /**
     * FindRandomRotation: with no target, pick a new idle rotation once the
     * barrel pitch is within 1 degree of the current one, or else look again
     * in 1 s. Only the pitch is compared.
     */
    method FindRandomRotation(pitchDraw: real, yawDraw: real)
      requires InRandRange(pitchDraw, info.minPitch, info.maxPitch)
      requires InRandRange(yawDraw, -180.0, 180.0)
      requires Valid()
      modifies this`randomRotation, this`canRotateRandomly, this`idleScans
      ensures Valid()
      ensures old(currentTarget).Some? ==> unchanged(this)
      ensures old(currentTarget).None? && IsNearlyEqual(old(randomRotation).pitch, barrel.rotation.pitch, 1.0) ==>
        && randomRotation == Rotator(pitchDraw, yawDraw, 0.0)
        && canRotateRandomly && idleScans == old(idleScans)
      ensures old(currentTarget).None? && !IsNearlyEqual(old(randomRotation).pitch, barrel.rotation.pitch, 1.0) ==>
        && randomRotation == old(randomRotation) && canRotateRandomly == old(canRotateRandomly)
        && idleScans == old(idleScans) + [IdleRecheckDelay]
      ensures randomRotation != old(randomRotation) && info.minPitch <= info.maxPitch ==>
        info.minPitch <= randomRotation.pitch <= info.maxPitch && -180.0 <= randomRotation.yaw <= 180.0
    {
      if currentTarget.None? {
        if IsNearlyEqual(randomRotation.pitch, barrel.rotation.pitch, 1.0) {
          randomRotation := Rotator(pitchDraw, yawDraw, 0.0);
          canRotateRandomly := true;
        } else {
          idleScans := idleScans + [IdleRecheckDelay];
        }
      }
    }

    /** MulticastFireWeapon / MulticastFireCannon: one projectile per rotation, then the muzzle effect. */
    method MulticastFire(rotations: seq<Rotator>)
      requires currentTarget.Some?
      modifies this`spawned, this`fireEffects
      ensures spawned == old(spawned) + Volley(rotations, HomingTarget(), HasAbility(Tuning.ExplosiveShot))
      ensures fireEffects == old(fireEffects) + 1
    {
      SpawnAll(rotations);
      fireEffects := fireEffects + 1;
    }

    /** The homing target SpawnProjectile hands over. */
    function HomingTarget(): Option<ActorId>
      reads this
    {
      if HasAbility(Tuning.Homing) then currentTarget else None
    }

    /** The spawn loop of the multicast fire handlers. */
    method SpawnAll(rotations: seq<Rotator>)
      requires HasAbility(Tuning.Homing) ==> currentTarget.Some?
      modifies this`spawned
      ensures spawned == old(spawned) + Volley(rotations, HomingTarget(), HasAbility(Tuning.ExplosiveShot))
    {
      for i := 0 to |rotations|
        invariant spawned == old(spawned) + Volley(rotations[..i], HomingTarget(), HasAbility(Tuning.ExplosiveShot))
      {
        SpawnProjectile(rotations[i]);
        VolleyAppend(rotations[..i], [rotations[i]], HomingTarget(), HasAbility(Tuning.ExplosiveShot));
        assert rotations[..i] + [rotations[i]] == rotations[..i + 1];
      }
      assert rotations[..|rotations|] == rotations;
    }

    /**
     * SpawnProjectile: the homing target is the current target's root when
     * Homing is set, and Ability_Explosive is ORed in when ExplosiveShot is set.
     */
    method SpawnProjectile(rotation: Rotator)
      requires HasAbility(Tuning.Homing) ==> currentTarget.Some?
      modifies this`spawned
      ensures spawned == old(spawned) + [Launch(rotation, HomingTarget(), HasAbility(Tuning.ExplosiveShot))]
    {
      var homing: Option<ActorId> := None;
      if HasAbility(Tuning.Homing) {
        homing := currentTarget;
      }
      spawned := spawned + [Launch(rotation, homing, HasAbility(Tuning.ExplosiveShot))];
    }

    /**
     * The shotgun turret's HandleFireTurret: NumOfShots rotations spread by
     * ShotgunSpread, handed to its own multicast handler.
     */
    method HandleFireTurret(w: World, numOfShots: nat, shotgunSpread: real, offsets: seq<Rotator>)
      requires variant == TurretShotgun
      requires numOfShots < 256 && |offsets| == numOfShots && AllWithinSpread(offsets, shotgunSpread)
      requires Valid()
      modifies this`spawned, this`fireEffects
      ensures Valid()
      ensures currentTarget.None? ==> spawned == old(spawned) && fireEffects == old(fireEffects)
      ensures currentTarget.Some? ==>
        && spawned == old(spawned) + Volley(Spread(w.projectileSocket, offsets), HomingTarget(), HasAbility(Tuning.ExplosiveShot))
        && fireEffects == old(fireEffects) + 1
    {
      var rotations := SpreadRotations(w.projectileSocket, numOfShots, shotgunSpread, offsets);
      MulticastFireShotgunTurret(rotations);
    }

    /** MulticastFireShotgunTurret: nothing without a target; otherwise one projectile per rotation, then the effect. */
    method MulticastFireShotgunTurret(rotations: seq<Rotator>)
      modifies this`spawned, this`fireEffects
      ensures currentTarget.None? ==> spawned == old(spawned) && fireEffects == old(fireEffects)
      ensures currentTarget.Some? ==>
        && spawned == old(spawned) + Volley(rotations, HomingTarget(), HasAbility(Tuning.ExplosiveShot))
        && fireEffects == old(fireEffects) + 1
    {
      if currentTarget.None? {
        return;
      }
      SpawnAll(rotations);
      fireEffects := fireEffects + 1;
    }

    /** HealthChanged: destruction starts only at zero health or below. */
    method HealthChanged(newHealth: real)
      requires Consistent()
      modifies this`lifeSpan, this`tickEnabled, this`base, this`barrel, this`turret, this`sinkTimers
      modifies this`fireTimer, this`searchTimer
      ensures Consistent()
      ensures newHealth <= 0.0 ==> Destroying()
      ensures newHealth > 0.0 ==> unchanged(this)
    {
      if newHealth <= 0.0 {
        DestroyEmplacement();
      }
    }

    /** The state DestroyTurret / DestroyCannon leaves: 6 s to live, both timers cleared, wrecked, a sink pending. */
    twostate predicate Destroying()
      reads this
    {
      && lifeSpan == Some(WreckLifeSpan)
      && fireTimer == Cleared && searchTimer == Cleared
      && !tickEnabled
      && base == WreckBase(old(base)) && barrel == Wreck(old(barrel))
      && turret == (if variant.WrecksTurretPart() && old(turret).Some? then Some(Wreck(old(turret).value)) else old(turret))
      && sinkTimers == old(sinkTimers) + [SinkDelay]
    }

    /** DestroyTurret / DestroyCannon. The detector stays active. */
    method DestroyEmplacement()
      requires Consistent()
      modifies this`lifeSpan, this`tickEnabled, this`base, this`barrel, this`turret, this`sinkTimers
      modifies this`fireTimer, this`searchTimer
      ensures Consistent() && Destroying()
    {
      lifeSpan := Some(WreckLifeSpan);
      MulticastDestroy();
      fireTimer := Cleared;
      searchTimer := Cleared;
    }

    /**
     * MulticastDestroyTurret / MulticastDestroyCannon, with CannonV2's
     * extension: tick off, base movable, parts wrecked, sink in 4 s.
     */
    method MulticastDestroy()
      requires turret.Some? <==> variant.HasTurretPart()
      modifies this`tickEnabled, this`base, this`barrel, this`turret, this`sinkTimers
      ensures !tickEnabled
      ensures base == WreckBase(old(base)) && barrel == Wreck(old(barrel))
      ensures turret == (if variant.WrecksTurretPart() then Some(Wreck(old(turret).value)) else old(turret))
      ensures sinkTimers == old(sinkTimers) + [SinkDelay]
    {
      tickEnabled := false;
      base := WreckBase(base);
      barrel := Wreck(barrel);
      if variant.WrecksTurretPart() {
        turret := Some(Wreck(turret.value));
      }
      sinkTimers := sinkTimers + [SinkDelay];
    }

    /** StartSink, with CannonV2's extension: the wrecked parts stop colliding with WorldStatic. */
    method StartSink()
      requires Consistent() && sinkTimers != []
      modifies this`base, this`barrel, this`turret
      ensures Consistent()
      ensures base == Sink(old(base)) && barrel == Sink(old(barrel))
      ensures turret == (if variant.WrecksTurretPart() then Some(Sink(old(turret).value)) else old(turret))
    {
      base := Sink(base);
      barrel := Sink(barrel);
      if variant.WrecksTurretPart() {
        turret := Some(Sink(turret.value));
      }
    }

    /** The health component's damage handler and its HealthChanged call on the owner. */
    method TakeDamage(damage: real)
      requires Valid()
      modifies health`currentHealth, health`isAlive, health`notifications
      modifies this`lifeSpan, this`tickEnabled, this`base, this`barrel, this`turret, this`sinkTimers
      modifies this`fireTimer, this`searchTimer
      ensures Valid()
      ensures health.State() == Health.TakeDamageAccumulating(old(health.State()), damage).0
      ensures var sent := Health.TakeDamageAccumulating(old(health.State()), damage).1;
        && (sent.Some? && sent.value <= 0.0 ==> Destroying())
        && (!(sent.Some? && sent.value <= 0.0) ==> unchanged(this))
    {
      var notified := health.OwnerTakeDamage(damage);
      if notified.Some? {
        HealthChanged(notified.value);
      }
    }

    /**
     * Destroyed of TurretV2 and TurretShotgunV2: once the world has begun
     * play, debris is spawned and initialised from the turret part. The
     * other variants spawn nothing.
     */
    method Destroyed(hasBegunPlay: bool) returns (debris: Option<Debris.DestroyedStructure>)
      requires Consistent()
      ensures debris.Some? <==> variant.DetachesTurretPart() && hasBegunPlay
      ensures debris.Some? ==>
        && fresh(debris.value) && debris.value.Valid()
        && debris.value.doOnceHit && debris.value.lifeSpan == 6.0
        && Debris.DebrisOf(debris.value, turret.value)
    {
      debris := None;
      if variant.DetachesTurretPart() && hasBegunPlay {
        var d := new Debris.DestroyedStructure();
        var part := turret.value;
        d.Initialize(part.mesh, part.materials, part.linearDamping, part.angularDamping);
        assert forall k: nat :: k in d.materialSlots <==> k < |part.materials|;
        debris := Some(d);
      }
    }
  }

  /**
   * One volley: three projectiles within AccuracyOffset of the socket
   * rotation with the shotgun ability, otherwise one along it; each homes on
   * the target exactly when Homing is set and is explosive exactly when
   * ExplosiveShot is set.
   */
  lemma VolleyShape(e: Emplacement, target: ActorId, socket: Rotator, offsets: seq<Rotator>)
    requires e.OffsetsFit(offsets)
    ensures var shots := e.ShotsAt(target, socket, offsets);
      && |shots| == (if e.ShotgunSet() then 3 else 1)
      && (!e.ShotgunSet() ==> shots[0].rotation == socket)
      && (e.ShotgunSet() ==> forall i :: 0 <= i < 3 ==> Near(shots[i].rotation, socket, e.info.accuracyOffset))
      && (forall i :: 0 <= i < |shots| ==>
            && (shots[i].homingTarget == Some(target) <==> e.HasAbility(Tuning.Homing))
            && (shots[i].homingTarget.Some? ==> shots[i].homingTarget == Some(target))
            && (Projectiles.IsExplosive(shots[i].ability) <==> e.HasAbility(Tuning.ExplosiveShot)))
  {
    var rotations := ProjectileDirections(e.ShotgunSet(), socket, offsets);
    var homing := if e.HasAbility(Tuning.Homing) then Some(target) else None;
    VolleyWiring(rotations, homing, e.HasAbility(Tuning.ExplosiveShot));
    if e.ShotgunSet() {
      SpreadStaysNear(socket, offsets, e.info.accuracyOffset);
    }
  }
}
