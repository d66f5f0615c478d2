/**
 * The directions an emplacement fires in and the projectiles it asks the
 * world to spawn: CalculateProjectileDirection of Turret.cpp, Cannon.cpp and
 * CannonV1.cpp, HandleFireTurret of TurretShotgun.cpp, and the flag wiring of
 * SpawnProjectile.
 *
 * Every FMath::RandRange(-spread, spread) draw is a parameter: one `Rotator`
 * of offsets per projectile, each axis within the range of its draw.
 */
module Firing {
  import opened EngineTypes
  import Projectiles

  /** The socket rotation with one triple of offsets added axis by axis. */
  function Perturb(socket: Rotator, offset: Rotator): Rotator
  {
    Rotator(socket.pitch + offset.pitch, socket.yaw + offset.yaw, socket.roll + offset.roll)
  }

  /** One triple of RandRange(-spread, spread) draws. */
  predicate WithinSpread(offset: Rotator, spread: real)
  {
    && InRandRange(offset.pitch, -spread, spread)
    && InRandRange(offset.yaw, -spread, spread)
    && InRandRange(offset.roll, -spread, spread)
  }

  predicate AllWithinSpread(offsets: seq<Rotator>, spread: real)
  {
    forall i :: 0 <= i < |offsets| ==> WithinSpread(offsets[i], spread)
  }

  /** A rotation no further than `spread` from the socket rotation on any axis. */
  predicate Near(r: Rotator, socket: Rotator, spread: real)
  {
    && Abs(r.pitch - socket.pitch) <= Abs(spread)
    && Abs(r.yaw - socket.yaw) <= Abs(spread)
    && Abs(r.roll - socket.roll) <= Abs(spread)
  }

  /** One perturbed rotation per triple of draws, in draw order. */
  function Spread(socket: Rotator, offsets: seq<Rotator>): seq<Rotator>
  {
    seq(|offsets|, i requires 0 <= i < |offsets| => Perturb(socket, offsets[i]))
  }

  /** The rotations CalculateProjectileDirection returns. */
  function ProjectileDirections(shotgun: bool, socket: Rotator, offsets: seq<Rotator>): seq<Rotator>
  {
    if shotgun then Spread(socket, offsets) else [socket]
  }

  /** A draw from RandRange(-a, a) is at most |a| away from 0, whatever the sign of a. */
  lemma DrawIsBounded(x: real, a: real)
    requires InRandRange(x, -a, a)
    ensures Abs(x) <= Abs(a)
  {
  }

  /** Every rotation of a spread lies within the spread of the socket rotation, and there is one per draw. */
  lemma SpreadStaysNear(socket: Rotator, offsets: seq<Rotator>, spread: real)
    requires AllWithinSpread(offsets, spread)
    ensures |Spread(socket, offsets)| == |offsets|
    ensures forall i :: 0 <= i < |offsets| ==> Near(Spread(socket, offsets)[i], socket, spread)
  {
    forall i | 0 <= i < |offsets|
      ensures Near(Spread(socket, offsets)[i], socket, spread)
    {
      var r := Spread(socket, offsets)[i];
      DrawIsBounded(offsets[i].pitch, spread);
      DrawIsBounded(offsets[i].yaw, spread);
      DrawIsBounded(offsets[i].roll, spread);
      assert r.pitch - socket.pitch == offsets[i].pitch;
      assert r.yaw - socket.yaw == offsets[i].yaw;
      assert r.roll - socket.roll == offsets[i].roll;
    }
  }

  /** With no spread every shot leaves exactly along the socket rotation. */
  lemma ZeroSpreadAimsAtSocket(socket: Rotator, offsets: seq<Rotator>)
    requires AllWithinSpread(offsets, 0.0)
    ensures forall i :: 0 <= i < |offsets| ==> Spread(socket, offsets)[i] == socket
  {
    forall i | 0 <= i < |offsets|
      ensures Spread(socket, offsets)[i] == socket
    {
      assert offsets[i] == ZeroRotator;
    }
  }

  /**
   * CalculateProjectileDirection: with the shotgun ability, three rotations
   * built in a loop from the socket rotation and three triples of
   * RandRange(-AccuracyOffset, AccuracyOffset) draws; otherwise the socket
   * rotation alone.
   */
  method CalculateProjectileDirection(shotgun: bool, socket: Rotator, accuracyOffset: real, offsets: seq<Rotator>)
    returns (rotations: seq<Rotator>)
    requires shotgun ==> |offsets| == 3 && AllWithinSpread(offsets, accuracyOffset)
    ensures rotations == ProjectileDirections(shotgun, socket, offsets)
    ensures shotgun ==> |rotations| == 3
    ensures shotgun ==> forall i :: 0 <= i < 3 ==> Near(rotations[i], socket, accuracyOffset)
    ensures !shotgun ==> rotations == [socket]
  {
    rotations := [];
    if shotgun {
      var i := 1;
      while i <= 3
        invariant 1 <= i <= 4
        invariant |rotations| == i - 1
        invariant forall j :: 0 <= j < i - 1 ==> rotations[j] == Perturb(socket, offsets[j])
      {
        rotations := rotations + [Perturb(socket, offsets[i - 1])];
        i := i + 1;
      }
      assert rotations == Spread(socket, offsets);
      SpreadStaysNear(socket, offsets, accuracyOffset);
    } else {
      rotations := rotations + [socket];
    }
  }

  /**
   * The spread loop of the shotgun turret's HandleFireTurret: NumOfShots
   * rotations, each from one triple of RandRange(-ShotgunSpread,
   * ShotgunSpread) draws. Its counter is a uint8, so the shot count is
   * below 256.
   */
  method SpreadRotations(socket: Rotator, numOfShots: nat, shotgunSpread: real, offsets: seq<Rotator>)
    returns (rotations: seq<Rotator>)
    requires numOfShots < 256
    requires |offsets| == numOfShots && AllWithinSpread(offsets, shotgunSpread)
    ensures rotations == Spread(socket, offsets)
    ensures |rotations| == numOfShots
    ensures forall i :: 0 <= i < numOfShots ==> Near(rotations[i], socket, shotgunSpread)
  {
    rotations := [];
    var i: bv8 := 0;
    while (i as nat) < numOfShots
      invariant (i as nat) <= numOfShots
      invariant |rotations| == i as nat
      invariant forall j :: 0 <= j < i as nat ==> rotations[j] == Perturb(socket, offsets[j])
      decreases numOfShots - i as nat
    {
      rotations := rotations + [Perturb(socket, offsets[i])];
      i := i + 1;
    }
    assert rotations == Spread(socket, offsets);
    SpreadStaysNear(socket, offsets, shotgunSpread);
  }

  /** What SpawnProjectile hands the deferred projectile before it finishes spawning. */
  datatype SpawnRequest = SpawnRequest(rotation: Rotator, homingTarget: Option<ActorId>, ability: bv8)

  /**
   * The projectile set up for one rotation: the homing target is the
   * current target when the Homing ability is set, and the ability byte
   * starts at Ability_None and gains Ability_Explosive when ExplosiveShot is set.
   */
  function Launch(rotation: Rotator, homingTarget: Option<ActorId>, explosive: bool): (r: SpawnRequest)
    ensures r.rotation == rotation && r.homingTarget == homingTarget
    ensures Projectiles.IsExplosive(r.ability) <==> explosive
    ensures r.ability & Projectiles.AbilityNone == Projectiles.AbilityNone
  {
    var ability := Projectiles.AbilityNone;
    SpawnRequest(rotation, homingTarget, if explosive then ability | Projectiles.AbilityExplosive else ability)
  }

  /** One projectile per rotation, in rotation order. */
  function Volley(rotations: seq<Rotator>, homingTarget: Option<ActorId>, explosive: bool): seq<SpawnRequest>
  {
    seq(|rotations|, i requires 0 <= i < |rotations| => Launch(rotations[i], homingTarget, explosive))
  }

  /** A volley spawns exactly one projectile per rotation, each carrying the same flags. */
  lemma VolleyWiring(rotations: seq<Rotator>, homingTarget: Option<ActorId>, explosive: bool)
    ensures |Volley(rotations, homingTarget, explosive)| == |rotations|
    ensures forall i :: 0 <= i < |rotations| ==>
      && Volley(rotations, homingTarget, explosive)[i].rotation == rotations[i]
      && Volley(rotations, homingTarget, explosive)[i].homingTarget == homingTarget
      && (Projectiles.IsExplosive(Volley(rotations, homingTarget, explosive)[i].ability) <==> explosive)
  {
  }

  /** Spawning two batches one after the other is spawning their concatenation. */
  lemma VolleyAppend(rs: seq<Rotator>, more: seq<Rotator>, homingTarget: Option<ActorId>, explosive: bool)
    ensures Volley(rs, homingTarget, explosive) + Volley(more, homingTarget, explosive)
         == Volley(rs + more, homingTarget, explosive)
  {
    var a := Volley(rs, homingTarget, explosive) + Volley(more, homingTarget, explosive);
    var b := Volley(rs + more, homingTarget, explosive);
    assert |a| == |b|;
    forall i | 0 <= i < |a| ensures a[i] == b[i] {
      if i < |rs| {
        assert (rs + more)[i] == rs[i];
      } else {
        assert (rs + more)[i] == more[i - |rs|];
      }
    }
  }
}
