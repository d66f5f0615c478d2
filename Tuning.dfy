/**
 * The per-instance tuning record of a turret (FTurretInfo in
 * Source/TurretAI/Public/Structures/TurretInfo.h) and of a cannon
 * (FCannonInfo in Source/CannonAI/Public/Structures/CannonInfo.h). The two
 * structs have the same fields, the same defaults and the same ability
 * values, so one datatype stands for both; the datatype's constructor is
 * their explicit constructor, which stores each argument in its field.
 */
module Tuning {
  import TurretTypes

  /** ETurretAbility / ECannonAbility: the two headers give the same values. */
  const None: bv32 := TurretTypes.None
  const ExplosiveShot: bv32 := TurretTypes.ExplosiveShot
  const Homing: bv32 := TurretTypes.Homing
  const Shotgun: bv32 := 0x04

  predicate IsAbility(flag: bv32)
  {
    flag == ExplosiveShot || flag == Homing || flag == Shotgun
  }

  datatype Tuning = Tuning(
    fireRate: real,
    maxPitch: real,
    minPitch: real,
    rotationSpeed: real,
    accuracyOffset: real,
    abilities: bv32)

  /**
   * The bounds the turret editor enforces (ClampMin 0 on FireRate, MaxPitch,
   * RotationSpeed and AccuracyOffset, ClampMax 0 on MinPitch). The cannon
   * record declares no such bounds.
   */
  predicate WithinTurretEditorBounds(t: Tuning)
  {
    && t.fireRate >= 0.0
    && t.maxPitch >= 0.0
    && t.minPitch <= 0.0
    && t.rotationSpeed >= 0.0
    && t.accuracyOffset >= 0.0
  }

  /** The test the cannons use for an ability: `CannonAbility & Flag` read as a boolean. */
  predicate AnyBitSet(mask: bv32, flag: bv32)
  {
    mask & flag != 0
  }

  /** The default constructor of both records. */
  function Default(): (t: Tuning)
    ensures WithinTurretEditorBounds(t)
    ensures t.fireRate > 0.0
    ensures t.minPitch < t.maxPitch
    ensures forall f :: IsAbility(f) ==> !TurretTypes.MaskHasFlag(t.abilities, f) && !AnyBitSet(t.abilities, f)
  {
    Tuning(1.0, 45.0, -45.0, 100.0, 10.0, None)
  }

  /** The ability values are non-zero and pairwise bit-disjoint; None is zero. */
  lemma AbilitiesAreDisjointBits()
    ensures None == 0
    ensures forall f :: IsAbility(f) ==> f != 0
    ensures ExplosiveShot & Homing == 0 && ExplosiveShot & Shotgun == 0 && Homing & Shotgun == 0
  {
  }

  /**
   * For a single-bit ability the cannons' `&` test and the turrets' HasFlag
   * test agree, so both families take the same branches.
   */
  lemma CannonTestAgreesWithHasFlag(mask: bv32, flag: bv32)
    requires IsAbility(flag)
    ensures AnyBitSet(mask, flag) <==> TurretTypes.MaskHasFlag(mask, flag)
  {
  }
}
