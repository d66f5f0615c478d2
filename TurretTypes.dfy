/**
 * The ability bit flags of a turret and the record that stores them
 * (ETurretAbility and FTurretInfo of Source/TurretAI/Public/Types/TurretTypes.h).
 * The ability mask is an int32 in the source; only its bit pattern matters
 * to `|=` and `&`, so it is a `bv32` here.
 */
module TurretTypes {

  /** ETurretAbility values of this header (it has no Shotgun value). */
  const None: bv32 := 0x00
  const ExplosiveShot: bv32 := 0x01
  const Homing: bv32 := 0x02

  /** FTurretInfo::HasFlag on a raw mask: every bit of `flag` is in `mask`. */
  predicate MaskHasFlag(mask: bv32, flag: bv32): (r: bool)
    ensures r <==> mask | flag == mask
    ensures flag == None ==> r
  {
    mask & flag == flag
  }

  /** The mask FTurretInfo::SetFlag leaves behind. */
  function MaskWithFlag(mask: bv32, flag: bv32): (r: bv32)
    ensures MaskHasFlag(r, flag)
  {
    mask | flag
  }

  /** SetFlag never clears a flag that was already set. */
  lemma SetFlagKeeps(mask: bv32, flag: bv32, other: bv32)
    requires MaskHasFlag(mask, other)
    ensures MaskHasFlag(MaskWithFlag(mask, flag), other)
  {
  }

  /** HasFlag(None) holds for every record, because the None mask is 0. */
  lemma HasNoneAlways(mask: bv32)
    ensures MaskHasFlag(mask, None)
  {
  }

  /** Setting a flag twice leaves the same mask as setting it once. */
  lemma SetFlagIdempotent(mask: bv32, flag: bv32)
    ensures MaskWithFlag(MaskWithFlag(mask, flag), flag) == MaskWithFlag(mask, flag)
  {
  }

  /** ExplosiveShot and Homing are distinct single bits: setting one never grants the other. */
  lemma FlagsIndependent(mask: bv32)
    ensures ExplosiveShot != Homing && ExplosiveShot & Homing == 0
    ensures MaskHasFlag(MaskWithFlag(mask, ExplosiveShot), Homing) <==> MaskHasFlag(mask, Homing)
    ensures MaskHasFlag(MaskWithFlag(mask, Homing), ExplosiveShot) <==> MaskHasFlag(mask, ExplosiveShot)
  {
  }

  /** FTurretInfo: the tuning record whose ability mask SetFlag updates in place. */
  class TurretInfo {
    var fireRate: real
    var maxPitch: real
    var minPitch: real
    var rotationSpeed: real
    var accuracyOffset: real
    var turretAbility: bv32

    /** The default constructor. */
    constructor ()
      ensures fireRate == 1.0 && maxPitch == 45.0 && minPitch == -45.0
      ensures rotationSpeed == 100.0 && accuracyOffset == 10.0
      ensures turretAbility == None
      ensures !HasFlag(ExplosiveShot) && !HasFlag(Homing)
    {
      fireRate, maxPitch, minPitch := 1.0, 45.0, -45.0;
      rotationSpeed, accuracyOffset := 100.0, 10.0;
      turretAbility := None;
    }

    /** FTurretInfo::HasFlag: a flag it reports is one SetFlag would add nothing to. */
    predicate HasFlag(flag: bv32): (r: bool)
      reads this
      ensures r <==> MaskWithFlag(turretAbility, flag) == turretAbility
    {
      MaskHasFlag(turretAbility, flag)
    }

    method SetFlag(flag: bv32)
      modifies this`turretAbility
      ensures turretAbility == MaskWithFlag(old(turretAbility), flag)
      ensures HasFlag(flag)
    {
      turretAbility := turretAbility | flag;
    }
  }
}
