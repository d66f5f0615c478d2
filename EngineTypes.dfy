/**
 * The few engine primitives the turret and cannon actors rely on: optional
 * references, rotators, timer handles and the scalar helpers of FMath.
 * Floating-point values are modelled as `real`.
 */
module EngineTypes {

  datatype Option<+T> = None | Some(value: T)

  /** An actor in the world, identified by an opaque number (a non-null AActor*). */
  type ActorId = nat

  /** A static mesh asset and a material asset, identified by opaque numbers. */
  type MeshId = nat
  type MaterialId = nat

  /** FRotator, in the engine's (Pitch, Yaw, Roll) argument order. */
  datatype Rotator = Rotator(pitch: real, yaw: real, roll: real)

  const ZeroRotator := Rotator(0.0, 0.0, 0.0)

  /**
   * The state of one FTimerHandle: nothing pending, or a callback pending
   * after `rate` seconds that repeats when `looping` is set.
   */
  datatype Timer = Cleared | Armed(rate: real, looping: bool)

  /**
   * The state a handle is left in by FTimerManager::SetTimer. Setting a
   * handle replaces whatever it held; a rate that is not positive clears it
   * instead of arming it.
   */
  function SetTimer(rate: real, looping: bool): (t: Timer)
    ensures t.Armed? <==> rate > 0.0
    ensures t.Armed? ==> t == Armed(rate, looping)
  {
    if rate > 0.0 then Armed(rate, looping) else Cleared
  }

  function Abs(x: real): (r: real)
    ensures r >= 0.0 && (r == x || r == -x)
  {
    if x < 0.0 then -x else x
  }

  /** FMath::Clamp: below `lo` gives `lo`, otherwise below `hi` gives `x`, otherwise `hi`. */
  function Clamp(x: real, lo: real, hi: real): (r: real)
    ensures lo <= hi ==> lo <= r <= hi
    ensures lo <= x <= hi ==> r == x
    ensures lo <= hi && x < lo ==> r == lo
    ensures lo <= hi && x > hi ==> r == hi
  {
    if x < lo then lo else if x < hi then x else hi
  }

  /** FMath::IsNearlyEqual(a, b, tolerance). */
  predicate IsNearlyEqual(a: real, b: real, tolerance: real)
  {
    Abs(a - b) <= tolerance
  }

  /**
   * The values FMath::RandRange(lo, hi) can return for floats: it scales a
   * unit draw between the two bounds, so with the bounds swapped the result
   * still lies between them.
   */
  predicate InRandRange(x: real, lo: real, hi: real)
  {
    if lo <= hi then lo <= x <= hi else hi <= x <= lo
  }
}
