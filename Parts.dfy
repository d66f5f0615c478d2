/**
 * The static-mesh parts of an emplacement (base, optional turret, barrel)
 * and the part state that destruction, sinking and aiming change.
 */
module Parts {
  import opened EngineTypes

  /** The collision profile a part uses: its constructor's, or "Destructible" once wrecked. */
  datatype Profile = Initial | Destructible

  datatype Mobility = Static | Movable

  datatype Part = Part(
    mesh: MeshId,
    materials: seq<MaterialId>,
    linearDamping: real,
    angularDamping: real,
    rotation: Rotator,
    profile: Profile,
    simulatePhysics: bool,
    mobility: Mobility,
    affectsNavigation: bool,
    /** The collision response to the WorldStatic channel is Ignore. */
    ignoresWorldStatic: bool)

  /** A part that has been given the "Destructible" profile with physics on. */
  predicate Wrecked(p: Part)
  {
    p.profile == Destructible && p.simulatePhysics
  }

  /** SetCollisionProfileName("Destructible") then SetSimulatePhysics(true). */
  function Wreck(p: Part): (r: Part)
    ensures Wrecked(r)
    ensures r.(profile := p.profile, simulatePhysics := p.simulatePhysics) == p
  {
    p.(profile := Destructible, simulatePhysics := true)
  }

  /**
   * The base additionally stops affecting navigation and becomes movable
   * before it is wrecked.
   */
  function WreckBase(p: Part): (r: Part)
    ensures Wrecked(r) && r.mobility == Movable && !r.affectsNavigation
    ensures r.(profile := p.profile, simulatePhysics := p.simulatePhysics,
               mobility := p.mobility, affectsNavigation := p.affectsNavigation) == p
  {
    Wreck(p.(affectsNavigation := false, mobility := Movable))
  }

  /** SetCollisionResponseToChannel(ECC_WorldStatic, ECR_Ignore). */
  function Sink(p: Part): (r: Part)
    ensures r.ignoresWorldStatic
    ensures r.(ignoresWorldStatic := p.ignoresWorldStatic) == p
  {
    p.(ignoresWorldStatic := true)
  }

  /** The rotation a three-part emplacement gives its turret part: yaw only. */
  function YawOnly(aim: Rotator): (r: Rotator)
    ensures r.pitch == 0.0 && r.roll == 0.0 && r.yaw == aim.yaw
  {
    Rotator(0.0, aim.yaw, 0.0)
  }

  /** The rotation a three-part emplacement gives its barrel: clamped pitch only. */
  function BarrelAim(aim: Rotator, minPitch: real, maxPitch: real): (r: Rotator)
    ensures r.yaw == 0.0 && r.roll == 0.0
    ensures minPitch <= maxPitch ==> minPitch <= r.pitch <= maxPitch
    ensures minPitch <= aim.pitch <= maxPitch ==> r.pitch == aim.pitch
  {
    Rotator(Clamp(aim.pitch, minPitch, maxPitch), 0.0, 0.0)
  }
}
