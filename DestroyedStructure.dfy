/**
 * ADestroyedStructure (Source/TurretAI/Private/Actors/DestroyedStructure.cpp):
 * the physics debris a two-part-turret variant leaves behind. It takes over a
 * part's mesh, materials and damping, falls, and on its first hit schedules a
 * sink two seconds before it expires.
 */
module Debris {
  import opened EngineTypes
  import opened Parts

  class DestroyedStructure {
    var doOnceHit: bool
    var lifeSpan: real
    var profile: string
    var notifyRigidBodyCollision: bool
    var mesh: Option<MeshId>
    /** The mesh component's material overrides, by slot index. */
    var materialSlots: map<nat, MaterialId>
    var linearDamping: real
    var angularDamping: real
    var simulatePhysics: bool
    var ignoresWorldStatic: bool
    /** Delays of the StartSink timers set on fire-and-forget handles, in order. */
    var sinkTimers: seq<real>

    /** The hit latch is set exactly while no sink has been considered and hits are still notified. */
    ghost predicate Valid()
      reads this
    {
      && (doOnceHit ==> notifyRigidBodyCollision && sinkTimers == [])
      && (!doOnceHit ==> !notifyRigidBodyCollision && |sinkTimers| <= 1)
      && (forall i :: 0 <= i < |sinkTimers| ==> sinkTimers[i] > 0.0)
    }

    constructor ()
      ensures Valid()
      ensures doOnceHit && lifeSpan == 6.0 && profile == "Destructible" && notifyRigidBodyCollision
      ensures mesh == None && materialSlots == map[] && !simulatePhysics && !ignoresWorldStatic
      ensures sinkTimers == []
    {
      doOnceHit := true;
      lifeSpan := 6.0;
      profile := "Destructible";
      notifyRigidBodyCollision := true;
      mesh := None;
      materialSlots := map[];
      linearDamping := 0.0;
      angularDamping := 0.0;
      simulatePhysics := false;
      ignoresWorldStatic := false;
      sinkTimers := [];
    }

    /**
     * Takes the mesh, writes material i into slot i for every i in
     * [0, |materials|), copies both damping values and turns physics on.
     * Slots beyond the given materials keep their previous override.
     */
    method Initialize(inMesh: MeshId, materials: seq<MaterialId>, inLinearDamping: real, inAngularDamping: real)
      modifies this`mesh, this`materialSlots, this`linearDamping, this`angularDamping, this`simulatePhysics
      ensures mesh == Some(inMesh)
      ensures forall i :: 0 <= i < |materials| ==> i in materialSlots && materialSlots[i] == materials[i]
      ensures forall k :: k in old(materialSlots) && k >= |materials| ==> k in materialSlots && materialSlots[k] == old(materialSlots)[k]
      ensures forall k :: k in materialSlots ==> k < |materials| || k in old(materialSlots)
      ensures linearDamping == inLinearDamping && angularDamping == inAngularDamping && simulatePhysics
    {
      mesh := Some(inMesh);
      for i := 0 to |materials|
        invariant mesh == Some(inMesh)
        invariant forall j :: 0 <= j < i ==> j in materialSlots && materialSlots[j] == materials[j]
        invariant forall k :: k in old(materialSlots) && k >= i ==> k in materialSlots && materialSlots[k] == old(materialSlots)[k]
        invariant forall k :: k in materialSlots ==> k < i || k in old(materialSlots)
      {
        materialSlots := materialSlots[i := materials[i]];
      }
      linearDamping := inLinearDamping;
      angularDamping := inAngularDamping;
      simulatePhysics := true;
    }

    /**
     * The hit handler: only the first hit acts. It clears the latch, stops hit
     * notifications and arms StartSink after `remainingLifeSpan - 2` seconds,
     * the actor's remaining life span at that moment minus two; a delay that
     * is not positive arms nothing.
     */
    method MeshHit(remainingLifeSpan: real)
      requires Valid()
      modifies this`doOnceHit, this`notifyRigidBodyCollision, this`sinkTimers
      ensures Valid() && !doOnceHit
      ensures old(doOnceHit) ==>
        !notifyRigidBodyCollision && sinkTimers == (if remainingLifeSpan - 2.0 > 0.0 then [remainingLifeSpan - 2.0] else [])
      ensures !old(doOnceHit) ==> unchanged(this)
    {
      if doOnceHit {
        doOnceHit := false;
        notifyRigidBodyCollision := false;
        var sink := SetTimer(remainingLifeSpan - 2.0, false);
        if sink.Armed? {
          sinkTimers := sinkTimers + [sink.rate];
        }
      }
    }

    /** Linear damping 1 and WorldStatic ignored; nothing else changes. */
    method StartSink()
      modifies this`linearDamping, this`ignoresWorldStatic
      ensures linearDamping == 1.0 && ignoresWorldStatic
    {
      linearDamping := 1.0;
      ignoresWorldStatic := true;
    }
  }

  /** Debris that carries the part's mesh, its materials slot by slot and both damping values, falling freely. */
  ghost predicate DebrisOf(d: DestroyedStructure, p: Part)
    reads d
  {
    && d.mesh == Some(p.mesh)
    && (forall k: nat :: k in d.materialSlots <==> k < |p.materials|)
    && (forall i :: 0 <= i < |p.materials| ==> d.materialSlots[i] == p.materials[i])
    && d.linearDamping == p.linearDamping && d.angularDamping == p.angularDamping
    && d.simulatePhysics
  }
}
