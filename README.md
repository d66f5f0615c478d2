# TurretAI fire control in Dafny

This project models the target-acquisition and fire-control state machine of
the TurretAI Unreal Engine plugin: the stationary emplacements (`ATurret`,
`ACannon`, the three-part `ACannonV1`) and their variants (`ATurretShotgun`,
`ATurretV2`, `ATurretShotgunV2`, `ACannonV2`), their health component, the
projectiles they fire and the debris a two-part-turret variant leaves behind.

An emplacement idles and scans random rotations while it has no target. When
an actor enters its detector it searches the overlapping actors, in order, for
the first one its line of sight reaches. It engages that actor with a
repeating fire timer, and each shot fires only if the muzzle sweep hits the
target. When the target leaves or is lost, the emplacement searches again and
retries every 0.5 s while something still overlaps. At zero health it is
wrecked: it has 6 s to live, its parts turn into physics debris, and they sink
after 4 s.

Modules:

- `EngineTypes`: the engine services the core relies on, as values:
  - timer handles (`SetTimer` clears a handle when its rate is not positive);
  - `FMath::Clamp`;
  - `IsNearlyEqual`;
  - the range of a `RandRange` draw.
- `TurretTypes`: the ability mask of `FTurretInfo` in `TurretTypes.h` and its `SetFlag` / `HasFlag`.
- `Tuning`: `FTurretInfo` of `TurretInfo.h` and `FCannonInfo` of `CannonInfo.h`. They are one record with the abilities ExplosiveShot, Homing and Shotgun.
- `Health`: `UHealthComponent` and `UHealth`, which are the same code. It has a pure transition function and a class that applies it in place.
- `Parts`: the static mesh parts and what destruction and sinking do to them.
- `Projectiles`: `AProjectile`.
- `Debris`: `ADestroyedStructure`.
- `Firing`: projectile directions (normal and shotgun) and the spawn requests of a volley.
- `Targeting`: the line-of-sight checks and the choice of target.
- `FireControl`: the emplacement itself. One class models all seven variants; a `Variant` value says which parts it has, which ability test its family uses, and which destruction overrides apply.

The engine world is a parameter of each operation. A `World` gives the
detector's overlapping actors in enumeration order, the first blocking actor
of the sight sweep towards each actor, the first blocking actor of the muzzle
sweep, and the projectile socket's rotation. Random draws are parameters
constrained to their `RandRange`.

Timers started on a local, fire-and-forget handle are recorded as logs of
their delays:
- `idleScans` holds the 2 s and 1 s `FindRandomRotation` timers.
- `sinkTimers` holds the 4 s `StartSink` timer.

Spawned projectiles are recorded as a log of spawn requests.

Where the headers and the `.cpp` files disagree, the model follows the `.cpp`:
- `TurretShotgun.h` does not declare the `NumOfShots` and `ShotgunSpread` that `TurretShotgun.cpp` reads. Both are parameters of `HandleFireTurret`.
- `TurretV2.h` declares overrides that `TurretV2.cpp` does not define: `MulticastDestroyTurret_Implementation` and `StartSink`. It does not declare the `Destroyed` that `TurretV2.cpp:29` defines. Only `Tick` and `Destroyed` are modelled.
- `ATurretShotgunV2` derives from `ATurret`, not from `ATurretShotgun`. It therefore has no `HandleFireTurret` and fires like a plain turret.
- `Projectile.cpp` tests `HasFlag(EProjectileAbility::Explosive)`, but `Projectile.h` defines only the byte constants `Ability_None` and `Ability_Explosive`. The test is modelled as the `Ability_Explosive` bit test.
- `Turret.cpp` (lines 169, 295 and 300) calls `TurretInfo.HasFlag(ETurretAbility::...)`, including `ETurretAbility::Shotgun`. Its header includes `Structures/TurretInfo.h`, whose `FTurretInfo` declares no `HasFlag`. The `HasFlag` of `Types/TurretTypes.h` has an `ETurretAbility` with no `Shotgun`. The model resolves each call as follows:
  - the mask and the three abilities, including Shotgun = 0x04, come from `Structures/TurretInfo.h` (the `Tuning` record);
  - the test is the `HasFlag` of `Types/TurretTypes.h` (`TurretTypes.MaskHasFlag`), applied to that mask.
- `HealthComponent.cpp` (lines 21 and 34) uses a `GameplayInterface` member, but `HealthComponent.h:33` declares `OwnerInterface`. The model follows the `.cpp`: a notification goes to the owner's `HealthChanged`.
- `Turret.cpp` (lines 6 and 43) and `Turret.h:34` include `Components/Health.h` and create a `UHealth`. That class is defined only in `CannonAI/Private/Components/Health.h`, so no actor in the source creates a `UHealthComponent`. Nothing changes in the model, because `UHealth::OwnerTakeDamage` (`Health.cpp:26-36`) is the same handler as `UHealthComponent`'s.
- `Turret.cpp:302` ORs an undeclared `Explosive` into the projectile's ability byte. It is modelled as `Ability_Explosive`, which is what the cannons' spawners use.

## Model

| member | source | states |
|---|---|---|
| TurretTypes.MaskHasFlag | Source/TurretAI/Public/Types/TurretTypes.h:52-55 | HasFlag on a raw mask holds iff ORing the flag in leaves the mask unchanged; HasFlag(None) always holds |
| TurretTypes.TurretInfo.HasFlag | Source/TurretAI/Public/Types/TurretTypes.h:52-55 | a flag is reported iff SetFlag would add nothing to the record's mask |
| TurretTypes.MaskWithFlag | Source/TurretAI/Public/Types/TurretTypes.h:47-50 | after SetFlag the flag tests true |
| TurretTypes.SetFlagKeeps | Source/TurretAI/Public/Types/TurretTypes.h:47-55 | SetFlag never clears a flag that HasFlag already reported |
| TurretTypes.HasNoneAlways | Source/TurretAI/Public/Types/TurretTypes.h:10-13 | HasFlag(None) holds for every mask, because None is 0 |
| TurretTypes.SetFlagIdempotent | Source/TurretAI/Public/Types/TurretTypes.h:47-50 | setting a flag twice equals setting it once |
| TurretTypes.FlagsIndependent | Source/TurretAI/Public/Types/TurretTypes.h:8-13 | ExplosiveShot and Homing are distinct bits; setting one never changes whether the other is set |
| TurretTypes.TurretInfo.constructor | Source/TurretAI/Public/Types/TurretTypes.h:43-45 | default fire rate 1, pitch limits ±45, rotation speed 100, accuracy offset 10, no ability |
| TurretTypes.TurretInfo.SetFlag | Source/TurretAI/Public/Types/TurretTypes.h:47-50 | the mask gains the flag's bits and keeps all others; HasFlag(flag) holds afterwards |
| Tuning.Default | Source/TurretAI/Public/Structures/TurretInfo.h:45-47 | the default record satisfies the editor's ClampMin/ClampMax bounds, has a positive fire rate, a non-empty pitch range and no ability under either family's test |
| Tuning.AbilitiesAreDisjointBits | Source/TurretAI/Public/Structures/TurretInfo.h:9-15 | None is 0; ExplosiveShot, Homing and Shotgun are non-zero and pairwise bit-disjoint |
| Tuning.CannonTestAgreesWithHasFlag | Source/CannonAI/Private/Actors/Cannon.cpp:173 | for each single-bit ability, the cannons' `mask & flag` test agrees with the turrets' HasFlag |
| FireControl.FamiliesAgree | Source/CannonAI/Private/Actors/Cannon.cpp:297-319 | a turret and a cannon with the same ability mask take the same ability branches |
| Health.TakeDamage | Source/TurretAI/Private/Components/HealthComponent.cpp:26-36 | a dead component ignores damage and notifies nothing; a living one notifies the clamped health in [0, DefaultHealth] and stays alive iff it is positive; CurrentHealth is never written |
| Health.DeadIsInert | Source/TurretAI/Private/Components/HealthComponent.cpp:28-35 | once dead, any sequence of hits changes nothing and notifies nothing |
| Health.RunLatch | Source/TurretAI/Private/Components/HealthComponent.cpp:26-36 | over any sequence of hits: every notification lies in [0, DefaultHealth]; only the last can be ≤ 0; the component ends alive iff every notification was positive; while alive every hit is notified |
| Health.NotificationsIgnorePastHits | Source/TurretAI/Private/Components/HealthComponent.cpp:30 | each notification depends only on its own hit, never on earlier ones |
| Health.SeparateHitsNeverAccumulate | Source/TurretAI/Private/Components/HealthComponent.cpp:30-32 | as written, two hits of 60 on 100 health notify 40 twice and the component stays alive |
| Health.CorrectionDivergesOnRepeatedHits | Source/TurretAI/Private/Components/HealthComponent.cpp:30-32 | on DefaultHealth 100 with two hits of 60, the corrected tracker ends dead while the tracker as written ends alive |
| Health.AccumulatingDeadIsInert | Source/CannonAI/Private/Components/Health.cpp:28 | the corrected component is also inert once dead |
| Health.AccumulatingDiesAtCumulativeDamage | Source/CannonAI/Private/Components/Health.cpp:26-36 | the corrected component, which stores the new health, is alive iff the total damage is below its starting health, and then holds the start minus the total |
| Health.HealthTracker.constructor | Source/TurretAI/Private/Components/HealthComponent.cpp:7-15 | a fresh component is alive with CurrentHealth equal to DefaultHealth, and no notification has been sent |
| Health.TakeDamageAccumulating | Source/CannonAI/Private/Components/Health.cpp:26-36 | corrected handler: a dead component ignores damage; a living one stores and notifies the clamped health in [0, DefaultHealth], stays alive iff it is positive, and non-negative damage never raises it |
| Health.HealthTracker.OwnerTakeDamage | Source/CannonAI/Private/Components/Health.cpp:26-36 | the component's new state and its notification are those of the corrected TakeDamageAccumulating; the notification log grows by exactly that notification; the last notification is the current health |
| Health.AtMostOneFatalNotification | Source/TurretAI/Private/Components/HealthComponent.cpp:28-34 | over a component's lifetime at most one notification of zero or less is sent, and after it the component is dead |
| Parts.Wreck | Source/TurretAI/Private/Actors/Turret.cpp:331-353 | a wrecked part has the Destructible profile with physics on, and nothing else about it changes |
| Parts.WreckBase | Source/TurretAI/Private/Actors/Turret.cpp:331-353 | the base is in addition movable and stops affecting navigation, and nothing else changes |
| Parts.Sink | Source/TurretAI/Private/Actors/Turret.cpp:355-359 | a sinking part ignores WorldStatic, and nothing else changes |
| Parts.YawOnly | Source/TurretAI/Private/Actors/TurretV2.cpp:22-23 | the turret part keeps only the yaw of its aim |
| Parts.BarrelAim | Source/TurretAI/Private/Actors/TurretV2.cpp:25-26 | the barrel keeps only the pitch, within [MinPitch, MaxPitch], and an aim already inside the range is unchanged |
| Projectiles.HitDamage | Source/TurretAI/Private/Actors/Projectile.cpp:110-123 | a client applies no damage; a server applies exactly one: radial iff the ability byte has Ability_Explosive, otherwise point damage on the hit actor |
| Projectiles.Projectile.constructor | Source/TurretAI/Private/Actors/Projectile.cpp:15-37 | a new projectile accepts its first hit, lives 5 s, has ability Ability_None (so it is not explosive), gravity 1 and no homing |
| Projectiles.Projectile.BeginPlay | Source/TurretAI/Private/Actors/Projectile.cpp:39-55 | homing is on, with gravity 0 and the given target, exactly when a homing target was set; otherwise nothing changes |
| Projectiles.Projectile.DisableProjectile | Source/TurretAI/Private/Actors/Projectile.cpp:138-155 | physics, collision, visibility and trail are off, and two seconds remain to live |
| Projectiles.Projectile.ProjectileHit | Source/TurretAI/Private/Actors/Projectile.cpp:98-124 | only the first hit acts: the projectile is disabled and applies HitDamage; every later hit changes nothing |
| Debris.DestroyedStructure.constructor | Source/TurretAI/Private/Actors/DestroyedStructure.cpp:7-24 | new debris accepts hits, lives 6 s, has the Destructible profile and no mesh or materials yet |
| Debris.DestroyedStructure.Initialize | Source/TurretAI/Private/Actors/DestroyedStructure.cpp:26-41 | the mesh is taken; material i goes into slot i for every given material while other slots keep their overrides; both damping values are copied; physics is on |
| Debris.DestroyedStructure.MeshHit | Source/TurretAI/Private/Actors/DestroyedStructure.cpp:43-53 | only the first hit acts: hit notifications stop, and the sink is scheduled two seconds before the remaining life span ends (nothing if that is not positive) |
| Debris.DestroyedStructure.StartSink | Source/TurretAI/Private/Actors/DestroyedStructure.cpp:55-59 | linear damping becomes 1 and WorldStatic is ignored, nothing else changes |
| Firing.DrawIsBounded | Source/TurretAI/Private/Actors/Turret.cpp:176-182 | a RandRange(-a, a) draw is at most \|a\| from zero, whatever the sign of a |
| Firing.SpreadStaysNear | Source/TurretAI/Private/Actors/Turret.cpp:171-185 | a spread has one rotation per draw, each within the spread of the socket rotation on every axis |
| Firing.ZeroSpreadAimsAtSocket | Source/TurretAI/Private/Actors/Turret.cpp:171-185 | with zero spread every shot leaves along the socket rotation |
| Firing.CalculateProjectileDirection | Source/TurretAI/Private/Actors/Turret.cpp:164-190 | with Shotgun: three rotations, each within AccuracyOffset of the socket rotation; without it: the socket rotation alone |
| Firing.SpreadRotations | Source/TurretAI/Private/Actors/TurretShotgun.cpp:7-29 | NumOfShots rotations, one per draw, each within ShotgunSpread of the socket rotation |
| Firing.Launch | Source/TurretAI/Private/Actors/Turret.cpp:290-310 | the spawned projectile carries the rotation and homing target; its ability byte keeps Ability_None and has Ability_Explosive iff the explosive ability is set |
| Firing.VolleyWiring | Source/TurretAI/Private/Actors/Turret.cpp:262-288 | a volley spawns one projectile per rotation, in order, all with the same homing target and explosive bit |
| Firing.VolleyAppend | Source/TurretAI/Private/Actors/Turret.cpp:268-280 | spawning rotations one by one in the loop equals spawning the whole volley |
| Targeting.FirstHittableIndex | Source/TurretAI/Private/Actors/Turret.cpp:119-139 | the position found has every earlier actor out of sight and the actor there in sight; it is the length when none is in sight |
| Targeting.Acquire | Source/CannonAI/Private/Actors/Cannon.cpp:123-143 | a chosen target is an overlapping actor in sight; there is no target iff no overlapping actor is in sight |
| Targeting.FirstHittableIsUnique | Source/TurretAI/Private/Actors/Turret.cpp:119-139 | the scan's stopping index is the only first hittable index |
| Targeting.UniqueVisibleActorIsChosen | Source/TurretAI/Private/Actors/Turret.cpp:119-139 | if exactly one overlapping actor is in sight, it is chosen whatever the enumeration order |
| Targeting.HiddenActorsDoNotMatter | Source/TurretAI/Private/Actors/Turret.cpp:119-139 | overlapping actors out of sight enumerated first do not change which actor is chosen |
| Targeting.CanHitTarget | Source/TurretAI/Private/Actors/Turret.cpp:192-218 | the decision on a given sweep's result: the target is hit iff it is the sweep's first blocking actor. A sweep that blocks on nothing hits nothing, and a passing muzzle check excludes every other actor. The sweep geometry itself is not modelled |
| FireControl.VolleyShape | Source/TurretAI/Private/Actors/Turret.cpp:262-310 | one volley at a target: three projectiles within AccuracyOffset with Shotgun, otherwise one along the socket; each homes on the target iff Homing and is explosive iff ExplosiveShot |
| FireControl.Emplacement.constructor | Source/TurretAI/Private/Actors/Turret.cpp:13-47 | a new emplacement has no target, may scan randomly, has no timer armed, ticks, has a static base and a living health component at its default health |
| FireControl.Emplacement.CanRotateRandomly | Source/TurretAI/Private/Actors/Turret.cpp:252-260 | the query that `Tick`'s idle-scan latch contract is stated about: authority, the latch set and no current target (its ensures spells out that conjunction) |
| FireControl.Emplacement.Tick | Source/TurretAI/Private/Actors/Turret.cpp:71-84 | an idle-scan timer is scheduled exactly when random rotation is allowed, and the latch is then cleared, so two ticks never schedule two scans; three-part variants aim the turret by yaw and the barrel by clamped pitch |
| FireControl.Emplacement.DetectorBeginOverlap | Source/TurretAI/Private/Actors/Turret.cpp:86-92 | a search happens only when there is no current target; otherwise nothing changes |
| FireControl.Emplacement.DetectorEndOverlap | Source/TurretAI/Private/Actors/Turret.cpp:94-100 | a search happens only when the leaving actor is the current target; otherwise nothing changes |
| FireControl.Emplacement.FindNewTarget | Source/TurretAI/Private/Actors/Turret.cpp:102-117 | the new target is the first overlapping actor in sight and is engaged; with none, the target is null, idle scanning is re-enabled and a 0.5 s retry is armed iff something overlaps; the invariants hold afterwards |
| FireControl.Emplacement.HandleFindNewTarget | Source/TurretAI/Private/Actors/Turret.cpp:119-139 | the target is Acquire of the world and is engaged (fire loop armed, one volley if the muzzle check passes); with none, exactly one retry is armed iff the overlap set is non-empty and nothing fires |
| FireControl.Emplacement.SearchTimerElapsed | Source/TurretAI/Private/Actors/Turret.cpp:137 | the one-shot retry is spent and the search runs again with the same outcome as HandleFindNewTarget |
| FireControl.Emplacement.StartFire | Source/TurretAI/Private/Actors/Turret.cpp:141-149 | the repeating fire timer is armed at FireRate regardless, and one volley fires iff the muzzle check passes |
| FireControl.Emplacement.FireWeapon | Source/TurretAI/Private/Actors/Turret.cpp:151-162 | while the target passes the muzzle check, one volley fires and target and timers are left alone; otherwise the fire timer is cleared and a new search runs |
| FireControl.Emplacement.FindRandomRotation | Source/TurretAI/Private/Actors/Turret.cpp:220-236 | with a target nothing changes; with the barrel pitch within 1° of the idle rotation, a new one within the pitch limits and ±180° yaw is drawn and scanning re-enabled; otherwise a 1 s recheck is scheduled |
| FireControl.Emplacement.MulticastFire | Source/TurretAI/Private/Actors/Turret.cpp:262-288 | one projectile per rotation, in order, with the ability wiring, then one muzzle effect |
| FireControl.Emplacement.SpawnAll | Source/TurretAI/Private/Actors/Turret.cpp:268-280 | the spawn loop adds exactly the volley of the given rotations |
| FireControl.Emplacement.SpawnProjectile | Source/TurretAI/Private/Actors/Turret.cpp:290-310 | one projectile homing on the current target iff Homing, explosive iff ExplosiveShot |
| FireControl.Emplacement.HandleFireTurret | Source/TurretAI/Private/Actors/TurretShotgun.cpp:7-29 | with a target, NumOfShots projectiles spread by ShotgunSpread and one effect; without one, nothing |
| FireControl.Emplacement.MulticastFireShotgunTurret | Source/TurretAI/Private/Actors/TurretShotgun.cpp:31-47 | nothing without a target; otherwise one projectile per rotation and one effect |
| FireControl.Emplacement.HealthChanged | Source/TurretAI/Private/Actors/Turret.cpp:312-318 | destruction starts iff the new health is zero or below; otherwise nothing changes |
| FireControl.Emplacement.DestroyEmplacement | Source/TurretAI/Private/Actors/Turret.cpp:320-329 | 6 s life span, both timers cleared, tick off, parts wrecked, sink scheduled in 4 s |
| FireControl.Emplacement.MulticastDestroy | Source/CannonAI/Private/Actors/CannonV2.cpp:28-34 | tick off; base wrecked and movable; barrel wrecked; the turret part wrecked only on CannonV1 and CannonV2; sink in 4 s |
| FireControl.Emplacement.StartSink | Source/CannonAI/Private/Actors/CannonV2.cpp:36-41 | base and barrel sink, and the turret part too on CannonV1 and CannonV2 |
| FireControl.Emplacement.TakeDamage | Source/TurretAI/Private/Components/HealthComponent.cpp:26-36 | the health component steps as the corrected TakeDamageAccumulating says, and the emplacement is destroyed iff the notified health is zero or below |
| FireControl.Emplacement.Destroyed | Source/TurretAI/Private/Actors/TurretV2.cpp:29-40 | debris is spawned iff the variant is TurretV2 or TurretShotgunV2 and play has begun; it carries the turret part's mesh, materials slot by slot and damping, with physics on |

The seven variants share the class, so each `FireControl.Emplacement` row
also covers these counterparts:
- `Cannon.cpp` 74-166 and 227-368;
- `CannonV1.cpp` 123-183 and 314-389;
- `TurretShotgunV2.cpp` 19-41, whose `Tick` and `Destroyed` repeat those of `TurretV2.cpp`.

The class invariant `FireControl.Emplacement.Valid` states these facts.
- The constructor establishes it.
- Every event handler and timer callback requires it and ensures it again: `Tick`, the two overlap handlers, `SearchTimerElapsed`, `FireWeapon`, `FindRandomRotation`, `HandleFireTurret` and `TakeDamage`.
- `FindNewTarget` and `HandleFindNewTarget` require only `Consistent` and the health facts, because `FireWeapon` clears the fire timer before searching. Both ensure `Valid`.
- The destruction steps `HealthChanged`, `DestroyEmplacement` and `StartSink` keep `Consistent`. `MulticastDestroy` states its new fields one by one.
- `StartFire` and the spawn helpers (`MulticastFire`, `SpawnAll`, `SpawnProjectile`, `MulticastFireShotgunTurret`) run in the middle of those operations. They write only the fire timer, the spawn log and the effect count.

`Valid` says:
- Timers hold only the source's rates.
- A pending retry implies there is no target.
- A standing emplacement with a target has its fire loop armed.
- A dead health component implies destruction has begun.

## Left out

- Geometry is given, not computed:
  - the sphere sweeps: a fixed 50-unit sphere, and a muzzle sweep length of the detector's unscaled radius plus 100;
  - `CalculateRotation`'s interpolation towards a target or the random rotation;
  - what `Tick` feeds into the rotation. `Tick`'s aims are parameters.
- The spawn transform's location and scale, and the effect scale:
  - a volley of more than one projectile lowers the spawn scale by 0.6 (`Turret.cpp:267-268`);
  - the muzzle effect is scaled by the actor scale plus 0.5 (`Turret.cpp:284`);
  - a spawn request (`Firing.SpawnRequest`) records only rotation, homing target and ability.
- Parts.BarrelAim: `FMath::ClampAngle` is modelled as a plain clamp to [MinPitch, MaxPitch].
  - The two agree when both limits lie in (-180, 180] and the pitch is within 180° of the centre of the range. For symmetric limits, such as the default ±45, that covers every pitch in (-180, 180].
  - Otherwise `ClampAngle` measures the angle on the circle from the centre of the range and returns the nearer edge. Example: MinPitch -10, MaxPitch 80 and pitch -170 give 80 under `ClampAngle` and -10 under the plain clamp.
- Sound, particle effects, `LoadAssets` and asset paths: they have no effect on the state machine. Effects appear only as a count.
- Replication: the variables and the multicast transport. Each multicast is modelled as a direct call on the local instance.
- Delegate wiring:
  - `BeginPlay`'s detector and hit bindings;
  - the authority-only binding;
  - the health component's `Activate`;
  - the `MeshHit` hit binding that `ADestroyedStructure::Initialize` adds (`DestroyedStructure.cpp:40`). `Debris.DestroyedStructure.Initialize` does not record it.
- The operations that are modelled are called directly instead.
- The engine's damage calls (`ApplyPointDamage`, `ApplyRadialDamageWithFalloff`) and the projectile's `DamageInfo` amounts. A hit records only which kind of damage is applied.
- A projectile spawn that returns null: `Turret.cpp` checks for it and the cannons do not. Spawning is modelled as always succeeding.
- The V1 tick overrides, apart from the aim of the turret part and barrel of the three-part variants.
- `Super::Destroyed` and the engine's actor teardown after the life span runs out.
- Nothing in the source calls `HandleFireTurret`: it overrides nothing in `ATurret`, and no timer is bound to it. It is modelled as an operation of the TurretShotgun variant alone.
- Float arithmetic is modelled with exact reals.
- The `int32`/`uint8` widths are modelled only where they matter:
  - the ability masks are `bv32`;
  - the projectile ability is `bv8`;
  - the shotgun loop counter is bounded below 256.
- Firing.SpreadRotations and FireControl.Emplacement.HandleFireTurret require `NumOfShots` below 256. `TurretShotgun.cpp:15-16` counts with a `uint8`, and `NumOfShots` is declared in no header. If it is wider than 8 bits, a value of 256 or more makes the counter wrap before reaching it, so the loop never ends. The model does not cover that case.
- The explicit constructors of `FTurretInfo` and `FCannonInfo` store each argument unchanged. In the model they are the `Tuning` datatype constructor, so nothing further is stated about them.
- Health.HealthTracker.OwnerTakeDamage follows the corrected handler `Health.TakeDamageAccumulating`, not the code as written.
  - The source never writes `CurrentHealth` in the handler, but the model stores the new health.
  - With DefaultHealth 100, two hits of 60 kill the modelled component. The source notifies 40 twice and stays alive (`Health.CorrectionDivergesOnRepeatedHits`).
  - The as-written behaviour is stated only by the pure `Health.TakeDamage` and `Health.Run` and their lemmas.
- FireControl.Emplacement.TakeDamage inherits this divergence. With DefaultHealth 100, two hits of 60 destroy the modelled emplacement. In the source, the same emplacement keeps its target and keeps firing.
- The detector stays active after destruction, as the source's own note says. A destroyed emplacement can therefore still acquire a target and arm its fire timer, and the model keeps this. Only while it is standing does `Valid` tie a target to an armed fire loop.

## Findings

| source | as written | input that shows it | evidently intended | confidence | as-written member | corrected member |
|---|---|---|---|---|---|---|
| Source/TurretAI/Private/Components/HealthComponent.cpp:30-32 (and Source/CannonAI/Private/Components/Health.cpp:30-32) | The new health is computed from `CurrentHealth`, but `CurrentHealth` is never updated, so damage never accumulates: only a single hit at least as large as the full health destroys the owner | DefaultHealth 100, two hits of 60: both notify 40 and the owner stays alive | `CurrentHealth` takes the clamped new health, so the owner dies once its total damage reaches its health | not executed | Health.SeparateHitsNeverAccumulate | Health.AccumulatingDiesAtCumulativeDamage |

`Health.TakeDamage` and `Health.Run` model the code as written. `Health.TakeDamageAccumulating` and `Health.RunAccumulating` give the corrected transition. The class `Health.HealthTracker`, and through it the emplacements, use the corrected transition.
