# Flock and projectile pool of the Urho3D tutorial, in Dafny

This project models the two pieces of the Urho3D tutorial game that compute
something each frame:

- **The projectile pool** (`Missile`, `MissileSet`). There is a fixed array of three
  missile slots. Each slot has its own clock (`currentTime`), an expiry time (`timer`),
  a lifetime (`delay` = 5) and an `isActive` flag.
  - `ActivateMissile` launches the lowest-index inactive slot from the camera.
  - `Update` advances every slot's clock, expires any slot whose timer has passed,
    and pushes thrust into the slots that are still active.
- **The flock** (`Boid`, `BoidSet`). There is a fixed array of 100 boids.
  - `Boid::ComputeForce` sums three steering terms, cohesion, alignment and
    separation, over one half of the flock (the half the `hasRun` flag selects).
  - `Boid::Update` pushes the force into the boid's rigid body, then clamps the
    speed to [10, 50] and the height to [10, 50].
  - `BoidSet::Update` walks the array half by half.

Files:

- `vectors.dfy` (module `Vectors`): vectors over the reals and squared lengths.
- `missile.dfy` (module `Missiles`):
  - the value of a slot (`Slot`), and the functions `Activated`, `Tick`,
    `FirstInactive`, `ActivatePool` and `TickPool`, which say what each operation
    does to it;
  - lemmas about their combination;
  - the classes `Missile` and `MissileSet`. Their methods update fields and the
    slot array in place, and each is proved equal to its function.
- `boid_rules.dfy` (module `BoidRules`):
  - the steering rules and clamps, as functions of the flock's positions and
    velocities;
  - lemmas on which boids are neighbours, which tunables the force reads, and
    when the force is zero.
- `boids.dfy` (module `Boids`):
  - `World`, the value of everything the flock reads and writes. In it, the
    bodies' `ApplyForce` calls are kept as a log of (body, force) pairs.
  - `BoidStep`, `RunRange` and `FlockUpdate`, the value-level scheduler.
  - lemmas on which boids a call visits, in what order, and what each visit
    leaves;
  - the classes `Bodies`, `Boid` and `BoidSet`. Their scan loops are proved
    against the rule functions, and `BoidSet.Update` is proved equal to
    `FlockUpdate`.

Where the code may not do what it appears meant to do, the model follows the code:

- **`BoidSet::Update` runs both halves** on a call entered with `hasRun == false`.
  - Nothing in the source documents a one-half-per-call schedule. It is only suggested
    by the flag's name, by the flip at the end of each block, and by the commented-out
    loop over all 100 boids that the two blocks replace (boids.cpp:214-218). The code
    (boids.cpp:220-237) has two sequential `if`s rather than `if`/`else`.
  - A call with the flag clear therefore runs boids 0..49, sets the flag, runs
    boids 50..99, and clears it again.
  - Since the flag starts false and every call ends with it false, every call runs
    all 100 boids. `FlockUpdate` and its lemmas state exactly this.
- **The alignment factor has no effect.** The product with `FAlign_Factor`
  (boids.cpp:122) is computed and discarded, so it does not change the force.
- **`Range_FAlign` is never read.**

## Model

| member | source | states |
|---|---|---|
| Missiles.Activated | Urho3D-Tutorial/Missile.cpp:22-29 | activation makes the slot active, sets `timer = currentTime + delay`, leaves the clock, the delay and the thrust log unchanged, shows the model, places it at the camera position and sets its velocity to the normalised camera direction times 20 |
| Missiles.Tick | Urho3D-Tutorial/Missile.cpp:44-56 | the clock advances by exactly `dt`; the slot stays active iff it was active and the new time does not exceed the timer (strict `>`); an expired slot is inactive and hidden; one thrust is pushed exactly when the slot is still active after the expiry check; timer, delay, position and velocity unchanged |
| Missiles.Ticks | Urho3D-Tutorial/Missile.cpp:44-56 | k updates with the same `dt` advance the clock by exactly k·dt, keep timer and delay, and never activate a slot |
| Missiles.FirstInactive | Urho3D-Tutorial/Missile.cpp:68-78 | none exactly when every slot is active; otherwise an inactive slot with every lower-index slot active (the lowest inactive one) |
| Missiles.ActivatePool | Urho3D-Tutorial/Missile.cpp:66-79 | the pool keeps its size; a full pool is left unchanged; otherwise exactly the lowest-index inactive slot is activated and every other slot is unchanged |
| Missiles.TickPool | Urho3D-Tutorial/Missile.cpp:81-87 | every slot is ticked with the same `dt`, each exactly once, and the pool keeps its size |
| Missiles.PoolKeepsDelays | Urho3D-Tutorial/Missile.h:46-59 | neither activation nor update writes `delay`: a pool whose slots all have lifetime 5 keeps it |
| Missiles.LifetimeOfActivation | Urho3D-Tutorial/Missile.cpp:22-56 | after activation and k updates with dt = 1, the clock reads start + k, the timer start + 5, the slot is active iff k <= 5, and it has received min(k, 5) thrusts |
| Missiles.LaunchSpeed | Urho3D-Tutorial/Missile.cpp:28 | for a non-zero camera direction, the launch velocity has speed 20 and points along the camera direction |
| Missiles.FreshSlotFirstTick | Urho3D-Tutorial/Missile.h:47-49 | a fresh slot's first update with dt > 0 takes the expiry branch, and the slot stays inactive, hidden and un-thrust |
| Missiles.FreshPoolFillsInOrder | Urho3D-Tutorial/Missile.cpp:66-79 | on a fresh pool, three activations fill slots 0, 1, 2 in order and a fourth changes nothing |
| Missiles.Missile.constructor | Urho3D-Tutorial/Missile.h:46-49 | a new slot has delay 5, timer 0, clock 0, is inactive and hidden, with nothing pushed |
| Missiles.Missile.Activate | Urho3D-Tutorial/Missile.cpp:22-29 | the new slot state is `Activated` of the old one |
| Missiles.Missile.CheckActive | Urho3D-Tutorial/Missile.cpp:31-42 | returns `isActive` whatever the argument, and changes nothing |
| Missiles.Missile.Update | Urho3D-Tutorial/Missile.cpp:44-56 | the new slot state is `Tick` of the old one |
| Missiles.MissileSet.constructor | Urho3D-Tutorial/Missile.h:62-66 | three distinct fresh slots |
| Missiles.MissileSet.ActivateMissile | Urho3D-Tutorial/Missile.cpp:66-79 | the new pool is `ActivatePool` of the old one; the slots stay distinct, three of them, each with lifetime 5 |
| Missiles.MissileSet.Update | Urho3D-Tutorial/Missile.cpp:81-87 | the new pool is `TickPool` of the old one; the invariant is kept |
| BoidRules.HalfEnd | Urho3D-Tutorial/boids.cpp:39-58 | the half searched is [0, 50) or [50, 100), exactly 50 indices within the flock |
| BoidRules.NeighbourCount | Urho3D-Tutorial/boids.cpp:39-72 | the counter `n` of the scan: at most the number of boids scanned, and 0 exactly when no boid of the range is a neighbour |
| BoidRules.PositionSum | Urho3D-Tutorial/boids.cpp:39-72 | the accumulated `CoM`: zero when no boid of the range is a neighbour |
| BoidRules.VelocitySum | Urho3D-Tutorial/boids.cpp:86-117 | the accumulated `temp`: zero when no boid of the range is a neighbour |
| BoidRules.RepelSum | Urho3D-Tutorial/boids.cpp:128-166 | the separation pushes: zero when no boid of the range repels |
| BoidRules.Cohesion | Urho3D-Tutorial/boids.cpp:74-81 | the cohesion term is zero when no boid of the range is a neighbour (the `n > 0` gate) |
| BoidRules.Alignment | Urho3D-Tutorial/boids.cpp:118-125 | the alignment term is zero when no boid of the range is a neighbour (the `n > 0` gate) |
| BoidRules.Force | Urho3D-Tutorial/boids.cpp:32-167 | the force `ComputeForce` leaves is zero when no boid of the selected half attracts or repels |
| BoidRules.ClampSpeed | Urho3D-Tutorial/boids.cpp:173-184 | for any normaliser, a velocity with speed in [10, 50] is left unchanged; below 10 it becomes `norm(v)` times 10, above 50 `norm(v)` times 50 |
| BoidRules.ClampAltitude | Urho3D-Tutorial/boids.cpp:191-201 | x and z unchanged; height in [10, 50]; a height below becomes 10, above becomes 50; a position already in band is unchanged |
| BoidRules.ClampSpeedResult | Urho3D-Tutorial/boids.cpp:173-184 | for a non-zero velocity, the new velocity has the same direction and speed in [10, 50]: exactly 10 if slower, 50 if faster, the velocity itself if in band |
| BoidRules.NeighbourCountIsNeighbours | Urho3D-Tutorial/boids.cpp:39-72 | the counter `n` is the number of boids of the range nearer than `Range_FAttract`, and the boid itself is never one of them |
| BoidRules.RepelsImpliesAttracts | Urho3D-Tutorial/boids.cpp:128-144 | with `Range_FRepel <= Range_FAttract`, a boid that repels is also a cohesion/alignment neighbour |
| BoidRules.RepellersAreNeighbours | Urho3D-Tutorial/boids.cpp:128-166 | the separation set is a subset of the neighbour set and no larger than `n` |
| BoidRules.CoincidentBoid | Urho3D-Tutorial/boids.cpp:138-144 | another boid at the same position (d = 0) counts for cohesion and alignment but never repels |
| BoidRules.IsolatedSums | Urho3D-Tutorial/boids.cpp:39-166 | with no neighbour in the range, the count is 0 and the separation sum is zero |
| BoidRules.NoNeighboursNoForce | Urho3D-Tutorial/boids.cpp:32-166 | if no other boid of the selected half is nearer than `Range_FAttract`, the force is the zero vector |
| BoidRules.SumsReadOnlyRange | Urho3D-Tutorial/boids.cpp:39-166 | every scan over [lo, hi) reads only the boids of [lo, hi) and the boid itself |
| BoidRules.ForceReadsOnlyHalf | Urho3D-Tutorial/boids.cpp:39-166 | the force depends only on the boid itself and the half `hasRun` selects, never on the other half |
| BoidRules.AlignTunablesUnused | Urho3D-Tutorial/boids.cpp:3-9 | changing `Range_FAlign` or `FAlign_Factor` changes none of the scans' sums or counts |
| BoidRules.AlignmentFactorHasNoEffect | Urho3D-Tutorial/boids.cpp:118-125 | the force does not depend on `FAlign_Factor` or `Range_FAlign` |
| Boids.BoidStep | Urho3D-Tutorial/boids.cpp:222-226 | one iteration keeps the flock's shape: 100 positions, velocities and forces |
| Boids.RunRange | Urho3D-Tutorial/boids.cpp:220-237 | stepping boids in index order keeps the flock's shape |
| Boids.RuleForReadsOnlyHalf | Urho3D-Tutorial/boids.cpp:224-233 | the rule each boid applies is `Force` over the half the flag selects, and it gives the same force whatever the bodies outside that half and the boid itself hold |
| Boids.ForceSeen | Urho3D-Tutorial/boids.cpp:222-226 | the force boid i computes in a run from lo is the rule applied to the bodies with boids lo .. i-1 already clamped and all others as they were |
| Boids.FlockUpdate | Urho3D-Tutorial/boids.cpp:212-238 | after any call the flag is false, whatever it was on entry |
| Boids.FlockUpdateShape | Urho3D-Tutorial/boids.cpp:220-237 | every call runs the second half last with the flag set, then clears the flag; the first half runs only when the flag was clear |
| Boids.LogOf | Urho3D-Tutorial/boids.cpp:220-237 | one record per boid of the range, in index order, giving the boid's index and the force it computed on the state its predecessors left |
| Boids.RunRangeBodies | Urho3D-Tutorial/boids.cpp:169-202 | stepping [lo, hi) clamps the speed and height of each boid of the range exactly once and leaves every other body unchanged |
| Boids.RunRangeLog | Urho3D-Tutorial/boids.cpp:169-171 | stepping [lo, hi) appends exactly the records of `LogOf`: each boid pushes once, in index order, the force it computed after boid i - 1 was clamped |
| Boids.RunRangeForcesOutside | Urho3D-Tutorial/boids.cpp:32-37 | stepping [lo, hi) leaves the force accumulators of all other boids unchanged |
| Boids.RunRangeForcesLogged | Urho3D-Tutorial/boids.h:58 | after stepping [lo, hi), each boid of the range holds in `force` the force it pushed |
| Boids.TwoHalvesLog | Urho3D-Tutorial/boids.cpp:220-237 | running the first half and then the second logs all 100 boids once each, in index order |
| Boids.TwoHalvesForces | Urho3D-Tutorial/boids.h:58 | after both halves, each logged force is still the accumulator of its boid |
| Boids.FirstHalfForcesKept | Urho3D-Tutorial/boids.h:58 | the second half leaves the first half's accumulators as they were logged |
| Boids.TwoHalvesBodies | Urho3D-Tutorial/boids.cpp:220-237 | after both halves, every boid has been clamped exactly once |
| Boids.FlockUpdateFromFirstHalf | Urho3D-Tutorial/boids.cpp:220-237 | a call with the flag clear visits boids 0..99 once each in index order, the first fifty searching [0, 50) and the rest [50, 100) on the state the first fifty left; every boid is clamped and keeps the force it pushed |
| Boids.FlockUpdateFromSecondHalf | Urho3D-Tutorial/boids.cpp:220-237 | a call with the flag set visits only boids 50..99 in order, searching [50, 100), and leaves the first half's bodies and forces unchanged |
| Boids.Boid.constructor | Urho3D-Tutorial/boids.h:51-58 | a new boid owns the given body and its force accumulator is zero |
| Boids.Boid.ScanCohesion | Urho3D-Tutorial/boids.cpp:39-72 | the loop over [lo, hi) returns the sum of the neighbours' positions and their count, skipping the boid itself |
| Boids.Boid.ScanAlignment | Urho3D-Tutorial/boids.cpp:86-117 | the loop over [lo, hi) returns the sum of the neighbours' velocities and their count, with the same neighbour test as cohesion |
| Boids.Boid.ScanSeparation | Urho3D-Tutorial/boids.cpp:128-166 | the loop adds one push for each boid of the range with 0 < d < `Range_FRepel` (and d < 100) |
| Boids.Boid.AddCohesion | Urho3D-Tutorial/boids.cpp:39-81 | adds the cohesion term over the selected half: steer towards the centre of mass, or nothing when `n = 0` |
| Boids.Boid.AddAlignment | Urho3D-Tutorial/boids.cpp:83-125 | adds the normalised mean neighbour velocity minus the boid's own, or nothing when `n = 0` |
| Boids.Boid.AddSeparation | Urho3D-Tutorial/boids.cpp:128-166 | adds the separation pushes of the selected half |
| Boids.Boid.ComputeForce | Urho3D-Tutorial/boids.cpp:32-167 | `force` is reset and ends as cohesion + alignment + separation over the half `hasRun` selects |
| Boids.Boid.Update | Urho3D-Tutorial/boids.cpp:169-202 | the current `force` is pushed into the boid's body, its velocity is speed-clamped and its position height-clamped; no other body changes |
| Boids.BoidSet.constructor | Urho3D-Tutorial/boids.h:74-78 | 100 boids, boid i owning body i, forces zero, flag false |
| Boids.BoidSet.Update | Urho3D-Tutorial/boids.cpp:212-238 | the new flock state and flag are `FlockUpdate` of the old ones |
| Boids.BoidSet.RunBoids | Urho3D-Tutorial/boids.cpp:220-237 | one loop of `Update` leaves `RunRange` of the old state under the current flag |
| Boids.BoidSet.Visit | Urho3D-Tutorial/boids.cpp:224-225 | one iteration leaves `BoidStep` of the old state: `ComputeForce`, then `Boid::Update`, for boid i |

## Left out

- Floating point: `float` is modelled as `real`, so a rounding error is not captured.
  Distances are compared as squared lengths (d < R as |v|^2 < R^2). This is exact
  over the reals.
- `Normalize`/`Normalized` are a parameter `norm` of type `Normalizer`, because the
  engine library defines them. That includes their result on the zero vector.
  `ClampSpeed` states, for any `norm`, that an in-band velocity is left as it is and
  that an out-of-band one becomes `norm(v)` scaled to 10 or 50. The resulting speed
  and direction (`ClampSpeedResult`) and the launch speed of a missile (`LaunchSpeed`)
  are stated only for a vector that `norm` normalises correctly (non-zero).
- `Missile::Initialise`, `Boid::Initialise` and both `Initialise` methods of the sets:
  left out, because they create scene nodes, load resources and place boids with
  `Random()`. The constructors keep only what they leave in the model's state.
  - A missile starts hidden, at rest at the origin, and inactive.
  - The bodies start at positions and velocities passed in by the caller.
- The boid's orientation (cross product, `Acos`, quaternion; boids.cpp:186-189): left
  out, because it is visual only and cannot change positions, velocities or forces.
- The physics engine: `ApplyForce` is recorded as an entry in a log, and the
  integration of pushed forces into motion is not modelled. `SetLinearVelocity` and
  `SetPosition` write the model's position and velocity arrays.
- The camera node given to `Activate` is reduced to its opaque position and direction.
- The time steps: the model keeps each of them as a parameter and passes it on where
  the source does. No arithmetic is modelled on them except the missile clock
  (Missile.cpp:46).
  - `timeStep` of `Missile::Activate` and of `Boid::Update` is never read.
  - `timestep` of `MissileSet::ActivateMissile` (Missile.cpp:66) is only passed on to
    `Missile::Activate` (Missile.cpp:75).
  - `tm` of `BoidSet::Update` is only passed on to `Boid::Update`
    (boids.cpp:225, 234).
- The rest of the game (CharacterDemo.cpp: menus, events, networking, camera and
  character control, scene decoration): left out, because it is engine glue and I/O.
- Rendering and concurrency: left out, because everything modelled runs on one thread
  inside a frame callback.
