/** The flock (boids.h, boids.cpp): a fixed array of 100 boids, each with a force
    accumulator, whose rigid bodies live in an engine-owned store, and the
    scheduler `BoidSet::Update` that walks the array half by half.

    `World` is the value of everything the flock reads and writes; `BoidStep`,
    `RunRange` and `FlockUpdate` say what the methods do to it, and the lemmas
    say which boids are visited, in what order, and what each visit changes. */
module Boids {
  import opened Vectors
  import opened BoidRules

  /** Positions, velocities and force accumulators of the 100 boids, and the log
      of `ApplyForce` calls as (body index, force) pairs, oldest first. */
  datatype World = World(pos: seq<Vec3>, vel: seq<Vec3>, forces: seq<Vec3>, pushes: seq<(nat, Vec3)>)

  ghost predicate WellFormed(w: World) {
    |w.pos| == NUM_BOIDS && |w.vel| == NUM_BOIDS && |w.forces| == NUM_BOIDS
  }

  /** The force a boid computes from the bodies' positions and velocities and its
      own index. The scheduler below is stated for any such rule. */
  type ForceRule = (seq<Vec3>, seq<Vec3>, nat) -> Vec3

  /** The rule of `Boid::ComputeForce(pBoid, hasRun)`: the flock rules over the
      half `hasRun` selects. */
  function RuleFor(hasRun: bool, norm: Normalizer): ForceRule {
    (pos: seq<Vec3>, vel: seq<Vec3>, i: nat) =>
      if |pos| == NUM_BOIDS && |vel| == NUM_BOIDS && i < NUM_BOIDS
      then Force(pos, vel, i, hasRun, norm, TUNING)
      else ZERO
  }

  /** The rule a boid applies is the flock's `Force` over the selected half, and
      what it computes depends only on its own body and on the bodies of that
      half, whatever the rest of the flock holds. */
  lemma RuleForReadsOnlyHalf(hasRun: bool, norm: Normalizer, pos: seq<Vec3>, vel: seq<Vec3>,
                             pos': seq<Vec3>, vel': seq<Vec3>, i: nat)
    requires |pos| == |vel| == |pos'| == |vel'| == NUM_BOIDS && i < NUM_BOIDS
    requires pos'[i] == pos[i] && vel'[i] == vel[i]
    requires forall j :: HalfStart(hasRun) <= j < HalfEnd(hasRun) ==> pos'[j] == pos[j] && vel'[j] == vel[j]
    ensures RuleFor(hasRun, norm)(pos, vel, i) == Force(pos, vel, i, hasRun, norm, TUNING)
    ensures RuleFor(hasRun, norm)(pos', vel', i) == RuleFor(hasRun, norm)(pos, vel, i)
  {
    ForceReadsOnlyHalf(pos, vel, pos', vel', i, hasRun, norm, TUNING);
  }

  /** `boidList[i].ComputeForce(...)` followed by `boidList[i].Update(...)`. */
  ghost function BoidStep(w: World, i: nat, rule: ForceRule, norm: Normalizer): (r: World)
    requires WellFormed(w) && i < NUM_BOIDS
    ensures WellFormed(r)
  {
    var f := rule(w.pos, w.vel, i);
    World(w.pos[i := ClampAltitude(w.pos[i])], w.vel[i := ClampSpeed(w.vel[i], norm)],
          w.forces[i := f], w.pushes + [(i, f)])
  }

  /** Boids lo, lo + 1, ..., hi - 1 stepped in index order. (`w` in the decreases
      clause keeps the verifier from unrolling all fifty steps when the bounds
      are the constants of `BoidSet::Update`.) */
  ghost function RunRange(w: World, lo: nat, hi: nat, rule: ForceRule, norm: Normalizer): (r: World)
    requires WellFormed(w) && lo <= hi <= NUM_BOIDS
    ensures WellFormed(r)
    decreases hi, w
  {
    if hi == lo then w else BoidStep(RunRange(w, lo, hi - 1, rule, norm), hi - 1, rule, norm)
  }

  /** `BoidSet::Update` as written: two sequential `if`s, each of which runs one
      half with the rule the flag selects and then flips the flag. */
  ghost function FlockUpdate(w: World, hasRun: bool, norm: Normalizer): (r: (World, bool))
    requires WellFormed(w)
    ensures WellFormed(r.0)
    ensures !r.1
  {
    var (w1, h1) := if !hasRun then (RunRange(w, 0, HALF, RuleFor(hasRun, norm), norm), !hasRun) else (w, hasRun);
    if h1 then (RunRange(w1, HALF, NUM_BOIDS, RuleFor(h1, norm), norm), !h1) else (w1, h1)
  }

  /** Whatever the flag, a call ends by running the second half and clearing the
      flag; the first half runs only when the flag was clear. */
  lemma FlockUpdateShape(w: World, hasRun: bool, norm: Normalizer)
    requires WellFormed(w)
    ensures var w1 := if hasRun then w else RunRange(w, 0, HALF, RuleFor(false, norm), norm);
      FlockUpdate(w, hasRun, norm) == (RunRange(w1, HALF, NUM_BOIDS, RuleFor(true, norm), norm), false)
  {
  }

  /** The force boid i computes when it is stepped by `RunRange(w, lo, hi, ...)`:
      the rule applied to the state in which boids lo .. i - 1 have already moved
      and boids i .. 99 have not. */
  ghost function ForceSeen(w: World, lo: nat, i: nat, rule: ForceRule, norm: Normalizer): (f: Vec3)
    requires WellFormed(w) && lo <= i < NUM_BOIDS
    ensures f == rule(ClampedBefore(w.pos, w.vel, lo, i, norm).0, ClampedBefore(w.pos, w.vel, lo, i, norm).1, i)
  {
    var s := RunRange(w, lo, i, rule, norm);
    RunRangeBodies(w, lo, i, rule, norm);
    assert s.pos == ClampedBefore(w.pos, w.vel, lo, i, norm).0;
    assert s.vel == ClampedBefore(w.pos, w.vel, lo, i, norm).1;
    rule(s.pos, s.vel, i)
  }

  /** The bodies with boids lo .. i - 1 clamped and all others as they were. */
  ghost function ClampedBefore(pos: seq<Vec3>, vel: seq<Vec3>, lo: nat, i: nat, norm: Normalizer): (seq<Vec3>, seq<Vec3>)
    requires |pos| == NUM_BOIDS && |vel| == NUM_BOIDS
  {
    (seq(NUM_BOIDS, j requires 0 <= j < NUM_BOIDS => if lo <= j < i then ClampAltitude(pos[j]) else pos[j]),
     seq(NUM_BOIDS, j requires 0 <= j < NUM_BOIDS => if lo <= j < i then ClampSpeed(vel[j], norm) else vel[j]))
  }

  /** Running boids [lo, hi) clamps each of them exactly once and leaves every
      other body alone. */
  lemma {:induction false} RunRangeBodies(w: World, lo: nat, hi: nat, rule: ForceRule, norm: Normalizer)
    requires WellFormed(w) && lo <= hi <= NUM_BOIDS
    ensures var r := RunRange(w, lo, hi, rule, norm);
      forall j :: 0 <= j < NUM_BOIDS ==>
        && r.pos[j] == (if lo <= j < hi then ClampAltitude(w.pos[j]) else w.pos[j])
        && r.vel[j] == (if lo <= j < hi then ClampSpeed(w.vel[j], norm) else w.vel[j])
  {
    if hi > lo {
      RunRangeBodies(w, lo, hi - 1, rule, norm);
    }
  }

  /** The records boids [lo, hi) push, in index order: for each, its index and the
      force it saw. */
  ghost function LogOf(w: World, lo: nat, hi: nat, rule: ForceRule, norm: Normalizer): (l: seq<(nat, Vec3)>)
    requires WellFormed(w) && lo <= hi <= NUM_BOIDS
    ensures |l| == hi - lo
    ensures forall k :: 0 <= k < |l| ==> l[k] == (lo + k, ForceSeen(w, lo, lo + k, rule, norm))
  {
    seq(hi - lo, (k: nat) requires k < hi - lo => ((lo + k) as nat, ForceSeen(w, lo, lo + k, rule, norm)))
  }

  /** Running boids [lo, hi) appends one `ApplyForce` record per boid to the log,
      in index order, each carrying the force that boid computed. */
  lemma {:induction false} RunRangeLog(w: World, lo: nat, hi: nat, rule: ForceRule, norm: Normalizer)
    requires WellFormed(w) && lo <= hi <= NUM_BOIDS
    ensures RunRange(w, lo, hi, rule, norm).pushes == w.pushes + LogOf(w, lo, hi, rule, norm)
  {
    if hi > lo {
      RunRangeLog(w, lo, hi - 1, rule, norm);
      var last := (hi - 1, ForceSeen(w, lo, hi - 1, rule, norm));
      assert LogOf(w, lo, hi, rule, norm) == LogOf(w, lo, hi - 1, rule, norm) + [last];
    }
  }

  /** Running boids [lo, hi) leaves the force accumulators of all other boids
      alone. */
  lemma {:induction false} RunRangeForcesOutside(w: World, lo: nat, hi: nat, rule: ForceRule, norm: Normalizer)
    requires WellFormed(w) && lo <= hi <= NUM_BOIDS
    ensures var r := RunRange(w, lo, hi, rule, norm);
      forall j :: 0 <= j < NUM_BOIDS && !(lo <= j < hi) ==> r.forces[j] == w.forces[j]
  {
    if hi > lo {
      RunRangeForcesOutside(w, lo, hi - 1, rule, norm);
    }
  }

  /** After running boids [lo, hi), each of them holds in `force` the force it
      logged: the k-th new log entry is the force of boid lo + k. */
  lemma {:induction false} RunRangeForcesLogged(w: World, lo: nat, hi: nat, rule: ForceRule, norm: Normalizer)
    requires WellFormed(w) && lo <= hi <= NUM_BOIDS
    ensures var r := RunRange(w, lo, hi, rule, norm);
      && |r.pushes| == |w.pushes| + (hi - lo)
      && (forall j :: |w.pushes| <= j < |r.pushes| ==> r.forces[lo + (j - |w.pushes|)] == r.pushes[j].1)
  {
    if hi > lo {
      RunRangeForcesLogged(w, lo, hi - 1, rule, norm);
      var prev := RunRange(w, lo, hi - 1, rule, norm);
      var r := RunRange(w, lo, hi, rule, norm);
      var n := |w.pushes|;
      forall j | n <= j < |r.pushes|
        ensures r.forces[lo + (j - n)] == r.pushes[j].1
      {
        if j < |prev.pushes| {
          assert r.pushes[j] == prev.pushes[j];
        }
      }
    }
  }

  /** Running [0, 50) with one rule and then [50, 100) with another logs all 100
      boids in index order. */
  lemma TwoHalvesLog(w: World, rule0: ForceRule, rule1: ForceRule, norm: Normalizer)
    requires WellFormed(w)
    ensures var w1 := RunRange(w, 0, HALF, rule0, norm);
      var r := RunRange(w1, HALF, NUM_BOIDS, rule1, norm);
      r.pushes == w.pushes + LogOf(w, 0, HALF, rule0, norm) + LogOf(w1, HALF, NUM_BOIDS, rule1, norm)
  {
    var w1 := RunRange(w, 0, HALF, rule0, norm);
    RunRangeLog(w, 0, HALF, rule0, norm);
    RunRangeLog(w1, HALF, NUM_BOIDS, rule1, norm);
  }

  /** ... and each boid keeps in `force` the force it pushed. */
  lemma TwoHalvesForces(w: World, rule0: ForceRule, rule1: ForceRule, norm: Normalizer)
    requires WellFormed(w)
    ensures var r := RunRange(RunRange(w, 0, HALF, rule0, norm), HALF, NUM_BOIDS, rule1, norm);
      |r.pushes| == |w.pushes| + NUM_BOIDS &&
      forall j :: |w.pushes| <= j < |r.pushes| ==> r.pushes[j].1 == r.forces[j - |w.pushes|]
  {
    var w1 := RunRange(w, 0, HALF, rule0, norm);
    FirstHalfForcesKept(w, rule0, rule1, norm);
    RunRangeForcesLogged(w1, HALF, NUM_BOIDS, rule1, norm);
  }

  /** The entries of the first half still hold their boids' forces after the
      second half. */
  lemma FirstHalfForcesKept(w: World, rule0: ForceRule, rule1: ForceRule, norm: Normalizer)
    requires WellFormed(w)
    ensures var w1 := RunRange(w, 0, HALF, rule0, norm);
      var r := RunRange(w1, HALF, NUM_BOIDS, rule1, norm);
      |w1.pushes| == |w.pushes| + HALF && |r.pushes| == |w1.pushes| + HALF &&
      forall j :: |w.pushes| <= j < |w1.pushes| ==> r.pushes[j].1 == r.forces[j - |w.pushes|]
  {
    var w1 := RunRange(w, 0, HALF, rule0, norm);
    var r := RunRange(w1, HALF, NUM_BOIDS, rule1, norm);
    RunRangeLog(w1, HALF, NUM_BOIDS, rule1, norm);
    RunRangeForcesLogged(w, 0, HALF, rule0, norm);
    RunRangeForcesOutside(w1, HALF, NUM_BOIDS, rule1, norm);
    forall j | |w.pushes| <= j < |w1.pushes|
      ensures r.pushes[j].1 == r.forces[j - |w.pushes|]
    {
      FirstHalfEntryKept(w, w1, r, LogOf(w1, HALF, NUM_BOIDS, rule1, norm), j);
    }
  }

  /** An entry the first half logged is still the force of its boid once the
      second half has run. */
  lemma FirstHalfEntryKept(w: World, w1: World, r: World, later: seq<(nat, Vec3)>, j: nat)
    requires WellFormed(w) && WellFormed(w1) && WellFormed(r)
    requires |w.pushes| <= j < |w1.pushes| == |w.pushes| + HALF
    requires w1.forces[0 + (j - |w.pushes|)] == w1.pushes[j].1
    requires r.pushes == w1.pushes + later
    requires forall i :: 0 <= i < NUM_BOIDS && !(HALF <= i < NUM_BOIDS) ==> r.forces[i] == w1.forces[i]
    ensures r.pushes[j].1 == r.forces[j - |w.pushes|]
  {
    assert r.pushes[j] == w1.pushes[j];
  }

  /** Running [0, 50) and then [50, 100) clamps every boid exactly once. */
  lemma TwoHalvesBodies(w: World, rule0: ForceRule, rule1: ForceRule, norm: Normalizer)
    requires WellFormed(w)
    ensures var r := RunRange(RunRange(w, 0, HALF, rule0, norm), HALF, NUM_BOIDS, rule1, norm);
      forall j :: 0 <= j < NUM_BOIDS ==>
        r.pos[j] == ClampAltitude(w.pos[j]) && r.vel[j] == ClampSpeed(w.vel[j], norm)
  {
    RunRangeBodies(w, 0, HALF, rule0, norm);
    RunRangeBodies(RunRange(w, 0, HALF, rule0, norm), HALF, NUM_BOIDS, rule1, norm);
  }

  /** A call with `hasRun == false` (the state of a fresh `BoidSet` and after every
      call) visits all 100 boids, 0 to 99, each exactly once and in index order:
      boids 0 .. 49 compute their force over the first half, boids 50 .. 99 over the
      second half on the state the first fifty left; every boid is clamped and keeps
      in `force` the force it pushed. */
  lemma FlockUpdateFromFirstHalf(w: World, norm: Normalizer)
    requires WellFormed(w)
    ensures var w1 := RunRange(w, 0, HALF, RuleFor(false, norm), norm);
      var r := FlockUpdate(w, false, norm).0;
      && r.pushes == w.pushes + LogOf(w, 0, HALF, RuleFor(false, norm), norm)
                              + LogOf(w1, HALF, NUM_BOIDS, RuleFor(true, norm), norm)
      && (forall j :: |w.pushes| <= j < |r.pushes| ==> r.pushes[j].1 == r.forces[j - |w.pushes|])
      && (forall j :: 0 <= j < NUM_BOIDS ==>
            r.pos[j] == ClampAltitude(w.pos[j]) && r.vel[j] == ClampSpeed(w.vel[j], norm))
  {
    TwoHalvesLog(w, RuleFor(false, norm), RuleFor(true, norm), norm);
    TwoHalvesForces(w, RuleFor(false, norm), RuleFor(true, norm), norm);
    TwoHalvesBodies(w, RuleFor(false, norm), RuleFor(true, norm), norm);
  }

  /** A call entered with `hasRun == true` visits only boids 50 to 99, in order,
      each computing its force over the second half, and leaves the first half,
      bodies and forces, untouched. */
  lemma FlockUpdateFromSecondHalf(w: World, norm: Normalizer)
    requires WellFormed(w)
    ensures var r := FlockUpdate(w, true, norm).0;
      && r.pushes == w.pushes + LogOf(w, HALF, NUM_BOIDS, RuleFor(true, norm), norm)
      && (forall j :: 0 <= j < HALF ==> r.pos[j] == w.pos[j] && r.vel[j] == w.vel[j] && r.forces[j] == w.forces[j])
      && (forall j :: HALF <= j < NUM_BOIDS ==>
            r.pos[j] == ClampAltitude(w.pos[j]) && r.vel[j] == ClampSpeed(w.vel[j], norm))
  {
    var rule1 := RuleFor(true, norm);
    assert FlockUpdate(w, true, norm).0 == RunRange(w, HALF, NUM_BOIDS, rule1, norm);
    RunRangeLog(w, HALF, NUM_BOIDS, rule1, norm);
    RunRangeBodies(w, HALF, NUM_BOIDS, rule1, norm);
    RunRangeForcesOutside(w, HALF, NUM_BOIDS, rule1, norm);
  }

  /** The engine's rigid bodies of the flock: body i belongs to boid i. */
  class Bodies {
    const pos: array<Vec3>
    const vel: array<Vec3>
    var pushes: seq<(nat, Vec3)>

    ghost predicate Valid()
      reads this
    {
      pos.Length == NUM_BOIDS && vel.Length == NUM_BOIDS && pos != vel
    }

    /** Bodies at the places `BoidSet::Initialise` chose; no force pushed yet. */
    constructor (initialPos: seq<Vec3>, initialVel: seq<Vec3>)
      requires |initialPos| == NUM_BOIDS && |initialVel| == NUM_BOIDS
      ensures Valid() && fresh(pos) && fresh(vel)
      ensures pos[..] == initialPos && vel[..] == initialVel && pushes == []
    {
      pos := new Vec3[NUM_BOIDS](i requires 0 <= i < NUM_BOIDS => initialPos[i]);
      vel := new Vec3[NUM_BOIDS](i requires 0 <= i < NUM_BOIDS => initialVel[i]);
      pushes := [];
    }
  }

  /** One boid: the handle of its rigid body and its force accumulator. */
  class Boid {
    const body: nat
    var force: Vec3

    constructor (body: nat)
      ensures this.body == body && force == ZERO
    {
      this.body := body;
      force := ZERO;
    }

    /** The requirements shared by `ComputeForce` and its scans: `list` is the
        flock's array, boid i owns body i, and this boid is one of them. */
    ghost predicate InFlock(list: array<Boid>, bodies: Bodies)
      reads list, bodies
    {
      && bodies.Valid()
      && list.Length == NUM_BOIDS
      && body < NUM_BOIDS
      && list[body] == this
      && (forall i :: 0 <= i < NUM_BOIDS ==> list[i].body == i)
    }

    /** The cohesion scan: sum and count of the neighbours' positions in [lo, hi). */
    method ScanCohesion(list: array<Boid>, bodies: Bodies, lo: nat, hi: nat) returns (com: Vec3, n: nat)
      requires InFlock(list, bodies) && lo <= hi <= NUM_BOIDS
      ensures com == PositionSum(bodies.pos[..], body, lo, hi, TUNING)
      ensures n == NeighbourCount(bodies.pos[..], body, lo, hi, TUNING)
    {
      com, n := ZERO, 0;
      for i := lo to hi
        invariant com == PositionSum(bodies.pos[..], body, lo, i, TUNING)
        invariant n == NeighbourCount(bodies.pos[..], body, lo, i, TUNING)
      {
        if list[i] == this {
          continue;
        }
        var sep := Sub(bodies.pos[body], bodies.pos[list[i].body]);
        if LengthSq(sep) < Sq(TUNING.rangeFAttract) {
          com := Add(com, bodies.pos[list[i].body]);
          n := n + 1;
        }
      }
    }

    /** The alignment scan: sum and count of the neighbours' velocities in [lo, hi). */
    method ScanAlignment(list: array<Boid>, bodies: Bodies, lo: nat, hi: nat) returns (temp: Vec3, n: nat)
      requires InFlock(list, bodies) && lo <= hi <= NUM_BOIDS
      ensures temp == VelocitySum(bodies.pos[..], bodies.vel[..], body, lo, hi, TUNING)
      ensures n == NeighbourCount(bodies.pos[..], body, lo, hi, TUNING)
    {
      temp, n := ZERO, 0;
      for i := lo to hi
        invariant temp == VelocitySum(bodies.pos[..], bodies.vel[..], body, lo, i, TUNING)
        invariant n == NeighbourCount(bodies.pos[..], body, lo, i, TUNING)
      {
        if list[i] == this {
          continue;
        }
        var sep := Sub(bodies.pos[body], bodies.pos[list[i].body]);
        if LengthSq(sep) < Sq(TUNING.rangeFAttract) {
          temp := Add(temp, bodies.vel[list[i].body]);
          n := n + 1;
        }
      }
    }

    /** The separation scan over [lo, hi), adding each push to `start`. */
    method ScanSeparation(list: array<Boid>, bodies: Bodies, lo: nat, hi: nat, start: Vec3, norm: Normalizer)
      returns (f: Vec3)
      requires InFlock(list, bodies) && lo <= hi <= NUM_BOIDS
      ensures f == Add(start, RepelSum(bodies.pos[..], body, lo, hi, norm, TUNING))
    {
      f := start;
      for i := lo to hi
        invariant f == Add(start, RepelSum(bodies.pos[..], body, lo, i, norm, TUNING))
      {
        if list[i] == this {
          continue;
        }
        var sep := Sub(bodies.pos[body], bodies.pos[list[i].body]);
        var d := LengthSq(sep);
        if d < Sq(TUNING.rangeFRepel) {
          if d > 0.0 && d < Sq(REPEL_CUTOFF) {
            f := Add(f, Scale(norm(sep), TUNING.fRepelFactor));
          }
        }
      }
    }

    /** The attraction block of `ComputeForce`: scan the selected half, then, when
        there are neighbours, add the cohesion term to `start`. */
    method AddCohesion(list: array<Boid>, hasRun: bool, bodies: Bodies, norm: Normalizer, start: Vec3)
      returns (f: Vec3)
      requires InFlock(list, bodies)
      ensures f == Add(start, Cohesion(bodies.pos[..], bodies.vel[..], body, HalfStart(hasRun), HalfEnd(hasRun), norm, TUNING))
    {
      var com := ZERO;
      var n: nat := 0;
      if !hasRun {
        com, n := ScanCohesion(list, bodies, 0, HALF);
      }
      if hasRun {
        com, n := ScanCohesion(list, bodies, HALF, NUM_BOIDS);
      }
      f := start;
      if n > 0 {
        com := Scale(com, 1.0 / n as real);
        var dir := norm(Sub(com, bodies.pos[body]));
        var vDesired := Scale(dir, TUNING.fAttractVmax);
        f := Add(f, Scale(Sub(vDesired, bodies.vel[body]), TUNING.fAttractFactor));
      }
    }

    /** The alignment block of `ComputeForce`. */
    method AddAlignment(list: array<Boid>, hasRun: bool, bodies: Bodies, norm: Normalizer, start: Vec3)
      returns (f: Vec3)
      requires InFlock(list, bodies)
      ensures f == Add(start, Alignment(bodies.pos[..], bodies.vel[..], body, HalfStart(hasRun), HalfEnd(hasRun), norm, TUNING))
    {
      var n: nat := 0;
      var temp := ZERO;
      if !hasRun {
        temp, n := ScanAlignment(list, bodies, 0, HALF);
      }
      if hasRun {
        temp, n := ScanAlignment(list, bodies, HALF, NUM_BOIDS);
      }
      f := start;
      if n > 0 {
        temp := Scale(temp, 1.0 / n as real);
        temp := norm(temp);
        // `temp* FAlign_Factor;` in the source computes a product and drops it.
        f := Add(f, Sub(temp, bodies.vel[body]));
      }
    }

    /** The separation block of `ComputeForce`. */
    method AddSeparation(list: array<Boid>, hasRun: bool, bodies: Bodies, norm: Normalizer, start: Vec3)
      returns (f: Vec3)
      requires InFlock(list, bodies)
      ensures f == Add(start, RepelSum(bodies.pos[..], body, HalfStart(hasRun), HalfEnd(hasRun), norm, TUNING))
    {
      f := start;
      if !hasRun {
        f := ScanSeparation(list, bodies, 0, HALF, f, norm);
      }
      if hasRun {
        f := ScanSeparation(list, bodies, HALF, NUM_BOIDS, f, norm);
      }
    }

    /** `Boid::ComputeForce(pBoid, hasRun)`: reset `force`, then add cohesion,
        alignment and separation over the half selected by `hasRun`. */
    method ComputeForce(list: array<Boid>, hasRun: bool, bodies: Bodies, norm: Normalizer)
      requires InFlock(list, bodies)
      modifies this
      ensures force == Force(bodies.pos[..], bodies.vel[..], body, hasRun, norm, TUNING)
    {
      force := ZERO;
      force := AddCohesion(list, hasRun, bodies, norm, force);
      force := AddAlignment(list, hasRun, bodies, norm, force);
      force := AddSeparation(list, hasRun, bodies, norm, force);
    }

    /** `Boid::Update`: push `force` into the body, clamp the speed to [10, 50]
        and the height to [10, 50]. The orientation is not modelled. */
    method Update(timeStep: real, bodies: Bodies, norm: Normalizer)
      requires bodies.Valid() && body < NUM_BOIDS
      modifies bodies, bodies.pos, bodies.vel
      ensures bodies.pushes == old(bodies.pushes) + [(body, force)]
      ensures bodies.vel[..] == old(bodies.vel[..])[body := ClampSpeed(old(bodies.vel[body]), norm)]
      ensures bodies.pos[..] == old(bodies.pos[..])[body := ClampAltitude(old(bodies.pos[body]))]
    {
      bodies.pushes := bodies.pushes + [(body, force)];

      var vel := bodies.vel[body];
      var d := LengthSq(vel);
      if d < Sq(MIN_SPEED) {
        bodies.vel[body] := Scale(norm(vel), MIN_SPEED);
      } else if d > Sq(MAX_SPEED) {
        bodies.vel[body] := Scale(norm(vel), MAX_SPEED);
      }

      var p := bodies.pos[body];
      if p.y < MIN_ALTITUDE {
        p := p.(y := MIN_ALTITUDE);
        bodies.pos[body] := p;
      } else if p.y > MAX_ALTITUDE {
        p := p.(y := MAX_ALTITUDE);
        bodies.pos[body] := p;
      }
    }
  }

  /** The flock: `NUM_BOIDS` boids in a fixed array, boid i owning body i, and the
      half-selection flag. */
  class BoidSet {
    const boidList: array<Boid>
    var hasRun: bool

    /** The boids of `boidList`, as a frame. */
    ghost const members: set<Boid>

    ghost predicate Valid()
      reads boidList
    {
      && boidList.Length == NUM_BOIDS
      && (forall i :: 0 <= i < NUM_BOIDS ==> boidList[i].body == i && boidList[i] in members)
      // and nothing else: every member is the boid at its own index
      && (forall b :: b in members ==> b.body < NUM_BOIDS && boidList[b.body] == b)
    }

    ghost function Forces(): (s: seq<Vec3>)
      requires Valid()
      reads boidList, members
      ensures |s| == NUM_BOIDS
      ensures forall i :: 0 <= i < NUM_BOIDS ==> s[i] == boidList[i].force
    {
      seq(boidList.Length, i requires 0 <= i < boidList.Length
                             reads boidList, if 0 <= i < boidList.Length then {boidList[i]} else {} =>
        boidList[i].force)
    }

    ghost function WorldOf(bodies: Bodies): (w: World)
      requires Valid() && bodies.Valid()
      reads boidList, members, bodies, bodies.pos, bodies.vel
      ensures WellFormed(w)
    {
      World(bodies.pos[..], bodies.vel[..], Forces(), bodies.pushes)
    }

    constructor ()
      ensures Valid() && fresh(boidList) && fresh(members)
      ensures !hasRun
      ensures forall i :: 0 <= i < NUM_BOIDS ==> boidList[i].force == ZERO
    {
      var made: seq<Boid> := [];
      for i := 0 to NUM_BOIDS
        invariant |made| == i
        invariant forall k :: 0 <= k < i ==> fresh(made[k]) && made[k].body == k && made[k].force == ZERO
      {
        var b := new Boid(i);
        made := made + [b];
      }
      var list := new Boid[NUM_BOIDS](i requires 0 <= i < NUM_BOIDS => made[i]);
      assert forall i :: 0 <= i < NUM_BOIDS ==> list[i] == made[i];
      boidList := list;
      members := set i | 0 <= i < NUM_BOIDS :: list[i];
      hasRun := false;
    }

    /** `BoidSet::Update(tm)` as written: the two blocks are sequential `if`s, so a
        call entered with `hasRun == false` runs both halves and leaves the flag
        false again; a call entered with `hasRun == true` runs the second half. */
    method Update(tm: real, bodies: Bodies, norm: Normalizer)
      requires Valid() && bodies.Valid()
      modifies this, members, bodies, bodies.pos, bodies.vel
      ensures Valid() && bodies.Valid()
      ensures (WorldOf(bodies), hasRun) == FlockUpdate(old(WorldOf(bodies)), old(hasRun), norm)
    {
      if !hasRun {
        RunBoids(0, HALF, tm, bodies, norm);
        hasRun := !hasRun;
      }
      if hasRun {
        RunBoids(HALF, NUM_BOIDS, tm, bodies, norm);
        hasRun := !hasRun;
      }
    }

    /** One of the two loops of `Update`: boids lo .. hi - 1 in index order, with the
        flag as it stands. */
    method RunBoids(lo: nat, hi: nat, tm: real, bodies: Bodies, norm: Normalizer)
      requires Valid() && bodies.Valid() && lo <= hi <= NUM_BOIDS
      modifies members, bodies, bodies.pos, bodies.vel
      ensures Valid() && bodies.Valid()
      ensures WorldOf(bodies) == RunRange(old(WorldOf(bodies)), lo, hi, RuleFor(hasRun, norm), norm)
    {
      ghost var w0 := WorldOf(bodies);
      ghost var rule := RuleFor(hasRun, norm);
      for i := lo to hi
        invariant Valid() && bodies.Valid()
        invariant WorldOf(bodies) == RunRange(w0, lo, i, rule, norm)
      {
        Visit(i, tm, bodies, norm);
      }
    }

    /** One iteration of either loop of `Update`: `ComputeForce`, then `Boid::Update`
        for boid i, searching the half the flag currently selects. */
    method Visit(i: nat, tm: real, bodies: Bodies, norm: Normalizer)
      requires Valid() && bodies.Valid() && i < NUM_BOIDS
      modifies members, bodies, bodies.pos, bodies.vel
      ensures Valid() && bodies.Valid()
      ensures WorldOf(bodies) == BoidStep(old(WorldOf(bodies)), i, RuleFor(hasRun, norm), norm)
    {
      ghost var w := WorldOf(bodies);
      boidList[i].ComputeForce(boidList, hasRun, bodies, norm);
      boidList[i].Update(tm, bodies, norm);
      assert Forces() == w.forces[i := boidList[i].force];
    }
  }
}
