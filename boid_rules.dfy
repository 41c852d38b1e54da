/** The steering rules of a boid (boids.cpp, `Boid::ComputeForce`) and its speed and
    altitude clamps (`Boid::Update`), stated as functions of the flock's positions
    and velocities.

    Distances are never taken: `d < R` is `|sep|^2 < R^2` and `d > 0` is
    `|sep|^2 > 0`. The seven tunables are gathered into a `Tuning` value so that
    the lemmas can say which of them the force actually reads; the boids
    themselves always use `TUNING`, the values boids.cpp gives them. */
module BoidRules {
  import opened Vectors

  /** `NumBoids`: the fixed flock size; the flock is split into two index halves. */
  const NUM_BOIDS: nat := 100
  const HALF: nat := NUM_BOIDS / 2

  /** The clamps of `Boid::Update`. */
  const MIN_SPEED: real := 10.0
  const MAX_SPEED: real := 50.0
  const MIN_ALTITUDE: real := 10.0
  const MAX_ALTITUDE: real := 50.0
  /** The upper bound in the separation test `d > 0 && d < 100`. */
  const REPEL_CUTOFF: real := 100.0

  datatype Tuning = Tuning(
    rangeFAttract: real,
    rangeFRepel: real,
    rangeFAlign: real,
    fAttractVmax: real,
    fAttractFactor: real,
    fRepelFactor: real,
    fAlignFactor: real)

  /** The static members `Boid::Range_FAttract` ... `Boid::FAttract_Vmax`. */
  const TUNING := Tuning(30.0, 20.0, 5.0, 5.0, 4.0, 2.0, 2.0)

  /** The half of the flock that `ComputeForce(list, hasRun)` searches: [0, 50)
      when `hasRun` is false, [50, 100) when it is true. */
  function HalfStart(hasRun: bool): nat {
    if hasRun then HALF else 0
  }

  function HalfEnd(hasRun: bool): (e: nat)
    ensures HalfStart(hasRun) <= e <= NUM_BOIDS && e - HalfStart(hasRun) == HALF
  {
    if hasRun then NUM_BOIDS else HALF
  }

  /** `sep`: the position of boid `me` relative to boid `i`. */
  function Separation(pos: seq<Vec3>, me: nat, i: nat): Vec3
    requires me < |pos| && i < |pos|
  {
    Sub(pos[me], pos[i])
  }

  /** Boid `i` is a neighbour of `me` for cohesion and alignment. */
  predicate Attracts(pos: seq<Vec3>, me: nat, i: nat, t: Tuning)
    requires me < |pos| && i < |pos|
  {
    i != me && LengthSq(Separation(pos, me, i)) < Sq(t.rangeFAttract)
  }

  /** Boid `i` pushes `me` away (separation). */
  predicate Repels(pos: seq<Vec3>, me: nat, i: nat, t: Tuning)
    requires me < |pos| && i < |pos|
  {
    && i != me
    && LengthSq(Separation(pos, me, i)) < Sq(t.rangeFRepel)
    && 0.0 < LengthSq(Separation(pos, me, i))
    && LengthSq(Separation(pos, me, i)) < Sq(REPEL_CUTOFF)
  }

  /** No boid of [lo, hi) is a cohesion/alignment neighbour of `me`. */
  predicate NoneAttract(pos: seq<Vec3>, me: nat, lo: nat, hi: nat, t: Tuning)
    requires me < |pos| && hi <= |pos|
  {
    forall i :: lo <= i < hi ==> !Attracts(pos, me, i, t)
  }

  /** No boid of [lo, hi) pushes `me` away. */
  predicate NoneRepel(pos: seq<Vec3>, me: nat, lo: nat, hi: nat, t: Tuning)
    requires me < |pos| && hi <= |pos|
  {
    forall i :: lo <= i < hi ==> !Repels(pos, me, i, t)
  }

  /** The counter `n` of the cohesion scan over indices [lo, hi). */
  function NeighbourCount(pos: seq<Vec3>, me: nat, lo: nat, hi: nat, t: Tuning): (n: nat)
    requires me < |pos| && lo <= hi <= |pos|
    ensures n <= hi - lo
    ensures n == 0 <==> NoneAttract(pos, me, lo, hi, t)
  {
    if hi == lo then 0
    else NeighbourCount(pos, me, lo, hi - 1, t) + (if Attracts(pos, me, hi - 1, t) then 1 else 0)
  }

  /** The accumulated centre of mass `CoM` before the division by `n`. */
  function PositionSum(pos: seq<Vec3>, me: nat, lo: nat, hi: nat, t: Tuning): (com: Vec3)
    requires me < |pos| && lo <= hi <= |pos|
    ensures NoneAttract(pos, me, lo, hi, t) ==> com == ZERO
  {
    if hi == lo then ZERO
    else if Attracts(pos, me, hi - 1, t) then Add(PositionSum(pos, me, lo, hi - 1, t), pos[hi - 1])
    else PositionSum(pos, me, lo, hi - 1, t)
  }

  /** The accumulated neighbour velocity `temp` of the alignment scan. */
  function VelocitySum(pos: seq<Vec3>, vel: seq<Vec3>, me: nat, lo: nat, hi: nat, t: Tuning): (temp: Vec3)
    requires |vel| == |pos| && me < |pos| && lo <= hi <= |pos|
    ensures NoneAttract(pos, me, lo, hi, t) ==> temp == ZERO
  {
    if hi == lo then ZERO
    else if Attracts(pos, me, hi - 1, t) then Add(VelocitySum(pos, vel, me, lo, hi - 1, t), vel[hi - 1])
    else VelocitySum(pos, vel, me, lo, hi - 1, t)
  }

  /** The sum of the separation pushes `sep.Normalize(); force += sep * FRepel_Factor`. */
  function RepelSum(pos: seq<Vec3>, me: nat, lo: nat, hi: nat, norm: Normalizer, t: Tuning): (f: Vec3)
    requires me < |pos| && lo <= hi <= |pos|
    ensures NoneRepel(pos, me, lo, hi, t) ==> f == ZERO
  {
    if hi == lo then ZERO
    else if Repels(pos, me, hi - 1, t)
    then Add(RepelSum(pos, me, lo, hi - 1, norm, t), Scale(norm(Separation(pos, me, hi - 1)), t.fRepelFactor))
    else RepelSum(pos, me, lo, hi - 1, norm, t)
  }

  /** Cohesion: steer towards the neighbours' centre of mass at speed `FAttract_Vmax`. */
  function Cohesion(pos: seq<Vec3>, vel: seq<Vec3>, me: nat, lo: nat, hi: nat, norm: Normalizer, t: Tuning): (f: Vec3)
    requires |vel| == |pos| && me < |pos| && lo <= hi <= |pos|
    ensures NoneAttract(pos, me, lo, hi, t) ==> f == ZERO
  {
    var n := NeighbourCount(pos, me, lo, hi, t);
    if n > 0 then
      var com := Scale(PositionSum(pos, me, lo, hi, t), 1.0 / n as real);
      var vDesired := Scale(norm(Sub(com, pos[me])), t.fAttractVmax);
      Scale(Sub(vDesired, vel[me]), t.fAttractFactor)
    else ZERO
  }

  /** Alignment: the normalised mean neighbour velocity minus the boid's own. The
      product with `FAlign_Factor` in the source is a discarded expression, so the
      factor does not appear here. */
  function Alignment(pos: seq<Vec3>, vel: seq<Vec3>, me: nat, lo: nat, hi: nat, norm: Normalizer, t: Tuning): (f: Vec3)
    requires |vel| == |pos| && me < |pos| && lo <= hi <= |pos|
    ensures NoneAttract(pos, me, lo, hi, t) ==> f == ZERO
  {
    var n := NeighbourCount(pos, me, lo, hi, t);
    if n > 0 then Sub(norm(Scale(VelocitySum(pos, vel, me, lo, hi, t), 1.0 / n as real)), vel[me])
    else ZERO
  }

  /** The value `ComputeForce(list, hasRun)` leaves in boid `me`'s `force`. */
  function Force(pos: seq<Vec3>, vel: seq<Vec3>, me: nat, hasRun: bool, norm: Normalizer, t: Tuning): (f: Vec3)
    requires |pos| == NUM_BOIDS && |vel| == NUM_BOIDS && me < NUM_BOIDS
    // no boid of the searched half attracts or repels: every term is zero
    ensures (NoneAttract(pos, me, HalfStart(hasRun), HalfEnd(hasRun), t) &&
             NoneRepel(pos, me, HalfStart(hasRun), HalfEnd(hasRun), t)) ==> f == ZERO
  {
    var lo, hi := HalfStart(hasRun), HalfEnd(hasRun);
    Add(Add(Cohesion(pos, vel, me, lo, hi, norm, t), Alignment(pos, vel, me, lo, hi, norm, t)),
        RepelSum(pos, me, lo, hi, norm, t))
  }

  /** The velocity `Boid::Update` leaves: rescaled to speed 10 below 10, to 50
      above 50, otherwise unchanged. */
  function ClampSpeed(v: Vec3, norm: Normalizer): (r: Vec3)
    ensures Sq(MIN_SPEED) <= LengthSq(v) <= Sq(MAX_SPEED) ==> r == v
    ensures LengthSq(v) < Sq(MIN_SPEED) ==> r == Scale(norm(v), MIN_SPEED)
    ensures LengthSq(v) > Sq(MAX_SPEED) ==> r == Scale(norm(v), MAX_SPEED)
  {
    if LengthSq(v) < Sq(MIN_SPEED) then Scale(norm(v), MIN_SPEED)
    else if LengthSq(v) > Sq(MAX_SPEED) then Scale(norm(v), MAX_SPEED)
    else v
  }

  /** The position `Boid::Update` leaves: height forced into [10, 50]. */
  function ClampAltitude(p: Vec3): (r: Vec3)
    ensures r.x == p.x && r.z == p.z
    ensures MIN_ALTITUDE <= r.y <= MAX_ALTITUDE
    ensures MIN_ALTITUDE <= p.y <= MAX_ALTITUDE ==> r == p
    ensures p.y < MIN_ALTITUDE ==> r.y == MIN_ALTITUDE
    ensures p.y > MAX_ALTITUDE ==> r.y == MAX_ALTITUDE
  {
    if p.y < MIN_ALTITUDE then p.(y := MIN_ALTITUDE)
    else if p.y > MAX_ALTITUDE then p.(y := MAX_ALTITUDE)
    else p
  }

  /** The cohesion/alignment neighbours of `me` among indices [lo, hi). */
  ghost function Neighbours(pos: seq<Vec3>, me: nat, lo: nat, hi: nat, t: Tuning): set<nat>
    requires me < |pos| && hi <= |pos|
  {
    set i: nat | lo <= i < hi && Attracts(pos, me, i, t)
  }

  /** The separation neighbours of `me` among indices [lo, hi). */
  ghost function Repellers(pos: seq<Vec3>, me: nat, lo: nat, hi: nat, t: Tuning): set<nat>
    requires me < |pos| && hi <= |pos|
  {
    set i: nat | lo <= i < hi && Repels(pos, me, i, t)
  }

  /** The counter `n` is the number of neighbours, and the boid itself is never one. */
  lemma {:induction false} NeighbourCountIsNeighbours(pos: seq<Vec3>, me: nat, lo: nat, hi: nat, t: Tuning)
    requires me < |pos| && lo <= hi <= |pos|
    ensures NeighbourCount(pos, me, lo, hi, t) == |Neighbours(pos, me, lo, hi, t)|
    ensures me !in Neighbours(pos, me, lo, hi, t)
  {
    if hi > lo {
      NeighbourCountIsNeighbours(pos, me, lo, hi - 1, t);
      var prev := Neighbours(pos, me, lo, hi - 1, t);
      if Attracts(pos, me, hi - 1, t) {
        assert Neighbours(pos, me, lo, hi, t) == prev + {hi - 1};
      } else {
        assert Neighbours(pos, me, lo, hi, t) == prev;
      }
    } else {
      assert Neighbours(pos, me, lo, hi, t) == {};
    }
  }

  lemma SquareMonotone(a: real, b: real)
    requires 0.0 <= a <= b
    ensures Sq(a) <= Sq(b)
    ensures 0.0 < a ==> 0.0 < Sq(a)
  {
    calc {
      Sq(a);
      a * a;
    <= { assert a * a <= a * b; }
      a * b;
    <= { assert a * b <= b * b; }
      b * b;
      Sq(b);
    }
    if 0.0 < a {
      calc {
        Sq(a);
        a * a;
      > { assert a * a > 0.0; }
        0.0;
      }
    }
  }

  lemma SubsetSize<T>(a: set<T>, b: set<T>)
    requires a <= b
    ensures |a| <= |b|
  {
    assert b == a + (b - a);
    assert a * (b - a) == {};
  }

  /** With a repulsion range no larger than the attraction range, a boid that
      pushes `me` away is also one of its cohesion/alignment neighbours. */
  lemma RepelsImpliesAttracts(pos: seq<Vec3>, me: nat, i: nat, t: Tuning)
    requires me < |pos| && i < |pos|
    requires 0.0 <= t.rangeFRepel <= t.rangeFAttract
    ensures Repels(pos, me, i, t) ==> Attracts(pos, me, i, t)
  {
    SquareMonotone(t.rangeFRepel, t.rangeFAttract);
  }

  /** Separation acts on a subset of the cohesion/alignment neighbours. */
  lemma RepellersAreNeighbours(pos: seq<Vec3>, me: nat, lo: nat, hi: nat, t: Tuning)
    requires me < |pos| && lo <= hi <= |pos|
    requires 0.0 <= t.rangeFRepel <= t.rangeFAttract
    ensures Repellers(pos, me, lo, hi, t) <= Neighbours(pos, me, lo, hi, t)
    ensures |Repellers(pos, me, lo, hi, t)| <= NeighbourCount(pos, me, lo, hi, t)
  {
    var rs, ns := Repellers(pos, me, lo, hi, t), Neighbours(pos, me, lo, hi, t);
    forall i | i in rs
      ensures i in ns
    {
      RepelsImpliesAttracts(pos, me, i, t);
    }
    NeighbourCountIsNeighbours(pos, me, lo, hi, t);
    SubsetSize(rs, ns);
  }

  /** A boid at the same position as `me` (d = 0) is a cohesion/alignment
      neighbour but never pushes `me` away. */
  lemma CoincidentBoid(pos: seq<Vec3>, me: nat, i: nat, t: Tuning)
    requires me < |pos| && i < |pos| && i != me && pos[i] == pos[me]
    requires t.rangeFAttract > 0.0
    ensures Attracts(pos, me, i, t) && !Repels(pos, me, i, t)
  {
    var d := LengthSq(Separation(pos, me, i));
    calc {
      d;
    == { CoincidentDistance(pos, me, i); }
      0.0;
    < { SquareMonotone(t.rangeFAttract, t.rangeFAttract); }
      Sq(t.rangeFAttract);
    }
  }

  lemma CoincidentDistance(pos: seq<Vec3>, me: nat, i: nat)
    requires me < |pos| && i < |pos| && pos[i] == pos[me]
    ensures LengthSq(Separation(pos, me, i)) == 0.0
  {
    assert Separation(pos, me, i) == ZERO;
    LengthSqZero();
  }

  /** A boid with no neighbour in [lo, hi) counts none and is pushed by none. */
  lemma {:induction false} IsolatedSums(pos: seq<Vec3>, me: nat, lo: nat, hi: nat, norm: Normalizer, t: Tuning)
    requires me < |pos| && lo <= hi <= |pos|
    requires 0.0 <= t.rangeFRepel <= t.rangeFAttract
    requires forall i :: lo <= i < hi ==> !Attracts(pos, me, i, t)
    ensures NeighbourCount(pos, me, lo, hi, t) == 0
    ensures RepelSum(pos, me, lo, hi, norm, t) == ZERO
  {
    if hi > lo {
      IsolatedSums(pos, me, lo, hi - 1, norm, t);
      SquareMonotone(t.rangeFRepel, t.rangeFAttract);
      var d := LengthSq(Separation(pos, me, hi - 1));
      assert !Attracts(pos, me, hi - 1, t);
      assert hi - 1 == me || d >= Sq(t.rangeFAttract);
      assert !Repels(pos, me, hi - 1, t);
    }
  }

  /** If no other boid of the searched half is nearer than `Range_FAttract`, the
      force is the zero vector: both `n > 0` gates stay shut and no boid is near
      enough to repel, since `Range_FRepel` <= `Range_FAttract`. */
  lemma NoNeighboursNoForce(pos: seq<Vec3>, vel: seq<Vec3>, me: nat, hasRun: bool, norm: Normalizer, t: Tuning)
    requires |pos| == NUM_BOIDS && |vel| == NUM_BOIDS && me < NUM_BOIDS
    requires 0.0 <= t.rangeFRepel <= t.rangeFAttract
    requires forall i :: HalfStart(hasRun) <= i < HalfEnd(hasRun) && i != me ==>
               LengthSq(Sub(pos[me], pos[i])) >= Sq(t.rangeFAttract)
    ensures Force(pos, vel, me, hasRun, norm, t) == ZERO
  {
    var lo, hi := HalfStart(hasRun), HalfEnd(hasRun);
    forall i | lo <= i < hi
      ensures !Attracts(pos, me, i, t)
    {
      assert i != me ==> LengthSq(Separation(pos, me, i)) >= Sq(t.rangeFAttract);
    }
    IsolatedSums(pos, me, lo, hi, norm, t);
    assert Cohesion(pos, vel, me, lo, hi, norm, t) == ZERO;
    assert Alignment(pos, vel, me, lo, hi, norm, t) == ZERO;
  }

  /** The sums of a scan over [lo, hi) read only the boids in [lo, hi) and `me`. */
  lemma {:induction false} SumsReadOnlyRange(pos: seq<Vec3>, vel: seq<Vec3>, pos': seq<Vec3>, vel': seq<Vec3>,
                                             me: nat, lo: nat, hi: nat, norm: Normalizer, t: Tuning)
    requires |pos| == |vel| == |pos'| == |vel'| && me < |pos| && lo <= hi <= |pos|
    requires pos'[me] == pos[me]
    requires forall i :: lo <= i < hi ==> pos'[i] == pos[i] && vel'[i] == vel[i]
    ensures NeighbourCount(pos', me, lo, hi, t) == NeighbourCount(pos, me, lo, hi, t)
    ensures PositionSum(pos', me, lo, hi, t) == PositionSum(pos, me, lo, hi, t)
    ensures VelocitySum(pos', vel', me, lo, hi, t) == VelocitySum(pos, vel, me, lo, hi, t)
    ensures RepelSum(pos', me, lo, hi, norm, t) == RepelSum(pos, me, lo, hi, norm, t)
  {
    if hi > lo {
      SumsReadOnlyRange(pos, vel, pos', vel', me, lo, hi - 1, norm, t);
      assert Separation(pos', me, hi - 1) == Separation(pos, me, hi - 1);
    }
  }

  /** The force on `me` depends only on `me`'s own position and velocity and on
      the boids of the half selected by `hasRun`, never on the other half. */
  lemma ForceReadsOnlyHalf(pos: seq<Vec3>, vel: seq<Vec3>, pos': seq<Vec3>, vel': seq<Vec3>,
                           me: nat, hasRun: bool, norm: Normalizer, t: Tuning)
    requires |pos| == |vel| == |pos'| == |vel'| == NUM_BOIDS && me < NUM_BOIDS
    requires pos'[me] == pos[me] && vel'[me] == vel[me]
    requires forall i :: HalfStart(hasRun) <= i < HalfEnd(hasRun) ==> pos'[i] == pos[i] && vel'[i] == vel[i]
    ensures Force(pos', vel', me, hasRun, norm, t) == Force(pos, vel, me, hasRun, norm, t)
  {
    SumsReadOnlyRange(pos, vel, pos', vel', me, HalfStart(hasRun), HalfEnd(hasRun), norm, t);
  }

  /** `Range_FAlign` and `FAlign_Factor` are never read: changing them leaves every
      scan, and so the force, as it was. */
  lemma {:induction false} AlignTunablesUnused(pos: seq<Vec3>, vel: seq<Vec3>, me: nat, lo: nat, hi: nat,
                                               norm: Normalizer, t: Tuning, rangeFAlign: real, fAlignFactor: real)
    requires |vel| == |pos| && me < |pos| && lo <= hi <= |pos|
    ensures var t' := t.(rangeFAlign := rangeFAlign, fAlignFactor := fAlignFactor);
      && NeighbourCount(pos, me, lo, hi, t') == NeighbourCount(pos, me, lo, hi, t)
      && PositionSum(pos, me, lo, hi, t') == PositionSum(pos, me, lo, hi, t)
      && VelocitySum(pos, vel, me, lo, hi, t') == VelocitySum(pos, vel, me, lo, hi, t)
      && RepelSum(pos, me, lo, hi, norm, t') == RepelSum(pos, me, lo, hi, norm, t)
  {
    if hi > lo {
      AlignTunablesUnused(pos, vel, me, lo, hi - 1, norm, t, rangeFAlign, fAlignFactor);
    }
  }

  lemma AlignmentFactorHasNoEffect(pos: seq<Vec3>, vel: seq<Vec3>, me: nat, hasRun: bool, norm: Normalizer,
                                   t: Tuning, rangeFAlign: real, fAlignFactor: real)
    requires |pos| == NUM_BOIDS && |vel| == NUM_BOIDS && me < NUM_BOIDS
    ensures Force(pos, vel, me, hasRun, norm, t.(rangeFAlign := rangeFAlign, fAlignFactor := fAlignFactor))
         == Force(pos, vel, me, hasRun, norm, t)
  {
    AlignTunablesUnused(pos, vel, me, HalfStart(hasRun), HalfEnd(hasRun), norm, t, rangeFAlign, fAlignFactor);
  }

  /** For a velocity the engine normalises correctly (non-zero), the clamp leaves a
      speed in [10, 50] and the same direction: exactly 10 when it was slower,
      exactly 50 when it was faster, and the velocity itself when it was in band. */
  lemma ClampSpeedResult(v: Vec3, norm: Normalizer)
    requires IsUnitOf(norm(v), v)
    ensures var r := ClampSpeed(v, norm);
      && Sq(MIN_SPEED) <= LengthSq(r) <= Sq(MAX_SPEED)
      && SameDirection(r, v)
      && (LengthSq(v) < Sq(MIN_SPEED) ==> LengthSq(r) == Sq(MIN_SPEED))
      && (LengthSq(v) > Sq(MAX_SPEED) ==> LengthSq(r) == Sq(MAX_SPEED))
      && (Sq(MIN_SPEED) <= LengthSq(v) <= Sq(MAX_SPEED) ==> r == v)
  {
    if LengthSq(v) < Sq(MIN_SPEED) {
      ScaledUnit(norm(v), v, MIN_SPEED);
    } else if LengthSq(v) > Sq(MAX_SPEED) {
      ScaledUnit(norm(v), v, MAX_SPEED);
    } else {
      assert v == Scale(v, 1.0);
    }
  }
}
