/** The projectile pool: a fixed array of three reusable missile slots, each with
    its own clock, an expiry time and a fixed lifetime (Missile.h, Missile.cpp).

    The value of a slot is a `Slot`; the functions `Activated` and `Tick` say what
    one call of `Missile.Activate` and `Missile.Update` does to it, and
    `ActivatePool` / `TickPool` do the same for the whole pool. The classes
    `Missile` and `MissileSet` are the in-place implementation, each method tied
    to its function. */
module Missiles {
  import opened Vectors

  /** `MaxMissiles`: the pool's fixed capacity. */
  const MAX_MISSILES: nat := 3
  /** The initialiser of `Missile::delay`: a slot's lifetime after activation. */
  const DEFAULT_DELAY: real := 5.0
  /** Launch speed given to an activated missile. */
  const LAUNCH_SPEED: real := 20.0
  /** The force pushed into an active missile's body each tick: a fixed vector
      along the world x axis, whatever the missile's heading. */
  const THRUST := Vec3(1.0, 0.0, 0.0)

  datatype Option<T> = None | Some(value: T)

  /** What the engine holds for a missile: whether its model is rendered, its
      rigid body's position and velocity, and every force pushed into the body
      with `ApplyForce`, oldest first. */
  datatype Body = Body(visible: bool, position: Vec3, velocity: Vec3, thrusts: seq<Vec3>)

  datatype Slot = Slot(delay: real, timer: real, currentTime: real, isActive: bool, body: Body)

  /** A slot as the default member initialisers and `Initialise` leave it. */
  const FRESH_SLOT := Slot(DEFAULT_DELAY, 0.0, 0.0, false, Body(false, ZERO, ZERO, []))

  /** `Missile::Activate`: arm the expiry timer and launch from the camera. The
      camera's position and direction are opaque inputs. */
  function Activated(s: Slot, camPos: Vec3, camDir: Vec3, norm: Normalizer): (r: Slot)
    ensures r.isActive && r.timer == s.currentTime + s.delay
    ensures r.currentTime == s.currentTime && r.delay == s.delay
    ensures r.body.visible && r.body.position == camPos
    ensures r.body.velocity == Scale(norm(camDir), LAUNCH_SPEED)
    ensures r.body.thrusts == s.body.thrusts
  {
    s.(timer := s.currentTime + s.delay, isActive := true,
       body := s.body.(visible := true, position := camPos,
                       velocity := Scale(norm(camDir), LAUNCH_SPEED)))
  }

  /** `Missile::Update(dt)`: advance the clock, expire, and push thrust. */
  function Tick(s: Slot, dt: real): (r: Slot)
    ensures r.currentTime == s.currentTime + dt
    ensures r.timer == s.timer && r.delay == s.delay
    // the slot stays active exactly when it was active and has not passed its timer
    ensures r.isActive <==> s.isActive && !(r.currentTime > r.timer)
    ensures r.currentTime > r.timer ==> !r.isActive && !r.body.visible
    ensures !(r.currentTime > r.timer) ==> r.body.visible == s.body.visible
    // thrust is pushed exactly when the slot survives the expiry check
    ensures r.body.thrusts == s.body.thrusts + (if r.isActive then [THRUST] else [])
    ensures r.body.position == s.body.position && r.body.velocity == s.body.velocity
  {
    var t := s.currentTime + dt;
    var expired := t > s.timer;
    var active := s.isActive && !expired;
    s.(currentTime := t, isActive := active,
       body := s.body.(visible := s.body.visible && !expired,
                       thrusts := if active then s.body.thrusts + [THRUST] else s.body.thrusts))
  }

  /** `k` consecutive updates with the same time step. */
  function Ticks(s: Slot, dt: real, k: nat): (r: Slot)
    ensures r.currentTime == s.currentTime + k as real * dt
    ensures r.timer == s.timer && r.delay == s.delay
    // updates never activate a slot
    ensures r.isActive ==> s.isActive
  {
    if k == 0 then s else Tick(Ticks(s, dt, k - 1), dt)
  }

  /** The slot `MissileSet::ActivateMissile` picks: the lowest-index inactive one. */
  function FirstInactive(slots: seq<Slot>): (r: Option<nat>)
    ensures r.None? <==> forall k :: 0 <= k < |slots| ==> slots[k].isActive
    ensures r.Some? ==> r.value < |slots| && !slots[r.value].isActive
    ensures r.Some? ==> forall j :: 0 <= j < r.value ==> slots[j].isActive
  {
    if slots == [] then None
    else if !slots[0].isActive then Some(0)
    else match FirstInactive(slots[1..])
         case None => None
         case Some(k) => Some(k + 1)
  }

  /** `MissileSet::ActivateMissile` on the pool's value. */
  function ActivatePool(slots: seq<Slot>, camPos: Vec3, camDir: Vec3, norm: Normalizer): (r: seq<Slot>)
    ensures |r| == |slots|
    // a full pool drops the request
    ensures (forall k :: 0 <= k < |slots| ==> slots[k].isActive) ==> r == slots
    // otherwise exactly the lowest inactive slot is activated
    ensures forall k :: 0 <= k < |slots| && !slots[k].isActive && (forall j :: 0 <= j < k ==> slots[j].isActive) ==>
              r == slots[k := Activated(slots[k], camPos, camDir, norm)]
  {
    match FirstInactive(slots)
    case None => slots
    case Some(k) => slots[k := Activated(slots[k], camPos, camDir, norm)]
  }

  /** `MissileSet::Update(dt)` on the pool's value. */
  function TickPool(slots: seq<Slot>, dt: real): (r: seq<Slot>)
    ensures |r| == |slots|
    ensures forall k :: 0 <= k < |slots| ==> r[k] == Tick(slots[k], dt)
  {
    seq(|slots|, k requires 0 <= k < |slots| => Tick(slots[k], dt))
  }

  /** Every slot of the pool still has the default lifetime. */
  ghost predicate DefaultDelays(slots: seq<Slot>) {
    forall k :: 0 <= k < |slots| ==> slots[k].delay == DEFAULT_DELAY
  }

  /** No pool operation writes `delay`: activation and updates keep every slot's
      lifetime at the default. */
  lemma PoolKeepsDelays(slots: seq<Slot>, camPos: Vec3, camDir: Vec3, norm: Normalizer, dt: real)
    requires DefaultDelays(slots)
    ensures DefaultDelays(ActivatePool(slots, camPos, camDir, norm))
    ensures DefaultDelays(TickPool(slots, dt))
  {
    match FirstInactive(slots)
    case None =>
    case Some(k) =>
      assert ActivatePool(slots, camPos, camDir, norm) == slots[k := Activated(slots[k], camPos, camDir, norm)];
  }

  /** An activated slot ticked with dt = 1 stays active for exactly `delay` = 5
      updates: the clock reads activation time + k, the timer activation time + 5,
      and the expiry test is strict, so the 6th update deactivates it. It receives
      one thrust per update it survives. */
  lemma {:induction false} LifetimeOfActivation(s: Slot, camPos: Vec3, camDir: Vec3, norm: Normalizer, k: nat)
    requires s.delay == DEFAULT_DELAY
    ensures var r := Ticks(Activated(s, camPos, camDir, norm), 1.0, k);
      && r.currentTime == s.currentTime + k as real
      && r.timer == s.currentTime + DEFAULT_DELAY
      && (r.isActive <==> k <= 5)
      && |r.body.thrusts| == |s.body.thrusts| + (if k <= 5 then k else 5)
  {
    if k > 0 {
      LifetimeOfActivation(s, camPos, camDir, norm, k - 1);
    }
  }

  /** A missile whose camera direction the engine normalises correctly (non-zero)
      is launched at speed 20 along it. */
  lemma LaunchSpeed(s: Slot, camPos: Vec3, camDir: Vec3, norm: Normalizer)
    requires IsUnitOf(norm(camDir), camDir)
    ensures var v := Activated(s, camPos, camDir, norm).body.velocity;
      LengthSq(v) == Sq(LAUNCH_SPEED) && SameDirection(v, camDir)
  {
    ScaledUnit(norm(camDir), camDir, LAUNCH_SPEED);
  }

  /** A fresh slot's first update with dt > 0 takes the expiry branch although the
      slot was never active; it stays inactive, hidden and un-thrust. */
  lemma FreshSlotFirstTick(dt: real)
    requires dt > 0.0
    ensures var r := Tick(FRESH_SLOT, dt);
      r.currentTime > r.timer && !r.isActive && !r.body.visible && r.body.thrusts == []
  {
  }

  /** On a fresh pool, three activations with no update in between fill slots 0, 1
      and 2 in that order, and a fourth changes nothing. */
  lemma FreshPoolFillsInOrder(camPos: Vec3, camDir: Vec3, norm: Normalizer)
    ensures var p0 := [FRESH_SLOT, FRESH_SLOT, FRESH_SLOT];
      var p1 := ActivatePool(p0, camPos, camDir, norm);
      var p2 := ActivatePool(p1, camPos, camDir, norm);
      var p3 := ActivatePool(p2, camPos, camDir, norm);
      var p4 := ActivatePool(p3, camPos, camDir, norm);
      && p1 == [Activated(FRESH_SLOT, camPos, camDir, norm), FRESH_SLOT, FRESH_SLOT]
      && p2 == [p1[0], Activated(FRESH_SLOT, camPos, camDir, norm), FRESH_SLOT]
      && p3 == [p1[0], p2[1], Activated(FRESH_SLOT, camPos, camDir, norm)]
      && p4 == p3
  {
    var a := Activated(FRESH_SLOT, camPos, camDir, norm);
    var p0 := [FRESH_SLOT, FRESH_SLOT, FRESH_SLOT];
    assert ActivatePool(p0, camPos, camDir, norm) == [a, FRESH_SLOT, FRESH_SLOT];
    assert ActivatePool([a, FRESH_SLOT, FRESH_SLOT], camPos, camDir, norm) == [a, a, FRESH_SLOT];
    assert ActivatePool([a, a, FRESH_SLOT], camPos, camDir, norm) == [a, a, a];
  }

  /** One missile: its own timer fields and the state of its engine objects. */
  class Missile {
    var delay: real
    var timer: real
    var currentTime: real
    var isActive: bool
    var visible: bool
    var position: Vec3
    var velocity: Vec3
    var thrusts: seq<Vec3>

    function State(): Slot
      reads this
    {
      Slot(delay, timer, currentTime, isActive, Body(visible, position, velocity, thrusts))
    }

    /** The member initialisers, together with what `Initialise` sets: hidden, at rest
        at the origin, inactive. */
    constructor ()
      ensures State() == FRESH_SLOT
    {
      delay := DEFAULT_DELAY;
      timer := 0.0;
      currentTime := 0.0;
      isActive := false;
      visible := false;
      position := ZERO;
      velocity := ZERO;
      thrusts := [];
    }

    method Activate(timeStep: real, camPos: Vec3, camDir: Vec3, norm: Normalizer)
      modifies this
      ensures State() == Activated(old(State()), camPos, camDir, norm)
    {
      timer := currentTime + delay;
      isActive := true;
      visible := true;
      position := camPos;
      velocity := Scale(norm(camDir), LAUNCH_SPEED);
    }

    /** Reports `isActive`; the argument is overwritten on every path. */
    method CheckActive(returnActive: bool) returns (r: bool)
      ensures r == isActive
    {
      r := returnActive;
      if isActive == true {
        r := true;
      }
      if isActive == false {
        r := false;
      }
    }

    method Update(timeStep: real)
      modifies this
      ensures State() == Tick(old(State()), timeStep)
    {
      currentTime := currentTime + timeStep;
      if currentTime > timer {
        visible := false;
        isActive := false;
      }
      if isActive == true {
        thrusts := thrusts + [THRUST];
      }
    }
  }

  /** The pool: a fixed array of `MAX_MISSILES` distinct missiles. */
  class MissileSet {
    const missileList: array<Missile>

    ghost function Elements(): set<Missile>
      reads this, missileList
    {
      set k | 0 <= k < missileList.Length :: missileList[k]
    }

    ghost predicate Valid()
      reads this, missileList, Elements()
    {
      && missileList.Length == MAX_MISSILES
      && (forall j, k :: 0 <= j < k < missileList.Length ==> missileList[j] != missileList[k])
      && (forall k :: 0 <= k < missileList.Length ==> missileList[k].delay == DEFAULT_DELAY)
    }

    ghost function Slots(): (s: seq<Slot>)
      reads this, missileList, Elements()
      ensures |s| == missileList.Length
      ensures forall k :: 0 <= k < missileList.Length ==> s[k] == missileList[k].State()
    {
      seq(missileList.Length, k requires 0 <= k < missileList.Length reads missileList, if 0 <= k < missileList.Length then {missileList[k]} else {} =>
        missileList[k].State())
    }

    constructor ()
      ensures Valid() && fresh(missileList) && fresh(Elements())
      ensures Slots() == [FRESH_SLOT, FRESH_SLOT, FRESH_SLOT]
    {
      var m0 := new Missile();
      var m1 := new Missile();
      var m2 := new Missile();
      missileList := new Missile[MAX_MISSILES] [m0, m1, m2];
    }

    method ActivateMissile(timeStep: real, camPos: Vec3, camDir: Vec3, norm: Normalizer)
      requires Valid()
      modifies Elements()
      ensures Valid()
      ensures Slots() == ActivatePool(old(Slots()), camPos, camDir, norm)
    {
      ghost var before := Slots();
      ghost var first := FirstInactive(before);
      var newMissile := false;
      for i := 0 to MAX_MISSILES
        invariant newMissile <==> first.Some? && first.value < i
        invariant forall k :: 0 <= k < MAX_MISSILES ==>
          missileList[k].State() == if newMissile && first.value == k
                                    then Activated(before[k], camPos, camDir, norm) else before[k]
      {
        var check := false;
        var temp := missileList[i].CheckActive(check);
        if temp == false && newMissile == false {
          missileList[i].Activate(timeStep, camPos, camDir, norm);
          newMissile := true;
        }
      }
      assert Slots() == ActivatePool(before, camPos, camDir, norm);
    }

    method Update(tm: real)
      requires Valid()
      modifies Elements()
      ensures Valid()
      ensures Slots() == TickPool(old(Slots()), tm)
    {
      ghost var before := Slots();
      for i := 0 to MAX_MISSILES
        invariant forall k :: 0 <= k < MAX_MISSILES ==>
          missileList[k].State() == if k < i then Tick(before[k], tm) else before[k]
      {
        missileList[i].Update(tm);
      }
      assert Slots() == TickPool(before, tm);
    }
  }
}
