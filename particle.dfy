/** A short-lived visual particle (src/entities/Particle.cpp): it moves under a little
    gravity and drag, counts its lifetime down, and shrinks as it ages. */
module Particles {
  import opened Geometry

  /** Downward acceleration, in units per second squared. */
  const Gravity: real := 50.0
  /** Velocity factor applied once per update (air drag). */
  const Drag: real := 0.98
  /** The radius factor of a particle at the end of its life. */
  const MinScale: real := 0.8

  /** The fields of a particle, with the radius its circle shape currently has. */
  datatype ParticleState = ParticleState(
    position: Vec2,
    velocity: Vec2,
    remainingLifetime: real,
    initialLifetime: real,
    size: real,
    radius: real)

  /** The scale is computed by dividing by the initial lifetime. */
  predicate WellFormed(s: ParticleState) { s.initialLifetime != 0.0 }

  /** The constructor: both lifetimes start at the given lifetime, the circle at full size. */
  function New(position: Vec2, velocity: Vec2, lifetime: real, size: real): ParticleState {
    ParticleState(position, velocity, lifetime, lifetime, size, size)
  }

  /** isAlive */
  predicate Alive(s: ParticleState) { s.remainingLifetime > 0.0 }

  /** The radius factor for a remaining lifetime: 0.8 + 0.2 · remaining / initial. */
  function LifeScale(remaining: real, initial: real): real
    requires initial != 0.0
  {
    MinScale + (remaining / initial) * 0.2
  }

  /** update */
  function Step(s: ParticleState, dt: real): ParticleState
    requires WellFormed(s)
  {
    var remaining := s.remainingLifetime - dt;
    var position := Add(s.position, Scale(s.velocity, dt));
    var velocity := Scale(s.velocity.(y := s.velocity.y + Gravity * dt), Drag);
    s.(position := position, velocity := velocity, remainingLifetime := remaining,
       radius := s.size * LifeScale(remaining, s.initialLifetime))
  }

  /** `n` updates of the same length. */
  function Steps(s: ParticleState, dt: real, n: nat): (r: ParticleState)
    requires WellFormed(s)
    ensures WellFormed(r) && r.initialLifetime == s.initialLifetime && r.size == s.size
  {
    if n == 0 then s else Step(Steps(s, dt, n - 1), dt)
  }

  // ---------------------------------------------------------------------------
  // Properties
  // ---------------------------------------------------------------------------

  /** A new particle has both lifetimes equal to the given one, is drawn at full size,
      and is alive exactly when the lifetime is positive. */
  lemma NewParticle(position: Vec2, velocity: Vec2, lifetime: real, size: real)
    ensures var s := New(position, velocity, lifetime, size);
      && s.remainingLifetime == lifetime && s.initialLifetime == lifetime
      && s.radius == size && s.position == position && s.velocity == velocity
      && (Alive(s) <==> lifetime > 0.0)
  {
  }

  /** One update: the lifetime drops by exactly dt; the particle moves by its old
      velocity; the new velocity is 0.98 · (vx, vy + 50 dt); lifetime and size are kept. */
  lemma StepSemantics(s: ParticleState, dt: real)
    requires WellFormed(s)
    ensures Step(s, dt).remainingLifetime == s.remainingLifetime - dt
    ensures Step(s, dt).position == Vec2(s.position.x + s.velocity.x * dt, s.position.y + s.velocity.y * dt)
    ensures Step(s, dt).velocity == Vec2(0.98 * s.velocity.x, 0.98 * (s.velocity.y + 50.0 * dt))
    ensures Step(s, dt).initialLifetime == s.initialLifetime && Step(s, dt).size == s.size
  {
  }

  /** While the remaining lifetime lies between 0 and the initial one, the radius factor
      lies between 0.8 and 1; it is 1 for a full lifetime and 0.8 for an exhausted one. */
  lemma LifeScaleRange(remaining: real, initial: real)
    requires 0.0 <= remaining <= initial && initial != 0.0
    ensures MinScale <= LifeScale(remaining, initial) <= 1.0
    ensures remaining == initial ==> LifeScale(remaining, initial) == 1.0
    ensures remaining == 0.0 ==> LifeScale(remaining, initial) == MinScale
  {
    var q := remaining / initial;
    assert q * initial == remaining;
    assert 0.0 < initial;
    if q < 0.0 {
      assert q * initial < 0.0;
    }
    if q > 1.0 {
      assert (q - 1.0) * initial > 0.0;
    }
  }

  /** The particle shrinks as it ages: less remaining lifetime, smaller factor. */
  lemma LifeScaleMonotone(r1: real, r2: real, initial: real)
    requires r1 <= r2 && initial > 0.0
    ensures LifeScale(r1, initial) <= LifeScale(r2, initial)
  {
    var q1, q2 := r1 / initial, r2 / initial;
    assert q1 * initial == r1 && q2 * initial == r2;
    assert (q2 - q1) * initial >= 0.0;
  }

  /** After an update that leaves the lifetime within [0, initial], the circle's radius
      lies between 0.8 and 1 times the particle's size. */
  lemma StepRadiusRange(s: ParticleState, dt: real)
    requires WellFormed(s) && s.size >= 0.0
    requires 0.0 <= s.remainingLifetime - dt <= s.initialLifetime
    ensures var r := Step(s, dt); MinScale * s.size <= r.radius <= s.size
  {
    var k := LifeScale(s.remainingLifetime - dt, s.initialLifetime);
    LifeScaleRange(s.remainingLifetime - dt, s.initialLifetime);
    MulNonNegative(k - MinScale, s.size);
    MulNonNegative(1.0 - k, s.size);
  }

  lemma MulNonNegative(a: real, b: real)
    requires 0.0 <= a && 0.0 <= b
    ensures 0.0 <= a * b
  {
  }

  /** After n updates of length dt the remaining lifetime has dropped by n · dt. */
  lemma {:induction false} StepsLifetime(s: ParticleState, dt: real, n: nat)
    requires WellFormed(s)
    ensures Steps(s, dt, n).remainingLifetime == s.remainingLifetime - (n as real) * dt
  {
    if n > 0 {
      StepsLifetime(s, dt, n - 1);
      var m := (n - 1) as real;
      assert (m + 1.0) * dt == m * dt + dt;
    }
  }

  /** With a positive frame time every particle dies: after ⌊remaining / dt⌋ + 1
      updates it is no longer alive. */
  lemma DiesEventually(s: ParticleState, dt: real)
    requires WellFormed(s) && dt > 0.0
    ensures var n := if s.remainingLifetime <= 0.0 then 0 else (s.remainingLifetime / dt).Floor + 1;
      n >= 0 && !Alive(Steps(s, dt, n))
  {
    if s.remainingLifetime > 0.0 {
      var n := (s.remainingLifetime / dt).Floor + 1;
      FloorStepsPast(s.remainingLifetime, dt);
      DeadAfter(s, dt, n);
    }
  }

  /** Once n · dt covers the remaining lifetime, n updates leave the particle dead. */
  lemma DeadAfter(s: ParticleState, dt: real, n: nat)
    requires WellFormed(s) && s.remainingLifetime - (n as real) * dt <= 0.0
    ensures !Alive(Steps(s, dt, n))
  {
    StepsLifetime(s, dt, n);
  }

  /** Counting whole steps of length dt past a positive amount r: after
      floor(r / dt) + 1 of them nothing is left. */
  lemma FloorStepsPast(r: real, dt: real)
    requires 0.0 < r && 0.0 < dt
    ensures var n := (r / dt).Floor + 1; 1 <= n && r - (n as real) * dt <= 0.0
  {
    var q := r / dt;
    assert q * dt == r;
    assert 0.0 < q;
    var n := q.Floor + 1;
    var m := n as real;
    assert q < m;
    MulPositive(m - q, dt);
    assert (m - q) * dt == m * dt - q * dt;
  }

  lemma MulPositive(a: real, b: real)
    requires 0.0 < a && 0.0 < b
    ensures 0.0 < a * b
  {
  }

  // ---------------------------------------------------------------------------
  // The class
  // ---------------------------------------------------------------------------

  class Particle {
    var position: Vec2
    var velocity: Vec2
    var remainingLifetime: real
    const initialLifetime: real
    const size: real
    /** The circle shape's radius (its origin is kept at the same value, its position
        at `position`). */
    var radius: real

    function State(): ParticleState
      reads this
    {
      ParticleState(position, velocity, remainingLifetime, initialLifetime, size, radius)
    }

    constructor(position: Vec2, velocity: Vec2, lifetime: real, size: real)
      requires lifetime != 0.0
      ensures State() == New(position, velocity, lifetime, size)
      ensures WellFormed(State())
    {
      this.position := position;
      this.velocity := velocity;
      remainingLifetime := lifetime;
      initialLifetime := lifetime;
      this.size := size;
      radius := size;
    }

    method Update(deltaTime: real)
      requires initialLifetime != 0.0
      modifies this
      ensures State() == Step(old(State()), deltaTime)
    {
      remainingLifetime := remainingLifetime - deltaTime;
      position := Add(position, Scale(velocity, deltaTime));
      velocity := velocity.(y := velocity.y + Gravity * deltaTime);
      velocity := Scale(velocity, Drag);
      var scale := MinScale + (remainingLifetime / initialLifetime) * 0.2;
      radius := size * scale;
    }

    /** draw: whether the particle is drawn at all. */
    method Draw() returns (drawn: bool)
      ensures drawn <==> Alive(State())
    {
      drawn := remainingLifetime > 0.0;
    }
  }
}
