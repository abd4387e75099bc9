/** The particle system of src/systems/ParticleSystem.cpp: it owns a list of
    particles, appends bursts of new ones, updates them all once per frame and then
    drops the dead ones, keeping the order of the rest. The random draws are passed
    in: each spawned particle consumes one `Draw`. */
module ParticleSystems {
  import opened Geometry
  import opened Particles

  /** What one loop iteration of a create* function draws from the generator: speed,
      lifetime, size, the cosine and sine of the angle inside the cone, and (for
      trails) the offset from the emitting position. */
  datatype Draw = Draw(speed: real, lifetime: real, size: real, cos: real, sin: real, offset: Vec2)

  predicate IsRotation(d: Draw) { d.cos * d.cos + d.sin * d.sin == 1.0 }

  /** The ranges of createCollisionParticles: speed 50–150, lifetime 0.3–0.7, size 1.5–3.5. */
  predicate CollisionDraw(d: Draw) {
    50.0 <= d.speed <= 150.0 && 0.3 <= d.lifetime <= 0.7 && 1.5 <= d.size <= 3.5
    && IsRotation(d) && d.offset == Zero
  }

  /** The ranges of createMovementParticles: speed 20–80, lifetime 0.4–0.8, size 2–4. */
  predicate MovementDraw(d: Draw) {
    20.0 <= d.speed <= 80.0 && 0.4 <= d.lifetime <= 0.8 && 2.0 <= d.size <= 4.0
    && IsRotation(d) && d.offset == Zero
  }

  /** The ranges of createTrailParticles: speed 10–30, lifetime 0.2–0.5, size 1.5–3,
      offset −5–5 on each axis. */
  predicate TrailDraw(d: Draw) {
    10.0 <= d.speed <= 30.0 && 0.2 <= d.lifetime <= 0.5 && 1.5 <= d.size <= 3.0
    && IsRotation(d) && -5.0 <= d.offset.x <= 5.0 && -5.0 <= d.offset.y <= 5.0
  }

  /** The number of particles of the collision burst: 8 to 12. */
  predicate CollisionCount(n: int) { 8 <= n <= 12 }

  /** The number of particles of the movement burst: 15 to 20. */
  predicate MovementCount(n: int) { 15 <= n <= 20 }

  /** The trail's particle count: 2 + (int)(speed / 50), capped at 5. */
  function TrailCount(speed: real): int {
    var n := 2 + TruncToInt(speed / 50.0);
    if n < 5 then n else 5
  }

  /** How many times `for (int i = 0; i < n; ++i)` runs. */
  function Iterations(n: int): nat { if n < 0 then 0 else n }

  /** randomDirectionInCone, given the cosine and sine of the drawn angle: the
      normalised base direction rotated by that angle. */
  function ConeDirection(base: Vec2, cos: real, sin: real, sqrt: real -> real): Vec2 {
    Rotate(ConeBase(base, sqrt), cos, sin)
  }

  /** The rotation matrix of an angle with the given cosine and sine, applied to `u`. */
  function Rotate(u: Vec2, cos: real, sin: real): Vec2 {
    Vec2(u.x * cos - u.y * sin, u.x * sin + u.y * cos)
  }

  /** The particle one draw creates. */
  function Spawned(position: Vec2, base: Vec2, d: Draw, sqrt: real -> real): ParticleState {
    New(Add(position, d.offset), Scale(ConeDirection(base, d.cos, d.sin, sqrt), d.speed), d.lifetime, d.size)
  }

  /** The particles a burst appends, in draw order. */
  function SpawnAll(position: Vec2, base: Vec2, ds: seq<Draw>, sqrt: real -> real): (r: seq<ParticleState>)
    ensures |r| == |ds|
    ensures forall i :: 0 <= i < |ds| ==> r[i] == Spawned(position, base, ds[i], sqrt)
  {
    seq(|ds|, i requires 0 <= i < |ds| => Spawned(position, base, ds[i], sqrt))
  }

  /** Every particle updated once. */
  function StepAll(xs: seq<ParticleState>, dt: real): (r: seq<ParticleState>)
    requires forall i :: 0 <= i < |xs| ==> WellFormed(xs[i])
    ensures |r| == |xs|
    ensures forall i :: 0 <= i < |xs| ==> r[i] == Step(xs[i], dt)
  {
    seq(|xs|, i requires 0 <= i < |xs| => Step(xs[i], dt))
  }

  /** `erase(remove_if(..., !isAlive), end)`: the living particles, in their order. */
  function Survivors(xs: seq<ParticleState>): seq<ParticleState>
    decreases |xs|
  {
    if |xs| == 0 then []
    else
      var last := xs[|xs| - 1];
      Survivors(xs[..|xs| - 1]) + (if Alive(last) then [last] else [])
  }

  // ---------------------------------------------------------------------------
  // Properties
  // ---------------------------------------------------------------------------

  /** The filter distributes over concatenation: survivors keep their relative order. */
  lemma {:induction false} SurvivorsAppend(a: seq<ParticleState>, b: seq<ParticleState>)
    ensures Survivors(a + b) == Survivors(a) + Survivors(b)
    decreases |b|
  {
    if |b| == 0 {
      assert a + b == a;
    } else {
      assert (a + b)[..|a + b| - 1] == a + b[..|b| - 1];
      SurvivorsAppend(a, b[..|b| - 1]);
    }
  }

  /** After the removal every remaining particle is alive, every living particle
      remains, and nothing is added. */
  lemma {:induction false} SurvivorsExactlyAlive(xs: seq<ParticleState>)
    ensures |Survivors(xs)| <= |xs|
    ensures forall x :: x in Survivors(xs) <==> x in xs && Alive(x)
    decreases |xs|
  {
    if |xs| > 0 {
      var init := xs[..|xs| - 1];
      SurvivorsExactlyAlive(init);
      assert xs == init + [xs[|xs| - 1]];
    }
  }

  /** Removing dead particles twice removes nothing more. */
  lemma {:induction false} SurvivorsIdempotent(xs: seq<ParticleState>)
    ensures Survivors(Survivors(xs)) == Survivors(xs)
    decreases |xs|
  {
    if |xs| > 0 {
      var init := xs[..|xs| - 1];
      var last := xs[|xs| - 1];
      var tail := if Alive(last) then [last] else [];
      assert Survivors(xs) == Survivors(init) + tail;
      SurvivorsIdempotent(init);
      SurvivorsAppend(Survivors(init), tail);
      SurvivorsOfTail(last);
    }
  }

  /** A single particle survives exactly when it is alive. */
  lemma SurvivorsOfTail(x: ParticleState)
    ensures var tail := if Alive(x) then [x] else []; Survivors(tail) == tail
  {
    assert [x][..0] == [];
  }

  /** A list of living particles is kept as it is. */
  lemma {:induction false} SurvivorsOfAlive(xs: seq<ParticleState>)
    requires forall i :: 0 <= i < |xs| ==> Alive(xs[i])
    ensures Survivors(xs) == xs
    decreases |xs|
  {
    if |xs| > 0 {
      var init := xs[..|xs| - 1];
      var last := xs[|xs| - 1];
      forall i | 0 <= i < |init| ensures Alive(init[i]) {
        assert init[i] == xs[i];
      }
      SurvivorsOfAlive(init);
      assert Alive(last);
      assert Survivors(xs) == init + [last];
      assert xs == init + [last];
    }
  }

  /** For a non-negative speed the trail has 2 to 5 particles: 2 below speed 50, 5 from
      speed 150 on. From speed −100 down the count is at most zero, so no particle is
      made; from −150 down it is negative. */
  lemma TrailCountRange(speed: real)
    ensures 0.0 <= speed ==> 2 <= TrailCount(speed) <= 5
    ensures 0.0 <= speed < 50.0 ==> TrailCount(speed) == 2
    ensures 150.0 <= speed ==> TrailCount(speed) == 5
    ensures speed <= -100.0 ==> Iterations(TrailCount(speed)) == 0
    ensures speed <= -150.0 ==> TrailCount(speed) < 0
  {
  }

  /** Rotating by an angle given by its cosine and sine keeps the length. */
  lemma RotationKeepsLength(u: Vec2, c: real, s: real)
    requires c * c + s * s == 1.0
    ensures LenSq(Rotate(u, c, s)) == LenSq(u)
  {
    var a, b := u.x * c - u.y * s, u.x * s + u.y * c;
    assert a * a == u.x * u.x * (c * c) - 2.0 * (u.x * u.y) * (c * s) + u.y * u.y * (s * s);
    assert b * b == u.x * u.x * (s * s) + 2.0 * (u.x * u.y) * (c * s) + u.y * u.y * (c * c);
    assert a * a + b * b == u.x * u.x * (c * c + s * s) + u.y * u.y * (c * c + s * s);
  }

  /** A zero base direction falls back to straight up; any direction drawn in the
      cone has unit length. */
  lemma ConeDirectionIsUnit(base: Vec2, c: real, s: real, sqrt: real -> real)
    requires IsSqrt(sqrt) && c * c + s * s == 1.0
    ensures base == Zero ==> ConeDirection(base, c, s, sqrt) == Vec2(s, -c)
    ensures LenSq(ConeDirection(base, c, s, sqrt)) == 1.0
  {
    var u := ConeBase(base, sqrt);
    ConeBaseIsUnit(base, sqrt);
    RotationKeepsLength(u, c, s);
  }

  /** The normalised base direction of the cone: divided by sqrt(x² + y²), or (0, −1)
      when that is not positive. */
  function ConeBase(base: Vec2, sqrt: real -> real): Vec2 {
    Normal(base, sqrt(LenSq(base)))
  }

  lemma ConeBaseIsUnit(base: Vec2, sqrt: real -> real)
    requires IsSqrt(sqrt)
    ensures LenSq(ConeBase(base, sqrt)) == 1.0
  {
    NormalOfSqrtIsUnit(base, sqrt);
  }

  /** A spawned particle moves at the drawn speed, starts at the emitting position plus
      the drawn offset with both lifetimes set to the drawn lifetime, and is alive when
      that lifetime is positive. */
  lemma SpawnedParticle(position: Vec2, base: Vec2, d: Draw, sqrt: real -> real)
    requires IsSqrt(sqrt) && IsRotation(d)
    ensures var p := Spawned(position, base, d, sqrt);
      && LenSq(p.velocity) == d.speed * d.speed
      && p.position == Add(position, d.offset)
      && p.remainingLifetime == d.lifetime == p.initialLifetime
      && p.radius == d.size
      && (d.lifetime > 0.0 ==> Alive(p) && WellFormed(p))
  {
    var u := ConeDirection(base, d.cos, d.sin, sqrt);
    ConeDirectionIsUnit(base, d.cos, d.sin, sqrt);
    LenSqScale(u, d.speed);
  }

  /** A particle drawn with a speed between `lo` and `hi` moves at such a speed. */
  lemma SpawnedSpeed(position: Vec2, base: Vec2, d: Draw, sqrt: real -> real, lo: real, hi: real)
    requires IsSqrt(sqrt) && IsRotation(d) && 0.0 <= lo <= d.speed <= hi
    ensures var v := Spawned(position, base, d, sqrt).velocity; lo * lo <= LenSq(v) <= hi * hi
  {
    SpawnedParticle(position, base, d, sqrt);
    SquareBetween(lo, d.speed, hi);
  }

  /** Particles of a collision burst start at the collision point, alive, at a speed
      between 50 and 150 and with a radius between 1.5 and 3.5. */
  lemma CollisionBurst(position: Vec2, normal: Vec2, ds: seq<Draw>, sqrt: real -> real)
    requires IsSqrt(sqrt) && forall i :: 0 <= i < |ds| ==> CollisionDraw(ds[i])
    ensures forall i :: 0 <= i < |ds| ==>
      var p := SpawnAll(position, normal, ds, sqrt)[i];
      && p.position == position && Alive(p) && WellFormed(p)
      && 50.0 * 50.0 <= LenSq(p.velocity) <= 150.0 * 150.0
      && 1.5 <= p.radius <= 3.5
  {
    forall i | 0 <= i < |ds|
      ensures
        var p := SpawnAll(position, normal, ds, sqrt)[i];
        && p.position == position && Alive(p) && WellFormed(p)
        && 50.0 * 50.0 <= LenSq(p.velocity) <= 150.0 * 150.0
        && 1.5 <= p.radius <= 3.5
    {
      SpawnedParticle(position, normal, ds[i], sqrt);
      SpawnedSpeed(position, normal, ds[i], sqrt, 50.0, 150.0);
    }
  }

  /** Particles of a movement burst start at the ball, alive, at a speed between 20 and
      80 and with a radius between 2 and 4. */
  lemma MovementBurst(position: Vec2, direction: Vec2, ds: seq<Draw>, sqrt: real -> real)
    requires IsSqrt(sqrt) && forall i :: 0 <= i < |ds| ==> MovementDraw(ds[i])
    ensures forall i :: 0 <= i < |ds| ==>
      var p := SpawnAll(position, Sub(Zero, direction), ds, sqrt)[i];
      && p.position == position && Alive(p) && WellFormed(p)
      && 20.0 * 20.0 <= LenSq(p.velocity) <= 80.0 * 80.0
      && 2.0 <= p.radius <= 4.0
  {
    forall i | 0 <= i < |ds|
      ensures
        var p := SpawnAll(position, Sub(Zero, direction), ds, sqrt)[i];
        && p.position == position && Alive(p) && WellFormed(p)
        && 20.0 * 20.0 <= LenSq(p.velocity) <= 80.0 * 80.0
        && 2.0 <= p.radius <= 4.0
    {
      SpawnedParticle(position, Sub(Zero, direction), ds[i], sqrt);
      SpawnedSpeed(position, Sub(Zero, direction), ds[i], sqrt, 20.0, 80.0);
    }
  }

  /** Particles of a trail start within 5 units of the emitting position on each axis,
      alive, at a speed between 10 and 30. */
  lemma TrailBurst(position: Vec2, direction: Vec2, ds: seq<Draw>, sqrt: real -> real)
    requires IsSqrt(sqrt) && forall i :: 0 <= i < |ds| ==> TrailDraw(ds[i])
    ensures forall i :: 0 <= i < |ds| ==>
      var p := SpawnAll(position, Sub(Zero, direction), ds, sqrt)[i];
      && Abs(p.position.x - position.x) <= 5.0 && Abs(p.position.y - position.y) <= 5.0
      && Alive(p) && WellFormed(p)
      && 10.0 * 10.0 <= LenSq(p.velocity) <= 30.0 * 30.0
  {
    forall i | 0 <= i < |ds|
      ensures
        var p := SpawnAll(position, Sub(Zero, direction), ds, sqrt)[i];
        && Abs(p.position.x - position.x) <= 5.0 && Abs(p.position.y - position.y) <= 5.0
        && Alive(p) && WellFormed(p)
        && 10.0 * 10.0 <= LenSq(p.velocity) <= 30.0 * 30.0
    {
      SpawnedParticle(position, Sub(Zero, direction), ds[i], sqrt);
      SpawnedSpeed(position, Sub(Zero, direction), ds[i], sqrt, 10.0, 30.0);
    }
  }

  lemma SquareBetween(lo: real, x: real, hi: real)
    requires 0.0 <= lo <= x <= hi
    ensures lo * lo <= x * x <= hi * hi
  {
    assert lo * lo <= lo * x <= x * x;
    assert x * x <= x * hi <= hi * hi;
  }

  lemma SpawnAllPrefix(position: Vec2, base: Vec2, ds: seq<Draw>, i: nat, sqrt: real -> real)
    requires i < |ds|
    ensures SpawnAll(position, base, ds[..i + 1], sqrt) ==
            SpawnAll(position, base, ds[..i], sqrt) + [Spawned(position, base, ds[i], sqrt)]
  {
  }

  /** Two bursts drawn one after the other append the same particles as one burst
      of all the draws. */
  lemma SpawnAllAppend(position: Vec2, base: Vec2, ds: seq<Draw>, es: seq<Draw>, sqrt: real -> real)
    ensures SpawnAll(position, base, ds + es, sqrt) ==
            SpawnAll(position, base, ds, sqrt) + SpawnAll(position, base, es, sqrt)
  {
  }

  /** Updating a list is updating each part of it: no particle's update depends on
      another particle. */
  lemma StepAllAppend(xs: seq<ParticleState>, ys: seq<ParticleState>, dt: real)
    requires forall i :: 0 <= i < |xs| ==> WellFormed(xs[i])
    requires forall i :: 0 <= i < |ys| ==> WellFormed(ys[i])
    ensures forall i :: 0 <= i < |xs + ys| ==> WellFormed((xs + ys)[i])
    ensures StepAll(xs + ys, dt) == StepAll(xs, dt) + StepAll(ys, dt)
  {
  }

  /** An update keeps every particle well formed, lowers every remaining lifetime by
      exactly dt and keeps every initial lifetime. */
  lemma StepAllLifetimes(xs: seq<ParticleState>, dt: real)
    requires forall i :: 0 <= i < |xs| ==> WellFormed(xs[i])
    ensures forall i :: 0 <= i < |xs| ==> WellFormed(StepAll(xs, dt)[i])
    ensures forall i :: 0 <= i < |xs| ==>
      StepAll(xs, dt)[i].remainingLifetime == xs[i].remainingLifetime - dt &&
      StepAll(xs, dt)[i].initialLifetime == xs[i].initialLifetime
  {
  }

  // ---------------------------------------------------------------------------
  // The class
  // ---------------------------------------------------------------------------

  /** The fields of a list of particle objects. */
  function StatesOf(ps: seq<Particle>): (r: seq<ParticleState>)
    reads set p | p in ps
    ensures |r| == |ps|
    ensures forall i :: 0 <= i < |ps| ==> r[i] == ps[i].State()
  {
    seq(|ps|, i requires 0 <= i < |ps| reads if 0 <= i < |ps| then {ps[i]} else {} => ps[i].State())
  }

  /** Appending one particle object appends its fields. */
  lemma StatesOfSnoc(ps: seq<Particle>, p: Particle)
    ensures StatesOf(ps + [p]) == StatesOf(ps) + [p.State()]
  {
  }

  /** One more element of the scanned prefix survives exactly when it is alive. */
  lemma SurvivorsPrefix(xs: seq<ParticleState>, i: nat)
    requires i < |xs|
    ensures Survivors(xs[..i + 1]) == Survivors(xs[..i]) + if Alive(xs[i]) then [xs[i]] else []
  {
    assert xs[..i + 1][..i] == xs[..i];
  }

  /** A subsequence, picked at increasing indices, of distinct particles with nonzero
      initial lifetimes is again such a list. */
  lemma KeptIsValid(ps: seq<Particle>, kept: seq<Particle>, from: seq<nat>)
    requires forall i, j :: 0 <= i < j < |ps| ==> ps[i] != ps[j]
    requires forall i :: 0 <= i < |ps| ==> ps[i].initialLifetime != 0.0
    requires |from| == |kept|
    requires forall k :: 0 <= k < |from| ==> from[k] < |ps| && kept[k] == ps[from[k]]
    requires forall k, l :: 0 <= k < l < |from| ==> from[k] < from[l]
    ensures forall i, j :: 0 <= i < j < |kept| ==> kept[i] != kept[j]
    ensures forall i :: 0 <= i < |kept| ==> kept[i].initialLifetime != 0.0
    ensures forall p :: p in kept ==> p in ps
  {
  }

  /** remove_if with !isAlive: the particles that are alive, in order. They are picked
      from `ps`, so distinct objects stay distinct and every kept one was there. */
  method Living(ps: seq<Particle>) returns (kept: seq<Particle>)
    requires forall i, j :: 0 <= i < j < |ps| ==> ps[i] != ps[j]
    requires forall i :: 0 <= i < |ps| ==> ps[i].initialLifetime != 0.0
    ensures forall i, j :: 0 <= i < j < |kept| ==> kept[i] != kept[j]
    ensures forall i :: 0 <= i < |kept| ==> kept[i].initialLifetime != 0.0
    ensures forall p :: p in kept ==> p in ps
    ensures StatesOf(kept) == Survivors(StatesOf(ps))
  {
    ghost var before := StatesOf(ps);
    kept := [];
    ghost var from: seq<nat> := [];
    var i := 0;
    while i < |ps|
      invariant 0 <= i <= |ps| == |before|
      invariant |from| == |kept|
      invariant forall k :: 0 <= k < |from| ==> from[k] < i && kept[k] == ps[from[k]]
      invariant forall k, l :: 0 <= k < l < |from| ==> from[k] < from[l]
      invariant StatesOf(kept) == Survivors(before[..i])
    {
      SurvivorsPrefix(before, i);
      assert before[i] == ps[i].State();
      if ps[i].remainingLifetime > 0.0 {
        StatesOfSnoc(kept, ps[i]);
        kept := kept + [ps[i]];
        from := from + [i];
      }
      i := i + 1;
    }
    assert before[..i] == before;
    KeptIsValid(ps, kept, from);
  }

  class ParticleSystem {
    var particles: seq<Particle>

    /** Each particle is owned by one unique_ptr, and each can compute its scale. */
    ghost predicate Valid()
      reads this
    {
      && (forall i, j :: 0 <= i < j < |particles| ==> particles[i] != particles[j])
      && (forall i :: 0 <= i < |particles| ==> particles[i].initialLifetime != 0.0)
    }

    constructor()
      ensures Valid() && particles == []
    {
      particles := [];
    }

    /** update: every particle is updated once, then the dead ones are removed; the
        survivors keep their order. */
    method Update(deltaTime: real)
      requires Valid()
      modifies this, set p | p in particles
      ensures Valid()
      ensures forall p :: p in particles ==> p in old(particles)
      ensures StatesOf(particles) == Survivors(StepAll(old(StatesOf(particles)), deltaTime))
    {
      UpdateEach(deltaTime);
      RemoveDead();
    }

    /** The first loop of update: each particle in turn. */
    method UpdateEach(deltaTime: real)
      requires Valid()
      modifies set p | p in particles
      ensures StatesOf(particles) == StepAll(old(StatesOf(particles)), deltaTime)
    {
      var i := 0;
      while i < |particles|
        invariant 0 <= i <= |particles|
        invariant forall j :: 0 <= j < i ==> particles[j].State() == Step(old(particles[j].State()), deltaTime)
        invariant forall j :: i <= j < |particles| ==> particles[j].State() == old(particles[j].State())
      {
        particles[i].Update(deltaTime);
        i := i + 1;
      }
    }

    /** The erase/remove_if of update: the particles that are alive, in order. */
    method RemoveDead()
      requires Valid()
      modifies this
      ensures Valid()
      ensures forall p :: p in particles ==> p in old(particles)
      ensures StatesOf(particles) == Survivors(old(StatesOf(particles)))
    {
      particles := Living(particles);
    }

    /** The shared loop of the create* functions: one new particle per draw, appended
        in draw order. */
    method Spawn(position: Vec2, base: Vec2, draws: seq<Draw>, sqrt: real -> real)
      requires Valid() && forall i :: 0 <= i < |draws| ==> draws[i].lifetime != 0.0
      modifies this
      ensures Valid()
      ensures |particles| == old(|particles|) + |draws|
      ensures particles[..old(|particles|)] == old(particles)
      ensures forall k :: old(|particles|) <= k < |particles| ==> fresh(particles[k])
      ensures StatesOf(particles) == old(StatesOf(particles)) + SpawnAll(position, base, draws, sqrt)
    {
      var i := 0;
      while i < |draws|
        invariant 0 <= i <= |draws| && Valid()
        invariant |particles| == old(|particles|) + i
        invariant particles[..old(|particles|)] == old(particles)
        invariant forall k :: old(|particles|) <= k < |particles| ==> fresh(particles[k])
        invariant StatesOf(particles) == old(StatesOf(particles)) + SpawnAll(position, base, draws[..i], sqrt)
      {
        var d := draws[i];
        var direction := ConeDirection(base, d.cos, d.sin, sqrt);
        var velocity := Scale(direction, d.speed);
        var particle := new Particle(Add(position, d.offset), velocity, d.lifetime, d.size);
        SpawnAllPrefix(position, base, draws, i, sqrt);
        particles := particles + [particle];
        i := i + 1;
      }
      assert draws[..i] == draws;
    }

    /** createCollisionParticles: a burst of 8 to 12 white particles thrown along the
        collision normal, within a 60° cone. */
    method CreateCollisionParticles(position: Vec2, normal: Vec2, draws: seq<Draw>, sqrt: real -> real)
      requires Valid() && CollisionCount(|draws|)
      requires forall i :: 0 <= i < |draws| ==> CollisionDraw(draws[i])
      modifies this
      ensures Valid()
      ensures |particles| == old(|particles|) + |draws|
      ensures particles[..old(|particles|)] == old(particles)
      ensures StatesOf(particles) == old(StatesOf(particles)) + SpawnAll(position, normal, draws, sqrt)
    {
      Spawn(position, normal, draws, sqrt);
    }

    /** createMovementParticles: a burst of 15 to 20 green particles thrown against the
        direction of movement, within a 90° cone. */
    method CreateMovementParticles(position: Vec2, direction: Vec2, draws: seq<Draw>, sqrt: real -> real)
      requires Valid() && MovementCount(|draws|)
      requires forall i :: 0 <= i < |draws| ==> MovementDraw(draws[i])
      modifies this
      ensures Valid()
      ensures |particles| == old(|particles|) + |draws|
      ensures particles[..old(|particles|)] == old(particles)
      ensures StatesOf(particles) == old(StatesOf(particles)) + SpawnAll(position, Sub(Zero, direction), draws, sqrt)
    {
      Spawn(position, Sub(Zero, direction), draws, sqrt);
    }

    /** createTrailParticles: min(2 + (int)(speed / 50), 5) particles around the
        position, thrown against the direction of movement within a 30° cone. */
    method CreateTrailParticles(position: Vec2, direction: Vec2, speed: real, draws: seq<Draw>, sqrt: real -> real)
      requires Valid() && |draws| == Iterations(TrailCount(speed))
      requires forall i :: 0 <= i < |draws| ==> TrailDraw(draws[i])
      modifies this
      ensures Valid()
      ensures |particles| == old(|particles|) + |draws|
      ensures particles[..old(|particles|)] == old(particles)
      ensures StatesOf(particles) == old(StatesOf(particles)) + SpawnAll(position, Sub(Zero, direction), draws, sqrt)
    {
      Spawn(position, Sub(Zero, direction), draws, sqrt);
    }

    /** draw: the particles that are drawn, in drawing order. */
    method Draw() returns (drawn: seq<ParticleState>)
      ensures drawn == Survivors(StatesOf(particles))
    {
      drawn := [];
      var i := 0;
      while i < |particles|
        invariant 0 <= i <= |particles|
        invariant drawn == Survivors(StatesOf(particles)[..i])
      {
        assert StatesOf(particles)[..i + 1][..i] == StatesOf(particles)[..i];
        var visible := particles[i].Draw();
        if visible {
          drawn := drawn + [particles[i].State()];
        }
        i := i + 1;
      }
      assert StatesOf(particles)[..i] == StatesOf(particles);
    }
  }
}
