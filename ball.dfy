/** The ball of src/entities/Ball.cpp: a circle that is dragged with the mouse, launched
    slingshot-style on release, slowed by friction and bounced off obstacles.

    BallState and the functions over it are the specification; the class Ball holds the
    same fields and its methods update them in place, each proved to agree with the
    function of the same name. */
module Balls {
  import opened Geometry
  import Obstacles

  /** Per-update velocity factor (the `friction` field). */
  const Friction: real := 0.99
  /** Below this speed on both axes the ball is stopped. */
  const StopSpeed: real := 1.0
  /** Release velocity per unit of drag distance. */
  const LaunchFactor: real := 2.5
  /** Share of the reflected normal velocity kept on a bounce. */
  const SpeedLoss: real := 0.8
  /** Where a new ball is placed. */
  const StartPosition: Vec2 := Vec2(300.0, 300.0)
  /** The default radius of Ball's constructor. */
  const DefaultRadius: real := 20.0

  /** The fields of a Ball; `line0`/`line1` are the two vertices of the drag line and
      `radius` is the radius of the ball's circle shape, whose position always equals
      `position`. */
  datatype BallState = BallState(
    position: Vec2,
    velocity: Vec2,
    startDragPos: Vec2,
    currentDragPos: Vec2,
    line0: Vec2,
    line1: Vec2,
    isDragging: bool,
    friction: real,
    radius: real)

  /** A mouse event as delivered in world coordinates. */
  datatype MouseEvent = Press(pos: Vec2) | Release(pos: Vec2) | Move(pos: Vec2)

  /** What every operation keeps: the drag line starts at the ball, a dragged ball has
      no velocity, and the friction is the constructor's. */
  predicate Inv(s: BallState) {
    && s.line0 == s.position
    && (s.isDragging ==> s.velocity == Zero)
    && s.friction == Friction
  }

  // ---------------------------------------------------------------------------
  // Specification functions
  // ---------------------------------------------------------------------------

  /** The constructor. The drag positions are default-constructed vectors. */
  function Initial(radius: real): BallState {
    BallState(StartPosition, Zero, Zero, Zero, StartPosition, StartPosition, false, Friction, radius)
  }

  /** getBounds: the ideal bounding square of the circle, whose origin is its centre.
      SFML's 30-point polygon is r·cos 6° wide on each side in x, a little less. */
  function Bounds(s: BallState): Rect {
    Rect(Sub(s.position, Vec2(s.radius, s.radius)), Vec2(2.0 * s.radius, 2.0 * s.radius))
  }

  /** update: a free ball loses speed to friction, stops when slow on both axes and then
      moves by its new velocity; a dragged ball stays where it is. */
  function Step(s: BallState, dt: real): BallState {
    if s.isDragging then s.(line0 := s.position)
    else
      var slowed := Scale(s.velocity, s.friction);
      var v := if Abs(slowed.x) < StopSpeed && Abs(slowed.y) < StopSpeed then Zero else slowed;
      var p := Add(s.position, Scale(v, dt));
      s.(velocity := v, position := p, line0 := p)
  }

  /** handleMousePress: a press inside the bounds starts a drag from the ball's position. */
  function PressBall(s: BallState, m: Vec2): (BallState, bool) {
    if Contains(Bounds(s), m) then
      (s.(isDragging := true, startDragPos := s.position, currentDragPos := m,
          velocity := Zero, line0 := s.position, line1 := m), true)
    else (s, false)
  }

  /** handleMouseRelease: ending a drag launches the ball away from the cursor. */
  function ReleaseBall(s: BallState, m: Vec2): (BallState, bool) {
    if s.isDragging then
      (s.(isDragging := false, velocity := Scale(Sub(s.position, m), LaunchFactor)), true)
    else (s, false)
  }

  /** handleMouseMove: while dragging, the cursor and the end of the drag line follow
      the mouse. */
  function MoveBall(s: BallState, m: Vec2): (BallState, bool) {
    if s.isDragging then (s.(currentDragPos := m, line1 := m), true)
    else (s, false)
  }

  function Handle(s: BallState, ev: MouseEvent): (BallState, bool) {
    match ev
    case Press(m) => PressBall(s, m)
    case Release(m) => ReleaseBall(s, m)
    case Move(m) => MoveBall(s, m)
  }

  /** The point of box `b` nearest to `c`: `c` clamped into the box on each axis. */
  function ClosestPoint(b: Rect, c: Vec2): Vec2 {
    Vec2(Max(b.position.x, Min(c.x, b.position.x + b.size.x)),
         Max(b.position.y, Min(c.y, b.position.y + b.size.y)))
  }

  /** `v - 2 (v·n) n · speedLoss` */
  function Reflect(v: Vec2, n: Vec2): Vec2 {
    Sub(v, Scale(Scale(n, 2.0 * Dot(v, n)), SpeedLoss))
  }

  function ToCentre(s: BallState, o: Obstacles.Obstacle): Vec2 {
    Sub(s.position, ClosestPoint(Obstacles.Bounds(o), s.position))
  }

  /** The ball is moving and its circle reaches the obstacle's box (closed test). */
  predicate Hits(s: BallState, o: Obstacles.Obstacle) {
    !(s.velocity.x == 0.0 && s.velocity.y == 0.0) && LenSq(ToCentre(s, o)) <= s.radius * s.radius
  }

  function HitDistance(s: BallState, o: Obstacles.Obstacle, sqrt: real -> real): real {
    sqrt(LenSq(ToCentre(s, o)))
  }

  function HitNormal(s: BallState, o: Obstacles.Obstacle, sqrt: real -> real): Vec2 {
    Normal(ToCentre(s, o), HitDistance(s, o, sqrt))
  }

  /** checkCollision: a hit pushes the ball out along the normal by the overlap and
      reflects its velocity with damping. `sqrt` is the square-root routine. */
  function Collide(s: BallState, o: Obstacles.Obstacle, sqrt: real -> real): BallState {
    if Hits(s, o) then
      var n := HitNormal(s, o, sqrt);
      var p := Add(s.position, Scale(n, s.radius - HitDistance(s, o, sqrt)));
      s.(position := p, velocity := Reflect(s.velocity, n), line0 := p)
    else s
  }

  /** Collide with each obstacle of `obs` in turn. */
  function CollideAll(s: BallState, obs: seq<Obstacles.Obstacle>, sqrt: real -> real): BallState
    decreases |obs|
  {
    if |obs| == 0 then s
    else Collide(CollideAll(s, obs[..|obs| - 1], sqrt), obs[|obs| - 1], sqrt)
  }

  // ---------------------------------------------------------------------------
  // Properties
  // ---------------------------------------------------------------------------

  lemma InitialState(radius: real)
    ensures var s := Initial(radius);
      && s.position == Vec2(300.0, 300.0) && s.velocity == Zero
      && !s.isDragging && s.friction == 0.99 && s.radius == radius
      && Inv(s)
  {
  }

  /** A dragged ball neither moves nor gains speed. */
  lemma StepWhileDragging(s: BallState, dt: real)
    requires s.isDragging
    ensures Step(s, dt).position == s.position && Step(s, dt).velocity == s.velocity
    ensures Step(s, dt).isDragging
  {
  }

  /** A free ball: velocity 0.99·v, or zero once slower than 1 on both axes, and then the
      position advances by the new velocity. It is left either stopped or at least as fast
      as 1 on one axis. */
  lemma FreeStep(s: BallState, dt: real)
    requires Inv(s) && !s.isDragging
    ensures var r := Step(s, dt);
      && r.velocity == (if Abs(0.99 * s.velocity.x) < 1.0 && Abs(0.99 * s.velocity.y) < 1.0
                        then Zero else Vec2(0.99 * s.velocity.x, 0.99 * s.velocity.y))
      && r.position == Vec2(s.position.x + r.velocity.x * dt, s.position.y + r.velocity.y * dt)
      && (r.velocity == Zero || Abs(r.velocity.x) >= 1.0 || Abs(r.velocity.y) >= 1.0)
      && !r.isDragging
  {
  }

  /** A press outside the ball's square is declined and changes nothing; one inside
      starts a drag anchored at the ball and stops it. */
  lemma PressSemantics(s: BallState, m: Vec2)
    requires s.radius >= 0.0
    ensures var (r, handled) := PressBall(s, m);
      && handled == (s.position.x - s.radius <= m.x < s.position.x + s.radius &&
                     s.position.y - s.radius <= m.y < s.position.y + s.radius)
      && (!handled ==> r == s)
      && (handled ==> r.isDragging && r.velocity == Zero && r.startDragPos == s.position
                      && r.currentDragPos == m && r.position == s.position)
  {
    ContainsPositiveSize(Bounds(s), m);
  }

  /** Releasing a drag launches the ball with (position − mouse)·2.5; a release with no
      drag in progress is declined and changes nothing. */
  lemma ReleaseSemantics(s: BallState, m: Vec2)
    ensures var (r, handled) := ReleaseBall(s, m);
      && handled == s.isDragging
      && (!handled ==> r == s)
      && (handled ==> !r.isDragging && r.position == s.position &&
                      r.velocity == Vec2((s.position.x - m.x) * 2.5, (s.position.y - m.y) * 2.5))
  {
  }

  /** A move is consumed exactly while dragging and never moves or speeds up the ball. */
  lemma MoveSemantics(s: BallState, m: Vec2)
    ensures var (r, handled) := MoveBall(s, m);
      && handled == s.isDragging
      && r.position == s.position && r.velocity == s.velocity && r.isDragging == s.isDragging
      && (handled ==> r.currentDragPos == m && r.line1 == m)
      && (!handled ==> r == s)
  {
  }

  /** A declined event leaves the ball exactly as it was; this is what lets the game
      offer an event to one entity after another. */
  lemma DeclinedIsNoOp(s: BallState, ev: MouseEvent)
    ensures !Handle(s, ev).1 ==> Handle(s, ev).0 == s
  {
  }

  /** Every operation keeps the invariant. */
  lemma InvPreserved(s: BallState, dt: real, ev: MouseEvent, o: Obstacles.Obstacle, sqrt: real -> real)
    requires Inv(s)
    ensures Inv(Step(s, dt)) && Inv(Handle(s, ev).0) && Inv(Collide(s, o, sqrt))
  {
  }

  /** The closest point lies in the obstacle's box and no point of the box is nearer. */
  lemma ClosestPointIsNearest(b: Rect, c: Vec2, q: Vec2)
    requires b.size.x >= 0.0 && b.size.y >= 0.0
    ensures var p := ClosestPoint(b, c);
      b.position.x <= p.x <= Right(b) && b.position.y <= p.y <= Bottom(b)
    ensures b.position.x <= q.x <= Right(b) && b.position.y <= q.y <= Bottom(b) ==>
      DistSq(c, ClosestPoint(b, c)) <= DistSq(c, q)
  {
    var p := ClosestPoint(b, c);
    assert p.x == Clamp(c.x, b.position.x, Right(b));
    assert p.y == Clamp(c.y, b.position.y, Bottom(b));
    if b.position.x <= q.x <= Right(b) && b.position.y <= q.y <= Bottom(b) {
      NearerOnAxis(c.x, p.x, q.x, b.position.x, Right(b));
      NearerOnAxis(c.y, p.y, q.y, b.position.y, Bottom(b));
    }
  }

  lemma NearerOnAxis(c: real, p: real, q: real, lo: real, hi: real)
    requires lo <= hi && p == Clamp(c, lo, hi) && lo <= q <= hi
    ensures (c - p) * (c - p) <= (c - q) * (c - q)
  {
    if c < lo {
      SquareLe(p - c, q - c);
      assert (c - p) * (c - p) == (p - c) * (p - c);
      assert (c - q) * (c - q) == (q - c) * (q - c);
    } else if hi < c {
      SquareLe(c - p, c - q);
    } else {
      assert p == c;
      SquareLe(0.0, c - q);
    }
  }

  /** Squaring is monotone on the non-negative reals, in both directions. */
  lemma SquareLe(a: real, b: real)
    requires 0.0 <= a <= b || b <= a <= 0.0
    ensures a * a <= b * b
  {
    if 0.0 <= a {
      assert a * a <= a * b;
      assert a * b <= b * b;
    } else {
      assert a * a <= a * b;
      assert a * b <= b * b;
    }
  }

  lemma SquareLt(a: real, b: real)
    ensures 0.0 <= b < a ==> b * b < a * a
  {
    if 0.0 <= b < a {
      var p, q, r := b * b, b * a, a * a;
      assert p <= q;
      assert q < r;
    }
  }

  lemma SquareLeInverse(a: real, b: real)
    requires 0.0 <= a && 0.0 <= b && a * a <= b * b
    ensures a <= b
  {
    SquareLt(a, b);
  }

  lemma MulNegPos(x: real, d: real)
    ensures x < 0.0 && 0.0 < d ==> x * d < 0.0
  {
  }

  /** Dividing by a positive number no larger than the dividend gives at least 1. */
  lemma QuotientAtLeastOne(r: real, d: real)
    requires 0.0 < d <= r
    ensures r / d >= 1.0
  {
    var k := r / d;
    assert k * d == r;
    var x := k - 1.0;
    var m := x * d;
    assert m == k * d - d;
    MulNegPos(x, d);
  }

  /** A ball at rest, or one that misses the box, is left alone. */
  lemma MissIsNoOp(s: BallState, o: Obstacles.Obstacle, sqrt: real -> real)
    requires s.velocity == Zero || LenSq(ToCentre(s, o)) > s.radius * s.radius
    ensures Collide(s, o, sqrt) == s
  {
    assert !Hits(s, o);
  }

  lemma HitNormalIsUnit(s: BallState, o: Obstacles.Obstacle, sqrt: real -> real)
    requires IsSqrt(sqrt)
    ensures LenSq(HitNormal(s, o, sqrt)) == 1.0
  {
    NormalOfSqrtIsUnit(ToCentre(s, o), sqrt);
  }

  /** Reflection about a unit normal scales the normal component by −0.6, keeps
      the tangential component, and so never increases the speed. */
  lemma ReflectComponents(v: Vec2, n: Vec2)
    requires LenSq(n) == 1.0
    ensures Dot(Reflect(v, n), n) == -0.6 * Dot(v, n)
    ensures Sub(Reflect(v, n), Scale(n, Dot(Reflect(v, n), n))) == Sub(v, Scale(n, Dot(v, n)))
    ensures LenSq(Reflect(v, n)) == LenSq(v) - 0.64 * Dot(v, n) * Dot(v, n)
    ensures LenSq(Reflect(v, n)) <= LenSq(v)
  {
    ReflectDot(v, n);
    ReflectTangent(v, n);
    ReflectLenSq(v, n);
    var a := Dot(v, n);
    assert 0.0 <= a * a;
  }

  /** The reflection written out: the velocity less 1.6 times its normal component. */
  lemma ReflectForm(v: Vec2, n: Vec2)
    ensures Reflect(v, n) == Vec2(v.x - 1.6 * Dot(v, n) * n.x, v.y - 1.6 * Dot(v, n) * n.y)
  {
  }

  lemma ReflectDot(v: Vec2, n: Vec2)
    requires LenSq(n) == 1.0
    ensures Dot(Reflect(v, n), n) == -0.6 * Dot(v, n)
  {
    var a := Dot(v, n);
    ReflectForm(v, n);
    assert Dot(Reflect(v, n), n) == a - 1.6 * a * LenSq(n);
  }

  lemma ReflectTangent(v: Vec2, n: Vec2)
    requires LenSq(n) == 1.0
    ensures Sub(Reflect(v, n), Scale(n, Dot(Reflect(v, n), n))) == Sub(v, Scale(n, Dot(v, n)))
  {
    ReflectDot(v, n);
    ReflectForm(v, n);
  }

  lemma ReflectLenSq(v: Vec2, n: Vec2)
    requires LenSq(n) == 1.0
    ensures LenSq(Reflect(v, n)) == LenSq(v) - 0.64 * Dot(v, n) * Dot(v, n)
  {
    var a := Dot(v, n);
    ReflectForm(v, n);
    assert LenSq(Reflect(v, n)) == LenSq(v) - 3.2 * a * a + 2.56 * a * a * LenSq(n);
  }

  /** A hit with the centre outside the box puts the ball exactly in contact: its centre
      ends at distance `radius` from the closest point, which does not move. */
  lemma HitRestoresContact(s: BallState, o: Obstacles.Obstacle, sqrt: real -> real)
    requires IsSqrt(sqrt) && Hits(s, o) && HitDistance(s, o, sqrt) > 0.0
    ensures var cp := ClosestPoint(Obstacles.Bounds(o), s.position);
      DistSq(Collide(s, o, sqrt).position, cp) == s.radius * s.radius
  {
    var cp := ClosestPoint(Obstacles.Bounds(o), s.position);
    var t := ToCentre(s, o);
    var d := HitDistance(s, o, sqrt);
    var p := Collide(s, o, sqrt).position;
    SqrtOfLenSq(sqrt, t);
    PushedOffset(s, o, sqrt);
    ScaledToRadius(t, d, s.radius);
    assert DistSq(p, cp) == LenSq(Sub(p, cp));
  }

  /** After a hit at a positive distance d, the centre's offset from the closest point
      is the old offset scaled by radius / d. */
  lemma PushedOffset(s: BallState, o: Obstacles.Obstacle, sqrt: real -> real)
    requires Hits(s, o) && HitDistance(s, o, sqrt) > 0.0
    ensures Sub(Collide(s, o, sqrt).position, ClosestPoint(Obstacles.Bounds(o), s.position))
      == Scale(ToCentre(s, o), s.radius / HitDistance(s, o, sqrt))
  {
    var cp := ClosestPoint(Obstacles.Bounds(o), s.position);
    var t := ToCentre(s, o);
    var d := HitDistance(s, o, sqrt);
    var p := Collide(s, o, sqrt).position;
    assert p == Add(s.position, Scale(Div(t, d), s.radius - d));
    PushOut(s.position, cp, d, s.radius);
  }

  /** An offset of squared length d² scaled by r / d has squared length r². */
  lemma ScaledToRadius(t: Vec2, d: real, r: real)
    requires d != 0.0 && LenSq(t) == d * d
    ensures LenSq(Scale(t, r / d)) == r * r
  {
    LenSqScale(t, r / d);
    QuotientSquared(r, d);
  }

  lemma QuotientSquared(r: real, d: real)
    requires d != 0.0
    ensures (r / d) * (r / d) * (d * d) == r * r
  {
    var k := r / d;
    assert k * d == r;
    assert k * k * (d * d) == (k * d) * (k * d);
  }

  /** The velocity response of a hit: normal component ×(−0.6), tangential component
      unchanged, speed not increased. */
  lemma HitResponse(s: BallState, o: Obstacles.Obstacle, sqrt: real -> real)
    requires IsSqrt(sqrt) && Hits(s, o)
    ensures var n := HitNormal(s, o, sqrt);
            var v := Collide(s, o, sqrt).velocity;
      && Dot(v, n) == -0.6 * Dot(s.velocity, n)
      && Sub(v, Scale(n, Dot(v, n))) == Sub(s.velocity, Scale(n, Dot(s.velocity, n)))
      && LenSq(v) <= LenSq(s.velocity)
  {
    HitNormalIsUnit(s, o, sqrt);
    ReflectComponents(s.velocity, HitNormal(s, o, sqrt));
  }

  /** A collision never speeds the ball up. */
  lemma CollideSpeed(s: BallState, o: Obstacles.Obstacle, sqrt: real -> real)
    requires IsSqrt(sqrt)
    ensures LenSq(Collide(s, o, sqrt).velocity) <= LenSq(s.velocity)
  {
    if Hits(s, o) {
      HitResponse(s, o, sqrt);
    }
  }

  /** Once a hit has put the ball in contact (centre outside the box), checking the same
      obstacle again does not move it any further. */
  lemma ContactPositionIsStable(s: BallState, o: Obstacles.Obstacle, sqrt: real -> real)
    requires IsSqrt(sqrt) && s.radius > 0.0 && o.size.x >= 0.0 && o.size.y >= 0.0
    requires Hits(s, o) && HitDistance(s, o, sqrt) > 0.0
    ensures Collide(Collide(s, o, sqrt), o, sqrt).position == Collide(s, o, sqrt).position
  {
    var s1 := Collide(s, o, sqrt);
    var cp := ClosestPoint(Obstacles.Bounds(o), s.position);
    PushOutKeepsClosestPoint(s, o, sqrt);
    HitRestoresContact(s, o, sqrt);
    assert ToCentre(s1, o) == Sub(s1.position, cp);
    ContactIsFixed(s1, o, sqrt);
  }

  /** Pushing the ball out along the normal does not change which point of the box is
      nearest to its centre. */
  lemma PushOutKeepsClosestPoint(s: BallState, o: Obstacles.Obstacle, sqrt: real -> real)
    requires IsSqrt(sqrt) && s.radius > 0.0 && o.size.x >= 0.0 && o.size.y >= 0.0
    requires Hits(s, o) && HitDistance(s, o, sqrt) > 0.0
    ensures ClosestPoint(Obstacles.Bounds(o), Collide(s, o, sqrt).position) ==
            ClosestPoint(Obstacles.Bounds(o), s.position)
  {
    var b := Obstacles.Bounds(o);
    var cp := ClosestPoint(b, s.position);
    var t := ToCentre(s, o);
    var d := HitDistance(s, o, sqrt);
    var r := s.radius;
    assert d * d == LenSq(t) <= r * r;
    SquareLeInverse(d, r);
    QuotientAtLeastOne(r, d);
    assert Collide(s, o, sqrt).position == Add(s.position, Scale(Div(t, d), r - d));
    PushOut(s.position, cp, d, r);
    ClampOfPushedOut(s.position.x, b.position.x, b.position.x + b.size.x, r / d);
    ClampOfPushedOut(s.position.y, b.position.y, b.position.y + b.size.y, r / d);
  }

  /** Moving a point `p` along `(p − cp) / d` by `r − d` puts it at `cp + (p − cp) · r / d`. */
  lemma PushOut(p: Vec2, cp: Vec2, d: real, r: real)
    requires d != 0.0
    ensures Add(p, Scale(Div(Sub(p, cp), d), r - d)) == Add(cp, Scale(Sub(p, cp), r / d))
  {
    PushOutScalar(p.x - cp.x, d, r);
    PushOutScalar(p.y - cp.y, d, r);
  }

  /** On one axis: moving by `a / d` times the overlap `r - d` from a point at offset `a`
      lands at offset `a · r / d`. */
  lemma PushOutScalar(a: real, d: real, r: real)
    requires d != 0.0
    ensures (a / d) * (r - d) + a == a * (r / d)
  {
    var q := a / d;
    var k := r / d;
    assert q * d == a;
    assert k * d == r;
    assert q * (r - d) == q * r - q * d;
    assert a * k == (q * d) * k;
    assert (q * d) * k == q * (k * d);
  }

  /** A ball exactly in contact with a box (its centre one radius from the closest point)
      is not moved by a collision check, only possibly reflected. */
  lemma ContactIsFixed(s: BallState, o: Obstacles.Obstacle, sqrt: real -> real)
    requires IsSqrt(sqrt) && s.radius >= 0.0
    requires LenSq(ToCentre(s, o)) == s.radius * s.radius
    ensures Collide(s, o, sqrt).position == s.position
  {
    SqrtOfSquare(sqrt, s.radius);
    assert HitDistance(s, o, sqrt) == s.radius;
  }

  /** On one axis: pushing a point away from its clamped value by a factor k >= 1 keeps
      the clamped value. */
  lemma ClampOfPushedOut(c: real, lo: real, hi: real, k: real)
    requires lo <= hi && k >= 1.0
    ensures var p := Clamp(c, lo, hi); Clamp(p + (c - p) * k, lo, hi) == p
  {
    var p := Clamp(c, lo, hi);
    if c < lo {
      assert (c - p) * k <= c - p < 0.0;
    } else if hi < c {
      assert (c - p) * k >= c - p > 0.0;
    }
  }

  lemma DivSelf(r: real)
    requires r != 0.0
    ensures (-r) / r == -1.0 && 0.0 / r == 0.0
  {
  }

  /** A ball whose surface just touches the left face of a box (the closest point is one
      radius to its right) stays where it is and has its horizontal velocity reversed
      and scaled by 0.6, whichever way it was moving. */
  lemma ContactOnLeftFace(s: BallState, o: Obstacles.Obstacle, sqrt: real -> real)
    requires IsSqrt(sqrt) && s.radius > 0.0 && s.velocity != Zero
    requires ToCentre(s, o) == Vec2(-s.radius, 0.0)
    ensures Collide(s, o, sqrt) ==
      s.(velocity := Vec2(-0.6 * s.velocity.x, s.velocity.y), line0 := s.position)
  {
    var r := s.radius;
    assert LenSq(ToCentre(s, o)) == r * r;
    SqrtOfSquare(sqrt, r);
    var d := HitDistance(s, o, sqrt);
    assert d == r;
    var n := HitNormal(s, o, sqrt);
    DivSelf(r);
    assert n == Vec2(-1.0, 0.0);
    assert Reflect(s.velocity, n) == Vec2(-0.6 * s.velocity.x, s.velocity.y);
    assert Add(s.position, Scale(n, r - d)) == s.position;
  }

  /** The 100×100 box centred at (370, 300): its left face is at x = 320, one default
      radius to the right of a new ball's surface. */
  const ScenarioBox: Obstacles.Obstacle :=
    Obstacles.New(Vec2(370.0, 300.0), Vec2(100.0, 100.0), Obstacles.DefaultColor)

  lemma ScenarioContact(v: Vec2)
    ensures Obstacles.Bounds(ScenarioBox).position.x == 320.0
    ensures ToCentre(Initial(20.0).(velocity := v), ScenarioBox) == Vec2(-20.0, 0.0)
  {
    assert Obstacles.Bounds(ScenarioBox) == Rect(Vec2(320.0, 250.0), Vec2(100.0, 100.0));
  }

  /** A ball moving at (100, 0) whose surface touches an obstacle's left edge stays
      at `left − radius` and comes back at 0.6 of its speed. */
  lemma WallScenario(sqrt: real -> real)
    requires IsSqrt(sqrt)
    ensures var r := Collide(Initial(20.0).(velocity := Vec2(100.0, 0.0)), ScenarioBox, sqrt);
      r.position == Vec2(Obstacles.Bounds(ScenarioBox).position.x - 20.0, 300.0)
      && r.velocity == Vec2(-60.0, 0.0)
  {
    ScenarioContact(Vec2(100.0, 0.0));
    ContactOnLeftFace(Initial(20.0).(velocity := Vec2(100.0, 0.0)), ScenarioBox, sqrt);
  }

  /** A touching ball that is moving away from the box is still reflected, back towards
      it: the test is `distance² <= radius²` and does not look at the direction of motion. */
  lemma SeparatingContactIsReflected(sqrt: real -> real)
    requires IsSqrt(sqrt)
    ensures var s := Initial(20.0).(velocity := Vec2(-100.0, 0.0));
      Hits(s, ScenarioBox) && Collide(s, ScenarioBox, sqrt).velocity == Vec2(60.0, 0.0)
  {
    ScenarioContact(Vec2(-100.0, 0.0));
    ContactOnLeftFace(Initial(20.0).(velocity := Vec2(-100.0, 0.0)), ScenarioBox, sqrt);
  }

  /** A press at the centre of a new ball starts a drag there. */
  lemma PressScenario()
    ensures PressBall(Initial(20.0), StartPosition) ==
      (Initial(20.0).(isDragging := true, startDragPos := StartPosition,
                      currentDragPos := StartPosition, line1 := StartPosition), true)
  {
    assert Bounds(Initial(20.0)) == Rect(Vec2(280.0, 280.0), Vec2(40.0, 40.0));
  }

  /** Releasing that drag at (200, 300) launches the ball at (250, 0). */
  lemma LaunchScenario()
    ensures var pressed := PressBall(Initial(20.0), StartPosition).0;
      ReleaseBall(pressed, Vec2(200.0, 300.0)) ==
        (pressed.(isDragging := false, velocity := Vec2(250.0, 0.0)), true)
  {
    PressScenario();
  }

  /** A free ball at (300, 300) moving at (250, 0) is, one second later, at (547.5, 300)
      moving at (247.5, 0). */
  lemma LaunchedBallStep(s: BallState)
    requires Inv(s) && !s.isDragging
    requires s.position == Vec2(300.0, 300.0) && s.velocity == Vec2(250.0, 0.0)
    ensures Step(s, 1.0).velocity == Vec2(247.5, 0.0) && Step(s, 1.0).position == Vec2(547.5, 300.0)
  {
  }

  /** The collision pass leaves a ball at rest where it is. */
  lemma {:induction false} RestingBallUnaffected(s: BallState, obs: seq<Obstacles.Obstacle>, sqrt: real -> real)
    requires s.velocity == Zero
    ensures CollideAll(s, obs, sqrt) == s
    decreases |obs|
  {
    if |obs| > 0 {
      RestingBallUnaffected(s, obs[..|obs| - 1], sqrt);
    }
  }

  /** The collision pass never speeds the ball up. */
  lemma {:induction false} CollideAllSpeed(s: BallState, obs: seq<Obstacles.Obstacle>, sqrt: real -> real)
    requires IsSqrt(sqrt)
    ensures LenSq(CollideAll(s, obs, sqrt).velocity) <= LenSq(s.velocity)
    decreases |obs|
  {
    if |obs| > 0 {
      var prev := CollideAll(s, obs[..|obs| - 1], sqrt);
      CollideAllSpeed(s, obs[..|obs| - 1], sqrt);
      CollideSpeed(prev, obs[|obs| - 1], sqrt);
    }
  }

  /** The collision pass keeps the invariant, does not change the drag state, and leaves
      a dragged ball untouched. */
  lemma {:induction false} CollideAllInv(s: BallState, obs: seq<Obstacles.Obstacle>, sqrt: real -> real)
    requires Inv(s)
    ensures Inv(CollideAll(s, obs, sqrt))
    ensures CollideAll(s, obs, sqrt).isDragging == s.isDragging
    ensures s.isDragging ==> CollideAll(s, obs, sqrt) == s
    decreases |obs|
  {
    if |obs| > 0 {
      CollideAllInv(s, obs[..|obs| - 1], sqrt);
      InvPreserved(CollideAll(s, obs[..|obs| - 1], sqrt), 0.0, Move(Zero), obs[|obs| - 1], sqrt);
    }
  }

  /** The result of a hit, given its new position and velocity. */
  lemma CollideOnHit(s: BallState, o: Obstacles.Obstacle, sqrt: real -> real, p: Vec2, v: Vec2)
    requires Hits(s, o)
    requires p == Add(s.position, Scale(HitNormal(s, o, sqrt), s.radius - HitDistance(s, o, sqrt)))
    requires v == Reflect(s.velocity, HitNormal(s, o, sqrt))
    ensures Collide(s, o, sqrt) == s.(position := p, velocity := v, line0 := p)
  {
  }

  // ---------------------------------------------------------------------------
  // The class
  // ---------------------------------------------------------------------------

  class Ball {
    var position: Vec2
    var velocity: Vec2
    var startDragPos: Vec2
    var currentDragPos: Vec2
    var line0: Vec2
    var line1: Vec2
    var isDragging: bool
    const friction: real
    const radius: real

    function State(): BallState
      reads this
    {
      BallState(position, velocity, startDragPos, currentDragPos, line0, line1, isDragging, friction, radius)
    }

    constructor(radius: real)
      ensures State() == Initial(radius)
    {
      position := StartPosition;
      velocity := Zero;
      isDragging := false;
      friction := Friction;
      this.radius := radius;
      startDragPos := Zero;
      currentDragPos := Zero;
      line0 := StartPosition;
      line1 := StartPosition;
    }

    method Update(dt: real)
      modifies this
      ensures State() == Step(old(State()), dt)
    {
      if !isDragging {
        velocity := Scale(velocity, friction);
        if Abs(velocity.x) < StopSpeed && Abs(velocity.y) < StopSpeed {
          velocity := Zero;
        }
        position := Add(position, Scale(velocity, dt));
      }
      line0 := position;
    }

    method HandleMousePress(mousePos: Vec2) returns (handled: bool)
      modifies this
      ensures (State(), handled) == PressBall(old(State()), mousePos)
    {
      handled := false;
      if Contains(Rect(Sub(position, Vec2(radius, radius)), Vec2(2.0 * radius, 2.0 * radius)), mousePos) {
        isDragging := true;
        startDragPos := position;
        currentDragPos := mousePos;
        velocity := Zero;
        line0 := position;
        line1 := mousePos;
        handled := true;
      }
    }

    method HandleMouseRelease(mousePos: Vec2) returns (handled: bool)
      modifies this
      ensures (State(), handled) == ReleaseBall(old(State()), mousePos)
    {
      handled := false;
      if isDragging {
        isDragging := false;
        var dragVector := Sub(position, mousePos);
        velocity := Scale(dragVector, LaunchFactor);
        handled := true;
      }
    }

    method HandleMouseMove(mousePos: Vec2) returns (handled: bool)
      modifies this
      ensures (State(), handled) == MoveBall(old(State()), mousePos)
    {
      handled := false;
      if isDragging {
        currentDragPos := mousePos;
        line1 := mousePos;
        handled := true;
      }
    }

    method CheckCollision(obstacle: Obstacles.Obstacle, sqrt: real -> real)
      modifies this
      ensures State() == Collide(old(State()), obstacle, sqrt)
    {
      if velocity.x == 0.0 && velocity.y == 0.0 {
        MissIsNoOp(State(), obstacle, sqrt);
        return;
      }
      var closest := ClosestPoint(Obstacles.Bounds(obstacle), position);
      var toClosest := Sub(position, closest);
      var distanceSquared := LenSq(toClosest);
      assert toClosest == ToCentre(State(), obstacle);
      if distanceSquared <= radius * radius {
        var newPosition, newVelocity := Bounce(State(), obstacle, toClosest, distanceSquared, sqrt);
        position, velocity, line0 := newPosition, newVelocity, newPosition;
      } else {
        MissIsNoOp(State(), obstacle, sqrt);
      }
    }
  }

  /** The response part of checkCollision, computed as the source does: push out along
      the normal by the overlap, then reflect the velocity with damping. */
  method Bounce(s: BallState, o: Obstacles.Obstacle, toClosest: Vec2, distanceSquared: real, sqrt: real -> real)
    returns (newPosition: Vec2, newVelocity: Vec2)
    requires Hits(s, o) && toClosest == ToCentre(s, o) && distanceSquared == LenSq(toClosest)
    ensures Collide(s, o, sqrt) == s.(position := newPosition, velocity := newVelocity, line0 := newPosition)
  {
    var distance := sqrt(distanceSquared);
    assert distance == HitDistance(s, o, sqrt);
    newPosition, newVelocity := Respond(s.position, s.velocity, s.radius, toClosest, distance);
    CollideOnHit(s, o, sqrt, newPosition, newVelocity);
  }

  /** The arithmetic of the response: the direction is the offset divided by the
      distance (straight up for a zero distance), the ball moves out along it by the
      overlap, and the velocity loses twice its component along it, damped. */
  method Respond(position: Vec2, velocity: Vec2, radius: real, toClosest: Vec2, distance: real)
    returns (newPosition: Vec2, newVelocity: Vec2)
    ensures newPosition == Add(position, Scale(Normal(toClosest, distance), radius - distance))
    ensures newVelocity == Reflect(velocity, Normal(toClosest, distance))
  {
    var direction := if distance > 0.0 then Div(toClosest, distance) else Vec2(0.0, -1.0);
    var overlap := radius - distance;
    newPosition := Add(position, Scale(direction, overlap));
    var dotProduct := velocity.x * direction.x + velocity.y * direction.y;
    newVelocity := Sub(velocity, Scale(Scale(direction, 2.0 * dotProduct), SpeedLoss));
  }
}
