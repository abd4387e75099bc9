/** The earlier ball of src/Ball.cpp. It has the same fields and the same drag/launch
    handling as the ball of src/entities/Ball.cpp, but its handlers report nothing, it
    never snaps a slow ball to rest, and it keeps the ball inside a fixed 600×600 box,
    bouncing off the walls at half speed. The state is Balls.BallState. */
module LegacyBalls {
  import opened Geometry
  import Balls

  /** The side of the square the ball is kept in. */
  const BoxSize: real := 600.0
  /** Velocity factor applied to a component whose coordinate hit a wall. */
  const WallBounce: real := -0.5

  // ---------------------------------------------------------------------------
  // Specification functions
  // ---------------------------------------------------------------------------

  /** The two wall tests of one axis, in source order: first the low wall at `r`, then
      the high wall at `600 − r`, each moving the coordinate onto the wall and bouncing
      the velocity component. Returns the new coordinate and velocity component. */
  function ClampAxis(p: real, v: real, r: real): (real, real) {
    var (p1, v1) := if p < r then (r, v * WallBounce) else (p, v);
    if p1 > BoxSize - r then (BoxSize - r, v1 * WallBounce) else (p1, v1)
  }

  /** update: a free ball loses speed to friction, moves, and is kept in the box. */
  function Step(s: Balls.BallState, dt: real): Balls.BallState {
    if s.isDragging then s.(line0 := s.position)
    else
      var v := Scale(s.velocity, s.friction);
      var p := Add(s.position, Scale(v, dt));
      var (px, vx) := ClampAxis(p.x, v.x, s.radius);
      var (py, vy) := ClampAxis(p.y, v.y, s.radius);
      s.(position := Vec2(px, py), velocity := Vec2(vx, vy), line0 := Vec2(px, py))
  }

  /** handleMousePress: a press inside the ball's square starts a drag. The drag line
      is not touched. */
  function Press(s: Balls.BallState, m: Vec2): Balls.BallState {
    if Contains(Balls.Bounds(s), m) then
      s.(isDragging := true, startDragPos := s.position, currentDragPos := m, velocity := Zero)
    else s
  }

  /** handleMouseRelease: ends a drag and launches the ball away from the cursor. */
  function Release(s: Balls.BallState, m: Vec2): Balls.BallState {
    if s.isDragging then s.(isDragging := false, velocity := Scale(Sub(s.position, m), Balls.LaunchFactor))
    else s
  }

  /** handleMouseMove: while dragging, the cursor and the end of the drag line follow the mouse. */
  function Move(s: Balls.BallState, m: Vec2): Balls.BallState {
    if s.isDragging then s.(currentDragPos := m, line1 := m) else s
  }

  // ---------------------------------------------------------------------------
  // Properties
  // ---------------------------------------------------------------------------

  /** With a radius of at most half the box, each axis is handled exactly as a clamp
      into [r, 600 − r]: a coordinate below the range is put on the low wall and its
      velocity component halved and negated, one above on the high wall likewise, and
      one inside the range is left alone together with its velocity. */
  lemma ClampAxisCases(p: real, v: real, r: real)
    requires r <= BoxSize / 2.0
    ensures p < r ==> ClampAxis(p, v, r) == (r, -0.5 * v)
    ensures p > BoxSize - r ==> ClampAxis(p, v, r) == (BoxSize - r, -0.5 * v)
    ensures r <= p <= BoxSize - r ==> ClampAxis(p, v, r) == (p, v)
    ensures r <= ClampAxis(p, v, r).0 <= BoxSize - r
  {
  }

  /** A ball wider than the box hits the low wall, is then past the high wall, and is
      bounced twice in one update: its velocity component is multiplied by 0.25. */
  lemma OversizedBallBouncesTwice(p: real, v: real, r: real)
    requires r > BoxSize / 2.0 && p < r
    ensures ClampAxis(p, v, r) == (BoxSize - r, 0.25 * v)
  {
  }

  /** A dragged ball neither moves nor changes speed. */
  lemma StepWhileDragging(s: Balls.BallState, dt: real)
    requires s.isDragging
    ensures Step(s, dt).position == s.position && Step(s, dt).velocity == s.velocity
    ensures Step(s, dt).isDragging && Step(s, dt).line0 == s.position
  {
  }

  /** A free ball first takes the velocity 0.99·v and moves by it; where the move ends
      inside the box that is the whole update. */
  lemma FreeStepInsideBox(s: Balls.BallState, dt: real)
    requires Balls.Inv(s) && !s.isDragging && s.radius <= BoxSize / 2.0
    requires var q := Add(s.position, Scale(Scale(s.velocity, 0.99), dt));
      s.radius <= q.x <= BoxSize - s.radius && s.radius <= q.y <= BoxSize - s.radius
    ensures Step(s, dt).velocity == Vec2(0.99 * s.velocity.x, 0.99 * s.velocity.y)
    ensures Step(s, dt).position ==
      Vec2(s.position.x + 0.99 * s.velocity.x * dt, s.position.y + 0.99 * s.velocity.y * dt)
  {
    var v := Scale(s.velocity, s.friction);
    var q := Add(s.position, Scale(v, dt));
    ClampAxisCases(q.x, v.x, s.radius);
    ClampAxisCases(q.y, v.y, s.radius);
  }

  /** After a free update the ball lies in the box [r, 600 − r]², and each velocity
      component is 0.99 times the old one, negated and halved exactly when the moved
      coordinate was outside the range on that axis. */
  lemma FreeStepStaysInBox(s: Balls.BallState, dt: real)
    requires Balls.Inv(s) && !s.isDragging && s.radius <= BoxSize / 2.0
    ensures var r := Step(s, dt); var rad := s.radius;
      rad <= r.position.x <= BoxSize - rad && rad <= r.position.y <= BoxSize - rad
    ensures var q := Add(s.position, Scale(Scale(s.velocity, 0.99), dt));
            var r := Step(s, dt); var rad := s.radius;
      && (q.x < rad || q.x > BoxSize - rad ==> r.velocity.x == -0.5 * (0.99 * s.velocity.x))
      && (rad <= q.x <= BoxSize - rad ==> r.velocity.x == 0.99 * s.velocity.x && r.position.x == q.x)
      && (q.y < rad || q.y > BoxSize - rad ==> r.velocity.y == -0.5 * (0.99 * s.velocity.y))
      && (rad <= q.y <= BoxSize - rad ==> r.velocity.y == 0.99 * s.velocity.y && r.position.y == q.y)
  {
    var v := Scale(s.velocity, s.friction);
    var q := Add(s.position, Scale(v, dt));
    ClampAxisCases(q.x, v.x, s.radius);
    ClampAxisCases(q.y, v.y, s.radius);
  }

  /** A press inside the ball's square starts a drag from the ball's position and stops
      the ball; a press outside changes nothing. */
  lemma PressSemantics(s: Balls.BallState, m: Vec2)
    requires s.radius >= 0.0
    ensures var inside := s.position.x - s.radius <= m.x < s.position.x + s.radius &&
                          s.position.y - s.radius <= m.y < s.position.y + s.radius;
      && (inside ==> Press(s, m) == s.(isDragging := true, startDragPos := s.position,
                                       currentDragPos := m, velocity := Zero))
      && (!inside ==> Press(s, m) == s)
  {
    ContainsPositiveSize(Balls.Bounds(s), m);
  }

  /** Releasing a drag launches the ball with (position − mouse)·2.5; a release with no
      drag in progress changes nothing. */
  lemma ReleaseSemantics(s: Balls.BallState, m: Vec2)
    ensures s.isDragging ==>
      && !Release(s, m).isDragging && Release(s, m).position == s.position
      && Release(s, m).velocity == Vec2((s.position.x - m.x) * 2.5, (s.position.y - m.y) * 2.5)
    ensures !s.isDragging ==> Release(s, m) == s
  {
  }

  /** A move changes the cursor and the end of the drag line, and only while dragging. */
  lemma MoveSemantics(s: Balls.BallState, m: Vec2)
    ensures s.isDragging ==> Move(s, m) == s.(currentDragPos := m, line1 := m)
    ensures !s.isDragging ==> Move(s, m) == s
  {
  }

  /** The earlier ball keeps the same invariant as the current one. */
  lemma InvPreserved(s: Balls.BallState, dt: real, m: Vec2)
    requires Balls.Inv(s)
    ensures Balls.Inv(Step(s, dt)) && Balls.Inv(Press(s, m)) && Balls.Inv(Release(s, m)) && Balls.Inv(Move(s, m))
  {
  }

  /** Both revisions treat the drag the same way: the position, velocity and drag state
      after a press, release or move agree (they differ only in the drag line). */
  lemma HandlersAgreeWithCurrentBall(s: Balls.BallState, m: Vec2)
    ensures var (c, _) := Balls.PressBall(s, m);
      Press(s, m) == c.(line0 := Press(s, m).line0, line1 := Press(s, m).line1)
    ensures Release(s, m) == Balls.ReleaseBall(s, m).0
    ensures Move(s, m) == Balls.MoveBall(s, m).0
  {
  }

  // ---------------------------------------------------------------------------
  // The class
  // ---------------------------------------------------------------------------

  class LegacyBall {
    var position: Vec2
    var velocity: Vec2
    var startDragPos: Vec2
    var currentDragPos: Vec2
    var line0: Vec2
    var line1: Vec2
    var isDragging: bool
    const friction: real
    const radius: real

    function State(): Balls.BallState
      reads this
    {
      Balls.BallState(position, velocity, startDragPos, currentDragPos, line0, line1, isDragging, friction, radius)
    }

    constructor(radius: real)
      ensures State() == Balls.Initial(radius)
    {
      position := Balls.StartPosition;
      velocity := Zero;
      isDragging := false;
      friction := Balls.Friction;
      this.radius := radius;
      startDragPos := Zero;
      currentDragPos := Zero;
      line0 := Balls.StartPosition;
      line1 := Balls.StartPosition;
    }

    method Update(deltaTime: real)
      modifies this
      ensures State() == Step(old(State()), deltaTime)
    {
      if !isDragging {
        velocity := Scale(velocity, friction);
        position := Add(position, Scale(velocity, deltaTime));
        ghost var p, v := position, velocity;
        if position.x < radius {
          position := position.(x := radius);
          velocity := velocity.(x := velocity.x * WallBounce);
        }
        if position.x > BoxSize - radius {
          position := position.(x := BoxSize - radius);
          velocity := velocity.(x := velocity.x * WallBounce);
        }
        assert (position.x, velocity.x) == ClampAxis(p.x, v.x, radius);
        if position.y < radius {
          position := position.(y := radius);
          velocity := velocity.(y := velocity.y * WallBounce);
        }
        if position.y > BoxSize - radius {
          position := position.(y := BoxSize - radius);
          velocity := velocity.(y := velocity.y * WallBounce);
        }
        assert (position.y, velocity.y) == ClampAxis(p.y, v.y, radius);
      }
      line0 := position;
    }

    method HandleMousePress(mousePos: Vec2)
      modifies this
      ensures State() == Press(old(State()), mousePos)
    {
      if Contains(Rect(Sub(position, Vec2(radius, radius)), Vec2(2.0 * radius, 2.0 * radius)), mousePos) {
        isDragging := true;
        startDragPos := position;
        currentDragPos := mousePos;
        velocity := Zero;
      }
    }

    method HandleMouseRelease(mousePos: Vec2)
      modifies this
      ensures State() == Release(old(State()), mousePos)
    {
      if isDragging {
        isDragging := false;
        var dragVector := Sub(position, mousePos);
        velocity := Scale(dragVector, Balls.LaunchFactor);
      }
    }

    method HandleMouseMove(mousePos: Vec2)
      modifies this
      ensures State() == Move(old(State()), mousePos)
    {
      if isDragging {
        currentDragPos := mousePos;
        line1 := mousePos;
      }
    }
  }
}
