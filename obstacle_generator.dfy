/** The obstacle generator of src/systems/ObstacleGenerator.cpp. When the ball has
    travelled far enough since the last batch, a batch of one to three random
    candidates is drawn in a region ahead of the ball; a candidate is kept if it is far
    enough from the ball and clear of every existing obstacle. The random draws are
    passed in as `Candidate` values. Distances are compared squared: the source's
    `std::hypot(dx, dy) < d` and `> d` are stated as the equivalent comparisons of
    dx² + dy², and `HypotComparisons` proves the equivalence. */
module ObstacleGen {
  import opened Geometry
  import Obstacles
  import Balls
  import opened Entities

  /** The ball radius the generator assumes. */
  const BallRadius: real := 20.0
  /** The padding added around an existing obstacle on every side. */
  const Padding: real := 20.0
  /** The most candidates one batch draws. */
  const MaxBatch: int := 3

  /** The three obstacle colours: light brown, dark brown and grey. */
  function Palette(i: int): Obstacles.Color
    requires 0 <= i <= 2
  {
    if i == 0 then Obstacles.Rgb(139, 69, 19)
    else if i == 1 then Obstacles.Rgb(120, 60, 12)
    else Obstacles.Rgb(100, 100, 100)
  }

  /** One iteration's draws: the centre, the orientation (0 horizontal, otherwise
      vertical), the two size draws in order, and the colour index (drawn only if the
      candidate is kept). */
  datatype Candidate = Candidate(x: real, y: real, kind: int, size1: real, size2: real, color: int)

  /** The ranges of the distributions: x in [bx + 300, bx + 1500], y in [by − 600,
      by + 600], orientation 0 or 1, sizes in [40, 120], colour 0 to 2. */
  predicate InRange(c: Candidate, ballPosition: Vec2) {
    && ballPosition.x + 300.0 <= c.x <= ballPosition.x + 1500.0
    && ballPosition.y - 600.0 <= c.y <= ballPosition.y + 600.0
    && 0 <= c.kind <= 1
    && 40.0 <= c.size1 <= 120.0 && 40.0 <= c.size2 <= 120.0
    && 0 <= c.color <= 2
  }

  /** A horizontal obstacle is size1 wide and size2/2 high; a vertical one size1/2 wide
      and size2 high. */
  function CandidateSize(c: Candidate): Vec2 {
    if c.kind == 0 then Vec2(c.size1, c.size2 / 2.0) else Vec2(c.size1 / 2.0, c.size2)
  }

  function CandidateCentre(c: Candidate): Vec2 { Vec2(c.x, c.y) }

  /** `hypot(a − b) > d`, squared. */
  predicate Beyond(a: Vec2, b: Vec2, d: real) { d < 0.0 || DistSq(a, b) > d * d }

  /** `hypot(a − b) < d`, squared. */
  predicate Within(a: Vec2, b: Vec2, d: real) { d > 0.0 && DistSq(a, b) < d * d }

  /** An existing obstacle's bounds, grown by the padding on every side. */
  function Padded(b: Rect): Rect {
    Rect(Vec2(b.position.x - Padding, b.position.y - Padding),
         Vec2(b.size.x + 2.0 * Padding, b.size.y + 2.0 * Padding))
  }

  /** The closed intersection test of the source: the boxes are apart only if one lies
      strictly beyond the other on some axis, so touching boxes intersect. */
  predicate Intersects(e: Rect, n: Rect) {
    !(Right(e) < n.position.x || Bottom(e) < n.position.y || e.position.x > Right(n) || e.position.y > Bottom(n))
  }

  /** The box of a candidate centred on `pos`. */
  function CandidateBox(pos: Vec2, size: Vec2): Rect {
    Rect(Vec2(pos.x - size.x / 2.0, pos.y - size.y / 2.0), size)
  }

  predicate ClearOf(pos: Vec2, size: Vec2, o: Obstacles.Obstacle) {
    !Intersects(Padded(Obstacles.Bounds(o)), CandidateBox(pos, size))
  }

  /** isValidObstaclePosition: not within minDistance + ballRadius of the ball, and
      clear of every obstacle of the list. */
  predicate ValidPosition(pos: Vec2, size: Vec2, ballPosition: Vec2, ballRadius: real,
                          obstacles: seq<Obstacles.Obstacle>, minDistance: real)
  {
    && !Within(pos, ballPosition, minDistance + ballRadius)
    && forall i :: 0 <= i < |obstacles| ==> ClearOf(pos, size, obstacles[i])
  }

  /** The obstacle a kept candidate becomes. */
  function Realise(c: Candidate): Obstacles.Obstacle
    requires 0 <= c.color <= 2
  {
    Obstacles.New(CandidateCentre(c), CandidateSize(c), Palette(c.color))
  }

  predicate Kept(c: Candidate, ballPosition: Vec2, existing: seq<Obstacles.Obstacle>, minDistance: real) {
    ValidPosition(CandidateCentre(c), CandidateSize(c), ballPosition, BallRadius, existing, minDistance)
  }

  /** The obstacles a batch adds, in draw order. Every candidate is checked against the
      obstacles that existed before the batch. */
  function Accepted(ballPosition: Vec2, cs: seq<Candidate>, existing: seq<Obstacles.Obstacle>, minDistance: real)
    : seq<Obstacles.Obstacle>
    requires forall i :: 0 <= i < |cs| ==> InRange(cs[i], ballPosition)
    decreases |cs|
  {
    if |cs| == 0 then []
    else
      var init := Accepted(ballPosition, cs[..|cs| - 1], existing, minDistance);
      var c := cs[|cs| - 1];
      assert InRange(c, ballPosition);
      if Kept(c, ballPosition, existing, minDistance) then init + [Realise(c)] else init
  }

  // ---------------------------------------------------------------------------
  // Properties
  // ---------------------------------------------------------------------------

  /** The squared comparisons are the source's hypot comparisons. */
  lemma HypotComparisons(a: Vec2, b: Vec2, d: real, sqrt: real -> real)
    requires IsSqrt(sqrt)
    ensures sqrt(DistSq(a, b)) > d <==> Beyond(a, b, d)
    ensures sqrt(DistSq(a, b)) < d <==> Within(a, b, d)
  {
    var t := DistSq(a, b);
    var h := sqrt(t);
    var dx, dy := a.x - b.x, a.y - b.y;
    assert t == dx * dx + dy * dy;
    assert 0.0 <= h && h * h == t;
    if d >= 0.0 {
      Balls.SquareLt(h, d);
      Balls.SquareLt(d, h);
    }
  }

  /** The candidate box is the bounds of the obstacle built from the candidate. */
  lemma CandidateBoxIsBounds(pos: Vec2, size: Vec2, color: Obstacles.Color)
    ensures CandidateBox(pos, size) == Obstacles.Bounds(Obstacles.New(pos, size, color))
  {
  }

  /** One side of a candidate is a full size draw, in [40, 120], and the other a halved
      one, in [20, 60]: the width for a horizontal candidate, the height for a vertical one. */
  lemma CandidateSizeRange(c: Candidate, ballPosition: Vec2)
    requires InRange(c, ballPosition)
    ensures var s := CandidateSize(c);
      && (c.kind == 0 ==> 40.0 <= s.x <= 120.0 && 20.0 <= s.y <= 60.0)
      && (c.kind != 0 ==> 20.0 <= s.x <= 60.0 && 40.0 <= s.y <= 120.0)
  {
  }

  /** A batch never adds more obstacles than it drew candidates. */
  lemma {:induction false} AcceptedLength(ballPosition: Vec2, cs: seq<Candidate>, existing: seq<Obstacles.Obstacle>, minDistance: real)
    requires forall i :: 0 <= i < |cs| ==> InRange(cs[i], ballPosition)
    ensures |Accepted(ballPosition, cs, existing, minDistance)| <= |cs|
    decreases |cs|
  {
    if |cs| > 0 {
      AcceptedLength(ballPosition, cs[..|cs| - 1], existing, minDistance);
    }
  }

  /** Every added obstacle comes from a candidate that passed the validity test against
      the obstacles existing before the batch; it is centred in the generation region,
      has one side in [40, 120] and the other in [20, 60], and one of the three
      colours. */
  lemma {:induction false} AcceptedAreValid(ballPosition: Vec2, cs: seq<Candidate>, existing: seq<Obstacles.Obstacle>, minDistance: real)
    requires forall i :: 0 <= i < |cs| ==> InRange(cs[i], ballPosition)
    ensures forall o :: o in Accepted(ballPosition, cs, existing, minDistance) ==>
      exists i :: 0 <= i < |cs| && o == Realise(cs[i]) && Kept(cs[i], ballPosition, existing, minDistance)
    ensures forall o :: o in Accepted(ballPosition, cs, existing, minDistance) ==>
      && ValidPosition(o.position, o.size, ballPosition, BallRadius, existing, minDistance)
      && ballPosition.x + 300.0 <= o.position.x <= ballPosition.x + 1500.0
      && ballPosition.y - 600.0 <= o.position.y <= ballPosition.y + 600.0
      && ((40.0 <= o.size.x <= 120.0 && 20.0 <= o.size.y <= 60.0) || (20.0 <= o.size.x <= 60.0 && 40.0 <= o.size.y <= 120.0))
      && o.color in {Palette(0), Palette(1), Palette(2)}
    decreases |cs|
  {
    if |cs| > 0 {
      var init := cs[..|cs| - 1];
      var c := cs[|cs| - 1];
      AcceptedAreValid(ballPosition, init, existing, minDistance);
      CandidateSizeRange(c, ballPosition);
      forall o | o in Accepted(ballPosition, cs, existing, minDistance)
        ensures exists i :: 0 <= i < |cs| && o == Realise(cs[i]) && Kept(cs[i], ballPosition, existing, minDistance)
      {
        if o in Accepted(ballPosition, init, existing, minDistance) {
          var i :| 0 <= i < |init| && o == Realise(init[i]) && Kept(init[i], ballPosition, existing, minDistance);
          assert cs[i] == init[i];
        } else {
          assert o == Realise(c) && cs[|cs| - 1] == c;
        }
      }
    }
  }

  /** When every candidate passes the test, the batch adds all of them, in order. */
  lemma {:induction false} AllKept(ballPosition: Vec2, cs: seq<Candidate>, existing: seq<Obstacles.Obstacle>, minDistance: real)
    requires forall i :: 0 <= i < |cs| ==> InRange(cs[i], ballPosition)
    requires forall i :: 0 <= i < |cs| ==> Kept(cs[i], ballPosition, existing, minDistance)
    ensures |Accepted(ballPosition, cs, existing, minDistance)| == |cs|
    ensures forall i :: 0 <= i < |cs| ==> Accepted(ballPosition, cs, existing, minDistance)[i] == Realise(cs[i])
    decreases |cs|
  {
    if |cs| > 0 {
      AllKept(ballPosition, cs[..|cs| - 1], existing, minDistance);
    }
  }

  /** The candidate used by the two examples below. */
  const Sample: Candidate := Candidate(1000.0, 0.0, 0, 40.0, 40.0, 2)

  /** All candidates of a batch are checked against the same list, so a batch can put
      two obstacles on top of each other: two equal candidates far from everything are
      both kept. */
  lemma BatchMayOverlap()
    ensures var added := Accepted(Zero, [Sample, Sample], [], 100.0);
      |added| == 2 && added[0] == added[1]
      && Intersects(Obstacles.Bounds(added[0]), Obstacles.Bounds(added[1]))
  {
    assert DistSq(CandidateCentre(Sample), Zero) == 1000000.0;
    assert Kept(Sample, Zero, [], 100.0);
    AllKept(Zero, [Sample, Sample], [], 100.0);
  }

  /** An obstacle far away from the generation region. */
  const FarObstacle: Obstacles.Obstacle := Obstacles.New(Vec2(-10000.0, -10000.0), Vec2(10.0, 10.0), Palette(2))

  lemma FarObstacleIsClear(c: Candidate)
    requires InRange(c, Zero)
    ensures ClearOf(CandidateCentre(c), CandidateSize(c), FarObstacle)
  {
    CandidateSizeRange(c, Zero);
  }

  lemma SampleKeptAmongFar(existing: seq<Obstacles.Obstacle>)
    requires forall i :: 0 <= i < |existing| ==> existing[i] == FarObstacle
    ensures Kept(Sample, Zero, existing, 100.0)
  {
    FarObstacleIsClear(Sample);
    assert DistSq(CandidateCentre(Sample), Zero) == 1000000.0;
  }

  /** The cap is tested before the batch, so the obstacle count can pass it: with 29
      obstacles a batch of three accepted candidates leaves 32. */
  lemma CapCanBeExceeded()
    ensures var existing := seq(29, _ => FarObstacle);
      |existing| < 30 && |existing| + |Accepted(Zero, [Sample, Sample, Sample], existing, 100.0)| == 32
  {
    var existing := seq(29, _ => FarObstacle);
    SampleKeptAmongFar(existing);
    AllKept(Zero, [Sample, Sample, Sample], existing, 100.0);
  }

  /** Below the cap a batch adds at most three, so the count never exceeds 32. */
  lemma CountBound(ballPosition: Vec2, cs: seq<Candidate>, existing: seq<Obstacles.Obstacle>, minDistance: real)
    requires 1 <= |cs| <= MaxBatch && |existing| < 30
    requires forall i :: 0 <= i < |cs| ==> InRange(cs[i], ballPosition)
    ensures |existing| + |Accepted(ballPosition, cs, existing, minDistance)| <= 32
  {
    AcceptedLength(ballPosition, cs, existing, minDistance);
  }

  /** Each axis of the distance test: a box edge-to-edge no wider than 120 whose centre
      is more than 84 from the ball along one axis is more than 24 from it on that axis. */
  lemma AxisGap(b: real, lo: real, size: real, e: real, d: real)
    requires 0.0 <= size <= 120.0
    requires e == b - (lo + size / 2.0) && e * e >= 7200.0
    requires d == b - Max(lo, Min(b, lo + size))
    ensures d * d > 576.0
  {
    if -84.0 <= e <= 84.0 {
      Balls.SquareLe(e, if e >= 0.0 then 84.0 else -84.0);
    }
    if e > 84.0 {
      assert d > 24.0;
      Balls.SquareLt(d, 24.0);
    } else {
      assert d < -24.0;
      Balls.SquareLt(-d, 24.0);
    }
  }

  /** A kept candidate is never placed against the ball: a ball of the assumed radius
      (or smaller) at the ball position is clear of the new obstacle's box. */
  lemma KeptIsClearOfBall(c: Candidate, ballPosition: Vec2, existing: seq<Obstacles.Obstacle>, s: Balls.BallState)
    requires InRange(c, ballPosition) && Kept(c, ballPosition, existing, 100.0)
    requires s.position == ballPosition && 0.0 <= s.radius <= BallRadius
    ensures LenSq(Balls.ToCentre(s, Realise(c))) > BallRadius * BallRadius
    ensures !Balls.Hits(s, Realise(c))
  {
    var size := CandidateSize(c);
    CandidateSizeRange(c, ballPosition);
    var b := Obstacles.Bounds(Realise(c));
    assert b == CandidateBox(CandidateCentre(c), size);
    var dx, dy := ballPosition.x - c.x, ballPosition.y - c.y;
    assert dx * dx + dy * dy >= 14400.0 by {
      assert DistSq(CandidateCentre(c), ballPosition) >= 14400.0;
      assert (c.x - ballPosition.x) * (c.x - ballPosition.x) == dx * dx;
      assert (c.y - ballPosition.y) * (c.y - ballPosition.y) == dy * dy;
    }
    var t := Balls.ToCentre(s, Realise(c));
    ClearAlongAxes(ballPosition, b, t, dx, dy);
    Balls.SquareLe(s.radius, BallRadius);
  }

  lemma ClearAlongAxes(p: Vec2, b: Rect, t: Vec2, dx: real, dy: real)
    requires 0.0 <= b.size.x <= 120.0 && 0.0 <= b.size.y <= 120.0
    requires dx == p.x - (b.position.x + b.size.x / 2.0) && dy == p.y - (b.position.y + b.size.y / 2.0)
    requires dx * dx + dy * dy >= 14400.0
    requires t == Sub(p, Balls.ClosestPoint(b, p))
    ensures LenSq(t) > 576.0
  {
    var ex := p.x - Max(b.position.x, Min(p.x, b.position.x + b.size.x));
    var ey := p.y - Max(b.position.y, Min(p.y, b.position.y + b.size.y));
    assert t == Vec2(ex, ey);
    OneSquareLarge(dx, dy);
    if dx * dx >= 7200.0 {
      AxisGap(p.x, b.position.x, b.size.x, dx, ex);
    } else {
      AxisGap(p.y, b.position.y, b.size.y, dy, ey);
    }
    SquareSumAbove(t, ex, ey);
  }

  /** When a sum of two squares reaches 14400, one of them reaches half of that. */
  lemma OneSquareLarge(a: real, b: real)
    requires a * a + b * b >= 14400.0
    ensures a * a >= 7200.0 || b * b >= 7200.0
  {
  }

  /** A vector with one component whose square is above 576 has squared length above 576. */
  lemma SquareSumAbove(t: Vec2, a: real, b: real)
    requires t == Vec2(a, b) && (a * a > 576.0 || b * b > 576.0)
    ensures LenSq(t) > 576.0
  {
    assert 0.0 <= a * a && 0.0 <= b * b;
    assert LenSq(t) == a * a + b * b;
  }

  /** Generating from the ball position makes the ball position the reference point,
      from which no further generation is due. */
  lemma NotDueAtReference(p: Vec2)
    ensures !Beyond(p, p, 500.0)
  {
  }

  lemma AsEntitiesSnoc(obs: seq<Obstacles.Obstacle>, o: Obstacles.Obstacle)
    ensures AsEntities(obs + [o]) == AsEntities(obs) + [ObstacleEntity(o)]
  {
  }

  /** After a batch, findObstacles sees the old obstacles followed by the new ones. */
  lemma ObstaclesAfterBatch(entities: seq<Entity>, added: seq<Obstacles.Obstacle>)
    ensures ObstaclesOf(entities + AsEntities(added)) == ObstaclesOf(entities) + added
  {
    ObstaclesOfAppend(entities, AsEntities(added));
    ObstaclesOfAsEntities(added);
  }

  /** A batch adds no ball, so the ball objects and the one findBall returns (or its
      absence) are the same as before. */
  lemma BallsAfterBatch(entities: seq<Entity>, added: seq<Obstacles.Obstacle>)
    ensures BallsOf(entities + AsEntities(added)) == BallsOf(entities)
    ensures var k := FirstBallIndex(entities); var all := entities + AsEntities(added);
      && (k < |entities| ==> FirstBallIndex(all) == k && all[k] == entities[k])
      && (k == |entities| ==> FirstBallIndex(all) == |all|)
  {
    var all := entities + AsEntities(added);
    forall b | b in BallsOf(all) ensures b in BallsOf(entities) {
      var i :| 0 <= i < |all| && all[i].BallEntity? && all[i].ball == b;
      assert i < |entities|;
    }
    forall b | b in BallsOf(entities) ensures b in BallsOf(all) {
      var i :| 0 <= i < |entities| && entities[i].BallEntity? && entities[i].ball == b;
      assert all[i] == entities[i];
    }
    FirstBallAfterBatch(entities, added);
  }

  lemma FirstBallAfterBatch(entities: seq<Entity>, added: seq<Obstacles.Obstacle>)
    ensures var k := FirstBallIndex(entities); var all := entities + AsEntities(added);
      && (k < |entities| ==> FirstBallIndex(all) == k && all[k] == entities[k])
      && (k == |entities| ==> FirstBallIndex(all) == |all|)
  {
    var all := entities + AsEntities(added);
    var k := FirstBallIndex(entities);
    if k < |entities| {
      assert all[k] == entities[k];
      FirstBallIndexIsFirst(all, k);
    } else {
      forall j | 0 <= j < |all| ensures !all[j].BallEntity? {
        if j >= |entities| {
          assert all[j] == AsEntities(added)[j - |entities|];
        }
      }
      FirstBallIndexIsFirst(all, |all|);
    }
  }

  // ---------------------------------------------------------------------------
  // The class
  // ---------------------------------------------------------------------------

  class ObstacleGenerator {
    var lastGenerationPos: Vec2
    const obstacleGenerationDistance: real := 500.0
    const minObstacleDistance: real := 100.0
    const maxObstacleCount: int := 30

    constructor()
      ensures lastGenerationPos == Zero
    {
      lastGenerationPos := Zero;
    }

    /** shouldGenerateObstacles: the ball is more than 500 from the last batch's point. */
    method ShouldGenerateObstacles(currentPosition: Vec2) returns (due: bool)
      ensures due <==> Beyond(currentPosition, lastGenerationPos, obstacleGenerationDistance)
      ensures due <==> DistSq(currentPosition, lastGenerationPos) > 250000.0
    {
      var dx := currentPosition.x - lastGenerationPos.x;
      var dy := currentPosition.y - lastGenerationPos.y;
      due := dx * dx + dy * dy > obstacleGenerationDistance * obstacleGenerationDistance;
    }

    /** isValidObstaclePosition */
    method IsValidObstaclePosition(pos: Vec2, size: Vec2, ballPosition: Vec2, ballRadius: real,
                                   obstacles: seq<Obstacles.Obstacle>)
      returns (valid: bool)
      ensures valid == ValidPosition(pos, size, ballPosition, ballRadius, obstacles, minObstacleDistance)
    {
      var limit := minObstacleDistance + ballRadius;
      var dx, dy := pos.x - ballPosition.x, pos.y - ballPosition.y;
      if limit > 0.0 && dx * dx + dy * dy < limit * limit {
        return false;
      }
      var newBounds := Rect(Vec2(pos.x - size.x / 2.0, pos.y - size.y / 2.0), size);
      var i := 0;
      while i < |obstacles|
        invariant 0 <= i <= |obstacles|
        invariant forall j :: 0 <= j < i ==> ClearOf(pos, size, obstacles[j])
      {
        var b := Obstacles.Bounds(obstacles[i]);
        var existing := Rect(Vec2(b.position.x - 20.0, b.position.y - 20.0), Vec2(b.size.x + 40.0, b.size.y + 40.0));
        var doesIntersect := !(
          existing.position.x + existing.size.x < newBounds.position.x ||
          existing.position.y + existing.size.y < newBounds.position.y ||
          existing.position.x > newBounds.position.x + newBounds.size.x ||
          existing.position.y > newBounds.position.y + newBounds.size.y);
        if doesIntersect {
          return false;
        }
        i := i + 1;
      }
      return true;
    }

    /** updateLastGenerationPosition */
    method UpdateLastGenerationPosition(position: Vec2)
      modifies this
      ensures lastGenerationPos == position
    {
      lastGenerationPos := position;
    }

    /** generateObstacles: below the cap, the kept candidates are appended to the entity
        list in draw order and the ball position becomes the reference point; at the
        cap nothing happens. */
    method GenerateObstacles(ballPosition: Vec2, entities: seq<Entity>, existingObstacles: seq<Obstacles.Obstacle>,
                             draws: seq<Candidate>)
      returns (newEntities: seq<Entity>)
      requires 1 <= |draws| <= MaxBatch
      requires forall i :: 0 <= i < |draws| ==> InRange(draws[i], ballPosition)
      modifies this
      ensures |existingObstacles| >= maxObstacleCount ==>
        newEntities == entities && lastGenerationPos == old(lastGenerationPos)
      ensures |existingObstacles| < maxObstacleCount ==>
        && newEntities == entities + AsEntities(Accepted(ballPosition, draws, existingObstacles, minObstacleDistance))
        && lastGenerationPos == ballPosition
    {
      if |existingObstacles| >= maxObstacleCount {
        return entities;
      }
      newEntities := entities;
      var i := 0;
      while i < |draws|
        invariant 0 <= i <= |draws|
        invariant newEntities == entities + AsEntities(Accepted(ballPosition, draws[..i], existingObstacles, minObstacleDistance))
      {
        var c := draws[i];
        assert draws[..i + 1][..i] == draws[..i];
        var width, height;
        if c.kind == 0 {
          width, height := c.size1, c.size2 / 2.0;
        } else {
          width, height := c.size1 / 2.0, c.size2;
        }
        var position, size := Vec2(c.x, c.y), Vec2(width, height);
        var valid := IsValidObstaclePosition(position, size, ballPosition, BallRadius, existingObstacles);
        if valid {
          var color := Palette(c.color);
          AsEntitiesSnoc(Accepted(ballPosition, draws[..i], existingObstacles, minObstacleDistance), Realise(c));
          newEntities := newEntities + [ObstacleEntity(Obstacles.New(position, size, color))];
        }
        i := i + 1;
      }
      assert draws[..i] == draws;
      UpdateLastGenerationPosition(ballPosition);
    }
  }
}
