/** The game of src/core/Game.cpp: it picks the view's aspect ratio from the window's,
    runs one frame (physics, particles, obstacle generation, collisions, camera), and
    lays out the checkerboard background. */
module CoreGame {
  import opened Geometry
  import Obstacles
  import Balls
  import opened Entities
  import Physics
  import ParticleSystems
  import ObstacleGen

  // ---------------------------------------------------------------------------
  // Aspect ratios and zoom
  // ---------------------------------------------------------------------------

  datatype AspectRatio = AspectRatio(name: string, value: real)

  /** The standard ratios, in the order they are searched. */
  const StandardRatios: seq<AspectRatio> := [
    AspectRatio("4:3", 4.0 / 3.0),
    AspectRatio("16:9", 16.0 / 9.0),
    AspectRatio("16:10", 16.0 / 10.0),
    AspectRatio("21:9", 21.0 / 9.0),
    AspectRatio("32:9", 32.0 / 9.0)]

  /** The zoom factor per ratio name (smaller is further out). */
  const ZoomFactors: map<string, real> :=
    map["4:3" := 1.0, "16:9" := 0.8, "16:10" := 1.0, "21:9" := 1.0, "32:9" := 1.0]

  const DefaultRatio: real := 16.0 / 9.0
  /** The largest finite float, the search's initial difference. */
  const FltMax: real := 340282346638528859811704183484516925440.0
  /** Two ratios closer than this share a name. */
  const NameTolerance: real := 0.01

  /** The window's aspect ratio width / height. A zero height makes the float quotient
      infinite or NaN, which every comparison below rejects: that is `None`. */
  function WindowAspect(width: nat, height: nat): (r: Option<real>)
    ensures r.Some? <==> height != 0
    ensures r.Some? ==> r.value * height as real == width as real
  {
    if height == 0 then None else Some(width as real / height as real)
  }

  function Diff(r: AspectRatio, target: real): real { Abs(r.value - target) }

  /** The index of the earliest entry with the least difference to the target. */
  function ArgMin(rs: seq<AspectRatio>, target: real): (k: nat)
    requires |rs| > 0
    ensures k < |rs|
    ensures forall j :: 0 <= j < |rs| ==> Diff(rs[k], target) <= Diff(rs[j], target)
    ensures forall j :: 0 <= j < k ==> Diff(rs[k], target) < Diff(rs[j], target)
    decreases |rs|
  {
    if |rs| == 1 then 0
    else
      var k := ArgMin(rs[..|rs| - 1], target);
      if Diff(rs[|rs| - 1], target) < Diff(rs[k], target) then |rs| - 1 else k
  }

  /** findClosestAspectRatio: the nearest standard ratio, the earliest one on a tie;
      16:9 when no difference is below the initial FLT_MAX. */
  function ClosestRatio(target: Option<real>): real {
    ClosestIn(StandardRatios, target)
  }

  /** The same search over any nonempty table. */
  function ClosestIn(rs: seq<AspectRatio>, target: Option<real>): real
    requires |rs| > 0
  {
    match target
    case None => DefaultRatio
    case Some(t) =>
      var k := ArgMin(rs, t);
      if Diff(rs[k], t) < FltMax then rs[k].value else DefaultRatio
  }

  /** The ratio-name loop: the first entry within 0.01 of the ratio, or "". */
  function NameOf(rs: seq<AspectRatio>, ratio: real): (name: string)
    ensures name == "" || exists k :: 0 <= k < |rs| && rs[k].name == name
  {
    if |rs| == 0 then ""
    else if Abs(rs[0].value - ratio) < NameTolerance then rs[0].name
    else
      var rest := NameOf(rs[1..], ratio);
      assert rest != "" ==> exists k :: 0 <= k < |rs| && rs[k].name == rest by {
        if rest != "" {
          var k :| 0 <= k < |rs[1..]| && rs[1..][k].name == rest;
          assert rs[k + 1].name == rest;
        }
      }
      rest
  }

  /** The zoom factor looked up by name, 1.0 when there is no name or no entry. */
  function Zoom(name: string): (z: real)
    ensures z == 0.8 || z == 1.0
  {
    if name != "" && name in ZoomFactors then ZoomFactors[name] else 1.0
  }

  /** The view for a chosen ratio: its height is the original window height divided by
      the zoom factor, its width that height times the ratio. */
  function ViewSize(originalHeight: real, ratio: real): Vec2 {
    var height := originalHeight / ZoomFor(ratio);
    Vec2(height * ratio, height)
  }

  /** The zoom factor of a chosen ratio, found through its name. */
  function ZoomFor(ratio: real): (z: real)
    ensures z == 0.8 || z == 1.0
  {
    Zoom(NameOf(StandardRatios, ratio))
  }

  /** The centre of a view of the given size whose corner is at the origin. */
  function Centre(size: Vec2): Vec2 {
    Vec2(size.x / 2.0, size.y / 2.0)
  }

  /** The shared computation of the constructor and handleResize. */
  method ComputeViewSize(width: nat, height: nat, originalHeight: real) returns (size: Vec2)
    ensures size == ViewSize(originalHeight, ClosestRatio(WindowAspect(width, height)))
  {
    var windowAspectRatio := WindowAspect(width, height);
    var closestRatio := FindClosestAspectRatio(windowAspectRatio);
    size := ViewSizeFor(closestRatio, originalHeight);
  }

  /** The view for the chosen ratio: its name, the zoom factor (1.0 when not found),
      then the height from the original height. */
  method ViewSizeFor(closestRatio: real, originalHeight: real) returns (size: Vec2)
    ensures size == ViewSize(originalHeight, closestRatio)
  {
    var ratioName := FindRatioName(closestRatio);
    var zoomFactor := Zoom(ratioName);
    assert zoomFactor == ZoomFor(closestRatio);
    var viewHeight := originalHeight / zoomFactor;
    var viewWidth := viewHeight * closestRatio;
    size := Vec2(viewWidth, viewHeight);
  }

  /** findClosestAspectRatio. */
  method FindClosestAspectRatio(target: Option<real>) returns (closestRatio: real)
    ensures closestRatio == ClosestRatio(target)
  {
    closestRatio := SearchClosest(StandardRatios, target);
  }

  /** The search loop of findClosestAspectRatio over the table `rs`. */
  method SearchClosest(rs: seq<AspectRatio>, target: Option<real>) returns (closestRatio: real)
    requires |rs| > 0
    ensures closestRatio == ClosestIn(rs, target)
  {
    var closestDiff := FltMax;
    closestRatio := DefaultRatio;
    var i := 0;
    assert rs[..0] == [];
    while i < |rs|
      invariant 0 <= i <= |rs|
      invariant (closestDiff, closestRatio) == Chosen(rs[..i], target)
    {
      ChosenStep(rs, i, target);
      if target.Some? {
        var diff := Abs(rs[i].value - target.value);
        if diff < closestDiff {
          closestDiff := diff;
          closestRatio := rs[i].value;
        }
      }
      i := i + 1;
    }
    assert rs[..i] == rs;
  }

  /** The difference and ratio the search holds after scanning `rs`. */
  ghost function Chosen(rs: seq<AspectRatio>, target: Option<real>): (real, real) {
    if |rs| == 0 || target.None? then (FltMax, DefaultRatio)
    else
      var k := ArgMin(rs, target.value);
      if Diff(rs[k], target.value) < FltMax then (Diff(rs[k], target.value), rs[k].value)
      else (FltMax, DefaultRatio)
  }

  /** One pass of the search loop: a strictly smaller difference replaces the held one. */
  lemma ChosenStep(rs: seq<AspectRatio>, i: nat, target: Option<real>)
    requires i < |rs|
    ensures Chosen(rs[..i + 1], target) ==
      if target.Some? && Diff(rs[i], target.value) < Chosen(rs[..i], target).0
      then (Diff(rs[i], target.value), rs[i].value) else Chosen(rs[..i], target)
  {
    assert rs[..i + 1][..i] == rs[..i];
    assert rs[..i + 1][i] == rs[i];
  }

  /** The loop that names the chosen ratio (it stops at the first match). */
  method FindRatioName(closestRatio: real) returns (ratioName: string)
    ensures ratioName == NameOf(StandardRatios, closestRatio)
  {
    var rs := StandardRatios;
    ratioName := "";
    var i := 0;
    while i < |rs|
      invariant 0 <= i <= |rs|
      invariant NameOf(rs, closestRatio) == NameOf(rs[i..], closestRatio)
      invariant ratioName == ""
    {
      if Abs(rs[i].value - closestRatio) < NameTolerance {
        ratioName := rs[i].name;
        break;
      }
      assert rs[i..][1..] == rs[i + 1..];
      i := i + 1;
    }
  }

  // Properties of the ratio choice

  /** The chosen ratio is always one of the five standard ratios. */
  lemma ClosestIsStandard(target: Option<real>)
    ensures exists k :: 0 <= k < |StandardRatios| && ClosestRatio(target) == StandardRatios[k].value
  {
    if ClosestRatio(target) == DefaultRatio {
      assert StandardRatios[1].value == DefaultRatio;
    }
  }

  /** For a window of at most 2^32 pixels each way (the range of unsigned int) with a
      nonzero height, the chosen ratio is a nearest standard ratio, and no earlier entry
      is as near: ties go to the earlier entry. */
  lemma ClosestIsNearestEarliest(width: nat, height: nat)
    requires width < 0x1_0000_0000 && 0 < height < 0x1_0000_0000
    ensures var t := width as real / height as real;
      exists k :: 0 <= k < |StandardRatios|
        && ClosestRatio(WindowAspect(width, height)) == StandardRatios[k].value
        && (forall j :: 0 <= j < |StandardRatios| ==> Diff(StandardRatios[k], t) <= Diff(StandardRatios[j], t))
        && (forall j :: 0 <= j < k ==> Diff(StandardRatios[k], t) < Diff(StandardRatios[j], t))
  {
    var t := width as real / height as real;
    QuotientBound(width as real, height as real);
    var k := ArgMin(StandardRatios, t);
    assert Diff(StandardRatios[k], t) <= Diff(StandardRatios[0], t);
    assert Diff(StandardRatios[k], t) < FltMax;
  }

  lemma QuotientBound(w: real, h: real)
    requires 0.0 <= w && 1.0 <= h
    ensures 0.0 <= w / h <= w
  {
    var t := w / h;
    assert t * h == w;
    assert w - t == t * (h - 1.0);
    MulNonNegative(t, h - 1.0);
  }

  lemma MulNonNegative(a: real, b: real)
    requires 0.0 <= a && 0.0 <= b
    ensures 0.0 <= a * b
  {
  }

  /** A window with a zero height gets the default 16:9. */
  lemma ZeroHeightGetsDefault(width: nat)
    ensures ClosestRatio(WindowAspect(width, 0)) == 16.0 / 9.0
  {
  }

  /** Each standard ratio is named by its own entry: the five values are more than 0.01
      apart, so the name loop stops at the entry itself. */
  lemma {:induction false} StandardRatiosNamed(k: nat)
    requires k < |StandardRatios|
    ensures NameOf(StandardRatios, StandardRatios[k].value) == StandardRatios[k].name
  {
    var rs := StandardRatios;
    var v := rs[k].value;
    assert rs[1..] == [rs[1], rs[2], rs[3], rs[4]];
    assert rs[2..] == [rs[2], rs[3], rs[4]];
    assert rs[3..] == [rs[3], rs[4]];
    assert rs[4..] == [rs[4]];
    if k == 0 {
    } else if k == 1 {
      assert NameOf(rs, v) == NameOf(rs[1..], v);
    } else if k == 2 {
      assert NameOf(rs, v) == NameOf(rs[1..], v) == NameOf(rs[2..], v);
    } else if k == 3 {
      assert NameOf(rs, v) == NameOf(rs[1..], v) == NameOf(rs[2..], v) == NameOf(rs[3..], v);
    } else {
      assert NameOf(rs, v) == NameOf(rs[1..], v) == NameOf(rs[2..], v) == NameOf(rs[3..], v) == NameOf(rs[4..], v);
    }
  }

  /** The zoom rule: the view is zoomed out to 0.8 exactly when the chosen ratio is
      16:9, and kept at 1.0 for every other ratio. */
  lemma ZoomRule(target: Option<real>)
    ensures ZoomFor(ClosestRatio(target)) == if ClosestRatio(target) == 16.0 / 9.0 then 0.8 else 1.0
  {
    ClosestIsStandard(target);
    var k :| 0 <= k < |StandardRatios| && ClosestRatio(target) == StandardRatios[k].value;
    StandardRatiosNamed(k);
    StandardZoom(k);
  }

  /** Only the 16:9 entry has a zoom factor other than 1. */
  lemma StandardZoom(k: nat)
    requires k < |StandardRatios|
    ensures Zoom(StandardRatios[k].name) == if StandardRatios[k].value == 16.0 / 9.0 then 0.8 else 1.0
  {
    if k == 0 {
      assert Zoom("4:3") == 1.0;
    } else if k == 1 {
      assert Zoom("16:9") == 0.8;
    } else if k == 2 {
      assert Zoom("16:10") == 1.0;
    } else if k == 3 {
      assert Zoom("21:9") == 1.0;
    } else {
      assert Zoom("32:9") == 1.0;
    }
  }

  /** The view's width over its height is the chosen ratio, whatever the zoom. */
  lemma ViewAspectIsRatio(originalHeight: real, ratio: real)
    requires originalHeight != 0.0
    ensures var v := ViewSize(originalHeight, ratio); v.y != 0.0 && v.x / v.y == ratio
  {
    var z := ZoomFor(ratio);
    var h := originalHeight / z;
    assert h * z == originalHeight;
    assert h != 0.0;
  }

  // ---------------------------------------------------------------------------
  // The checkerboard background
  // ---------------------------------------------------------------------------

  const TileSize: real := 50.0
  /** Extra tiles drawn beyond the view on every side. */
  const TileMargin: int := 5
  const LightGreen: Obstacles.Color := Obstacles.Rgb(40, 130, 40)
  const DarkGreen: Obstacles.Color := Obstacles.Rgb(30, 100, 30)

  datatype Tile = Tile(position: Vec2, color: Obstacles.Color)

  /** The tile in row `row` and column `col`; C++'s `%` decides the colour. */
  function TileAt(row: int, col: int): Tile {
    Tile(Vec2(col as real * TileSize, row as real * TileSize),
         if CppRem(row + col, 2) == 0 then LightGreen else DarkGreen)
  }

  datatype TileRange = TileRange(startRow: int, endRow: int, startCol: int, endCol: int)

  /** The rows and columns drawn for a view: the truncated tile index of each edge,
      widened by five tiles. */
  function TilesFor(center: Vec2, size: Vec2): TileRange {
    var left := center.x - size.x / 2.0;
    var top := center.y - size.y / 2.0;
    var right := center.x + size.x / 2.0;
    var bottom := center.y + size.y / 2.0;
    TileRange(TruncToInt(top / TileSize) - TileMargin, TruncToInt(bottom / TileSize) + TileMargin,
              TruncToInt(left / TileSize) - TileMargin, TruncToInt(right / TileSize) + TileMargin)
  }

  /** Columns c0 … c1 (inclusive) of one row, left to right. */
  function Row(row: int, c0: int, c1: int): (r: seq<Tile>)
    ensures |r| == if c1 < c0 then 0 else c1 - c0 + 1
    ensures forall i :: 0 <= i < |r| ==> r[i] == TileAt(row, c0 + i)
    decreases c1 - c0
  {
    if c1 < c0 then [] else Row(row, c0, c1 - 1) + [TileAt(row, c1)]
  }

  /** Rows r0 … r1 (inclusive), top to bottom. */
  function Rows(r0: int, r1: int, c0: int, c1: int): seq<Tile>
    decreases r1 - r0
  {
    if r1 < r0 then [] else Rows(r0, r1 - 1, c0, c1) + Row(r1, c0, c1)
  }

  /** Every tile of the range is drawn, and only those. */
  lemma {:induction false} RowsContents(r0: int, r1: int, c0: int, c1: int)
    ensures forall row, col :: r0 <= row <= r1 && c0 <= col <= c1 ==> TileAt(row, col) in Rows(r0, r1, c0, c1)
    ensures forall t :: t in Rows(r0, r1, c0, c1) ==>
      exists row, col :: r0 <= row <= r1 && c0 <= col <= c1 && t == TileAt(row, col)
    decreases r1 - r0
  {
    if r1 >= r0 {
      RowsContents(r0, r1 - 1, c0, c1);
      forall row, col | r0 <= row <= r1 && c0 <= col <= c1
        ensures TileAt(row, col) in Rows(r0, r1, c0, c1)
      {
        if row == r1 {
          assert Row(r1, c0, c1)[col - c0] == TileAt(row, col);
        }
      }
      forall t | t in Row(r1, c0, c1)
        ensures exists row, col :: r0 <= row <= r1 && c0 <= col <= c1 && t == TileAt(row, col)
      {
        var i :| 0 <= i < |Row(r1, c0, c1)| && Row(r1, c0, c1)[i] == t;
        assert t == TileAt(r1, c0 + i);
      }
    }
  }

  /** The checkerboard: a tile is light green exactly when row + column is even, and
      neighbours in a row or a column differ. */
  lemma Checkerboard(row: int, col: int)
    ensures TileAt(row, col).color == LightGreen <==> (row + col) % 2 == 0
    ensures TileAt(row, col).color != TileAt(row, col + 1).color
    ensures TileAt(row, col).color != TileAt(row + 1, col).color
  {
    TileColour(row, col);
    TileColour(row, col + 1);
    TileColour(row + 1, col);
    assert (row + col) % 2 == 0 <==> (row + col + 1) % 2 == 1;
  }

  /** A tile's colour follows the parity of row + column. */
  lemma TileColour(row: int, col: int)
    ensures TileAt(row, col).color == if (row + col) % 2 == 0 then LightGreen else DarkGreen
  {
    CppRemTwoParity(row + col);
  }

  /** The drawn tiles cover the view with room to spare: at least four whole tiles
      beyond each edge. */
  lemma TilesCoverView(center: Vec2, size: Vec2)
    ensures var r := TilesFor(center, size);
      && r.startCol as real * TileSize <= center.x - size.x / 2.0 - 4.0 * TileSize
      && (r.endCol + 1) as real * TileSize >= center.x + size.x / 2.0 + 4.0 * TileSize
      && r.startRow as real * TileSize <= center.y - size.y / 2.0 - 4.0 * TileSize
      && (r.endRow + 1) as real * TileSize >= center.y + size.y / 2.0 + 4.0 * TileSize
  {
    TruncBounds(center.x - size.x / 2.0);
    TruncBounds(center.x + size.x / 2.0);
    TruncBounds(center.y - size.y / 2.0);
    TruncBounds(center.y + size.y / 2.0);
  }

  /** Truncation moves a tile index by less than one either way. */
  lemma TruncBounds(x: real)
    ensures (TruncToInt(x / TileSize) - TileMargin) as real * TileSize <= x - 4.0 * TileSize
    ensures (TruncToInt(x / TileSize) + TileMargin + 1) as real * TileSize >= x + 4.0 * TileSize
  {
    var q := x / TileSize;
    assert q * TileSize == x;
    var n := TruncToInt(q);
    assert n as real - 1.0 < q < n as real + 1.0;
  }

  /** The two loops of drawBackground: rows top to bottom, each left to right, both
      bounds inclusive. */
  method DrawTiles(startRow: int, endRow: int, startCol: int, endCol: int) returns (tiles: seq<Tile>)
    ensures tiles == Rows(startRow, endRow, startCol, endCol)
  {
    tiles := [];
    var row := startRow;
    while row <= endRow
      invariant row == startRow || startRow <= row <= endRow + 1
      invariant tiles == Rows(startRow, row - 1, startCol, endCol)
      decreases endRow - row
    {
      var col := startCol;
      while col <= endCol
        invariant col == startCol || startCol <= col <= endCol + 1
        invariant tiles == Rows(startRow, row - 1, startCol, endCol) + Row(row, startCol, col - 1)
        decreases endCol - col
      {
        var isEvenTile := CppRem(row + col, 2) == 0;
        var color := if isEvenTile then LightGreen else DarkGreen;
        tiles := tiles + [Tile(Vec2(col as real * TileSize, row as real * TileSize), color)];
        col := col + 1;
      }
      assert Row(row, startCol, col - 1) == Row(row, startCol, endCol);
      assert Rows(startRow, row, startCol, endCol) == Rows(startRow, row - 1, startCol, endCol) + Row(row, startCol, endCol);
      row := row + 1;
    }
  }

  // ---------------------------------------------------------------------------
  // The game
  // ---------------------------------------------------------------------------

  /** Draws for the obstacle generator are given relative to the ball (the generation
      area moves with it); this places them. */
  function Place(c: ObstacleGen.Candidate, ballPosition: Vec2): (r: ObstacleGen.Candidate)
    ensures ObstacleGen.InRange(c, Zero) <==> ObstacleGen.InRange(r, ballPosition)
    ensures r.x - ballPosition.x == c.x && r.y - ballPosition.y == c.y
    ensures r.(x := c.x, y := c.y) == c
  {
    c.(x := c.x + ballPosition.x, y := c.y + ballPosition.y)
  }

  function Placed(draws: seq<ObstacleGen.Candidate>, ballPosition: Vec2): (r: seq<ObstacleGen.Candidate>)
    requires forall i :: 0 <= i < |draws| ==> ObstacleGen.InRange(draws[i], Zero)
    ensures |r| == |draws|
    ensures forall i :: 0 <= i < |r| ==> ObstacleGen.InRange(r[i], ballPosition)
    ensures forall i :: 0 <= i < |r| ==> r[i] == Place(draws[i], ballPosition)
  {
    seq(|draws|, i requires 0 <= i < |draws| => Place(draws[i], ballPosition))
  }

  /** Whether a frame generates obstacles: the ball is more than 500 from the point of
      the last generation and there are fewer than 30 obstacles. */
  predicate Generates(es: seq<Entity>, ballPosition: Vec2, lastGenerationPos: Vec2) {
    ObstacleGen.Beyond(ballPosition, lastGenerationPos, 500.0) && |ObstaclesOf(es)| < 30
  }

  /** The entity list after the generation step of a frame. */
  function AfterGeneration(es: seq<Entity>, ballPosition: Vec2, lastGenerationPos: Vec2,
                           draws: seq<ObstacleGen.Candidate>): seq<Entity>
    requires forall i :: 0 <= i < |draws| ==> ObstacleGen.InRange(draws[i], Zero)
  {
    if Generates(es, ballPosition, lastGenerationPos) then
      es + AsEntities(ObstacleGen.Accepted(ballPosition, Placed(draws, ballPosition), ObstaclesOf(es), 100.0))
    else es
  }

  /** Generation only appends: the old list is a prefix, the first ball stays first, no
      ball is added, the obstacles are the old ones followed by the accepted ones, and a
      batch of at most three draws leaves at most 32 obstacles. */
  lemma AfterGenerationAppends(es: seq<Entity>, ballPosition: Vec2, lastGenerationPos: Vec2,
                               draws: seq<ObstacleGen.Candidate>)
    requires 1 <= |draws| <= ObstacleGen.MaxBatch
    requires forall i :: 0 <= i < |draws| ==> ObstacleGen.InRange(draws[i], Zero)
    ensures var after := AfterGeneration(es, ballPosition, lastGenerationPos, draws);
      && |after| >= |es| && after[..|es|] == es
      && BallsOf(after) == BallsOf(es)
      && (FirstBallIndex(es) < |es| ==> FirstBallIndex(after) == FirstBallIndex(es))
      && (Generates(es, ballPosition, lastGenerationPos) ==>
            ObstaclesOf(after) == ObstaclesOf(es)
              + ObstacleGen.Accepted(ballPosition, Placed(draws, ballPosition), ObstaclesOf(es), 100.0)
            && |ObstaclesOf(after)| <= 32)
      && (!Generates(es, ballPosition, lastGenerationPos) ==> after == es)
  {
    var added := ObstacleGen.Accepted(ballPosition, Placed(draws, ballPosition), ObstaclesOf(es), 100.0);
    if Generates(es, ballPosition, lastGenerationPos) {
      ObstacleGen.ObstaclesAfterBatch(es, added);
      ObstacleGen.BallsAfterBatch(es, added);
      ObstacleGen.FirstBallAfterBatch(es, added);
      ObstacleGen.CountBound(ballPosition, Placed(draws, ballPosition), ObstaclesOf(es), 100.0);
      assert (es + AsEntities(added))[..|es|] == es;
    }
  }

  class Game {
    var entities: seq<Entity>
    /** The game view's centre and size (gameView and gameViewSize). */
    var viewCenter: Vec2
    var viewSize: Vec2
    const originalSize: Vec2
    const obstacleGenerator: ObstacleGen.ObstacleGenerator
    const particleSystem: ParticleSystems.ParticleSystem

    ghost predicate Valid()
      reads this, particleSystem
    {
      Distinct(entities) && particleSystem.Valid()
    }

    constructor(width: nat, height: nat)
      ensures Valid()
      ensures entities == [] && originalSize == Vec2(width as real, height as real)
      ensures viewSize == ViewSize(height as real, ClosestRatio(WindowAspect(width, height)))
      ensures viewCenter == Centre(viewSize)
      ensures fresh(obstacleGenerator) && obstacleGenerator.lastGenerationPos == Zero
      ensures fresh(particleSystem) && particleSystem.particles == []
    {
      originalSize := Vec2(width as real, height as real);
      var size := ComputeViewSize(width, height, height as real);
      viewSize := size;
      viewCenter := Centre(size);
      entities := [];
      obstacleGenerator := new ObstacleGen.ObstacleGenerator();
      particleSystem := new ParticleSystems.ParticleSystem();
    }

    /** addEntity: the entity goes to the end of the list. */
    method AddEntity(e: Entity)
      requires Valid()
      requires e.BallEntity? ==> e.ball !in BallsOf(entities)
      modifies this
      ensures Valid()
      ensures entities == old(entities) + [e]
      ensures viewCenter == old(viewCenter) && viewSize == old(viewSize)
    {
      entities := entities + [e];
    }

    /** handleResize: a new view size from the new window's ratio but the original
        height; the centre stays where it was. */
    method HandleResize(width: nat, height: nat)
      modifies this
      ensures viewCenter == old(viewCenter)
      ensures viewSize == ViewSize(originalSize.y, ClosestRatio(WindowAspect(width, height)))
      ensures entities == old(entities)
    {
      var currentCenter := viewCenter;
      var size := ComputeViewSize(width, height, originalSize.y);
      viewSize := size;
      viewCenter := currentCenter;
    }

    /** update: physics for every entity, then the particles; then, if there is a ball,
        obstacle generation when the ball has moved far enough, the ball's collisions
        with all obstacles (the new ones included), and the camera moves to where the
        ball was before its collisions. */
    method Update(deltaTime: real, draws: seq<ObstacleGen.Candidate>, sqrt: real -> real)
      requires Valid()
      requires 1 <= |draws| <= ObstacleGen.MaxBatch
      requires forall i :: 0 <= i < |draws| ==> ObstacleGen.InRange(draws[i], Zero)
      modifies this, obstacleGenerator, particleSystem, (set p | p in particleSystem.particles), BallsOf(entities)
      ensures Valid()
      ensures ParticleSystems.StatesOf(particleSystem.particles) ==
        ParticleSystems.Survivors(ParticleSystems.StepAll(old(ParticleSystems.StatesOf(particleSystem.particles)), deltaTime))
      ensures var es := old(entities); var k := FirstBallIndex(es);
        forall j :: 0 <= j < |es| && es[j].BallEntity? && j != k ==>
          es[j].ball.State() == Balls.Step(old(es[j].ball.State()), deltaTime)
      ensures var es := old(entities); FirstBallIndex(es) == |es| ==>
        entities == es && viewCenter == old(viewCenter)
        && obstacleGenerator.lastGenerationPos == old(obstacleGenerator.lastGenerationPos)
      ensures var es := old(entities); var k := FirstBallIndex(es); k < |es| ==>
        var p := Balls.Step(old(es[k].ball.State()), deltaTime).position;
        var last := old(obstacleGenerator.lastGenerationPos);
        && entities == AfterGeneration(es, p, last, draws)
        && obstacleGenerator.lastGenerationPos == (if Generates(es, p, last) then p else last)
        && es[k].ball.State() == Balls.CollideAll(Balls.Step(old(es[k].ball.State()), deltaTime), ObstaclesOf(entities), sqrt)
        && viewCenter == p
      ensures viewSize == old(viewSize)
    {
      StepWorld(deltaTime);
      var ball := FindBall(entities);
      if ball != null {
        FollowBall(ball, draws, sqrt);
      }
    }

    /** The systems' updates: every ball steps once, the particles step and the dead
        ones go. */
    method StepWorld(deltaTime: real)
      requires Valid()
      modifies particleSystem, (set p | p in particleSystem.particles), BallsOf(entities)
      ensures Valid()
      ensures ParticleSystems.StatesOf(particleSystem.particles) ==
        ParticleSystems.Survivors(ParticleSystems.StepAll(old(ParticleSystems.StatesOf(particleSystem.particles)), deltaTime))
      ensures forall j :: 0 <= j < |entities| && entities[j].BallEntity? ==>
        entities[j].ball.State() == Balls.Step(old(entities[j].ball.State()), deltaTime)
    {
      Physics.Update(entities, deltaTime);
      particleSystem.Update(deltaTime);
    }

    /** The part of update that needs the ball. */
    method FollowBall(ball: Balls.Ball, draws: seq<ObstacleGen.Candidate>, sqrt: real -> real)
      requires Distinct(entities)
      requires FirstBallIndex(entities) < |entities| && ball == entities[FirstBallIndex(entities)].ball
      requires 1 <= |draws| <= ObstacleGen.MaxBatch
      requires forall i :: 0 <= i < |draws| ==> ObstacleGen.InRange(draws[i], Zero)
      modifies this, obstacleGenerator, ball
      ensures Distinct(entities)
      ensures var es := old(entities); var p := old(ball.position);
        var last := old(obstacleGenerator.lastGenerationPos);
        && entities == AfterGeneration(es, p, last, draws)
        && obstacleGenerator.lastGenerationPos == (if Generates(es, p, last) then p else last)
        && ball.State() == Balls.CollideAll(old(ball.State()), ObstaclesOf(entities), sqrt)
        && viewCenter == p
      ensures viewSize == old(viewSize)
    {
      var ballPos := ball.position;
      GenerationStep(ballPos, draws);
      var current := FindObstacles(entities);
      Physics.CheckCollisions(ball, current, sqrt);
      viewCenter := ballPos;
    }

    /** The generation part of update: when the ball is due, findObstacles and a
        batch from the generator; the entity list then is AfterGeneration's. */
    method GenerationStep(ballPos: Vec2, draws: seq<ObstacleGen.Candidate>)
      requires Distinct(entities)
      requires 1 <= |draws| <= ObstacleGen.MaxBatch
      requires forall i :: 0 <= i < |draws| ==> ObstacleGen.InRange(draws[i], Zero)
      modifies this, obstacleGenerator
      ensures Distinct(entities)
      ensures var last := old(obstacleGenerator.lastGenerationPos);
        && entities == AfterGeneration(old(entities), ballPos, last, draws)
        && obstacleGenerator.lastGenerationPos == (if Generates(old(entities), ballPos, last) then ballPos else last)
      ensures viewCenter == old(viewCenter) && viewSize == old(viewSize)
    {
      var due := obstacleGenerator.ShouldGenerateObstacles(ballPos);
      if due {
        var obstacles := FindObstacles(entities);
        var before := entities;
        entities := obstacleGenerator.GenerateObstacles(ballPos, entities, obstacles, Placed(draws, ballPos));
        DistinctAfterAppend(before, if |obstacles| < 30 then
          ObstacleGen.Accepted(ballPos, Placed(draws, ballPos), obstacles, 100.0) else []);
      }
    }

    /** drawBackground: the tiles of the view's range. */
    method DrawBackground() returns (tiles: seq<Tile>)
      ensures var r := TilesFor(viewCenter, viewSize);
        tiles == Rows(r.startRow, r.endRow, r.startCol, r.endCol)
    {
      var left := viewCenter.x - viewSize.x / 2.0;
      var top := viewCenter.y - viewSize.y / 2.0;
      var right := viewCenter.x + viewSize.x / 2.0;
      var bottom := viewCenter.y + viewSize.y / 2.0;
      var startRow := TruncToInt(top / TileSize) - TileMargin;
      var endRow := TruncToInt(bottom / TileSize) + TileMargin;
      var startCol := TruncToInt(left / TileSize) - TileMargin;
      var endCol := TruncToInt(right / TileSize) + TileMargin;
      assert TilesFor(viewCenter, viewSize) == TileRange(startRow, endRow, startCol, endCol);
      tiles := DrawTiles(startRow, endRow, startCol, endCol);
    }
  }
}
