/** The game's entity list (std::vector<std::unique_ptr<Entity>>) and the queries both
    game revisions run over it: findBall, findObstacles and the first-consumer rule for
    mouse events. Balls are objects updated in place; obstacles never change and are
    values. */
module Entities {
  import opened Geometry
  import Balls
  import Obstacles

  datatype Option<T> = None | Some(value: T)

  /** An element of the entity list. */
  datatype Entity = BallEntity(ball: Balls.Ball) | ObstacleEntity(obstacle: Obstacles.Obstacle)

  /** The ball objects in the list: what updating the list may change. */
  function BallsOf(es: seq<Entity>): set<Balls.Ball> {
    set i | 0 <= i < |es| && es[i].BallEntity? :: es[i].ball
  }

  /** Each entity is owned by exactly one unique_ptr: no ball object is listed twice. */
  ghost predicate Distinct(es: seq<Entity>) {
    forall i, j :: 0 <= i < j < |es| && es[i].BallEntity? && es[j].BallEntity? ==> es[i].ball != es[j].ball
  }

  // ---------------------------------------------------------------------------
  // findBall
  // ---------------------------------------------------------------------------

  /** The index of the first ball in the list, or |es| when there is none. */
  function FirstBallIndex(es: seq<Entity>): (k: nat)
    ensures k <= |es|
    ensures k < |es| ==> es[k].BallEntity?
    ensures forall j :: 0 <= j < k ==> !es[j].BallEntity?
  {
    if |es| == 0 then 0
    else if es[0].BallEntity? then 0
    else 1 + FirstBallIndex(es[1..])
  }

  /** findBall: the first ball in list order, or null. */
  method FindBall(es: seq<Entity>) returns (b: Balls.Ball?)
    ensures FirstBallIndex(es) < |es| ==> b == es[FirstBallIndex(es)].ball
    ensures FirstBallIndex(es) == |es| ==> b == null
    ensures b == null <==> forall j :: 0 <= j < |es| ==> !es[j].BallEntity?
  {
    var i := 0;
    while i < |es|
      invariant 0 <= i <= |es|
      invariant forall j :: 0 <= j < i ==> !es[j].BallEntity?
    {
      if es[i].BallEntity? {
        FirstBallIndexIsFirst(es, i);
        return es[i].ball;
      }
      i := i + 1;
    }
    FirstBallIndexIsFirst(es, |es|);
    return null;
  }

  /** An index before which there is no ball, and which is a ball or the end, is the
      first ball's index. */
  lemma FirstBallIndexIsFirst(es: seq<Entity>, k: nat)
    requires k <= |es| && (k < |es| ==> es[k].BallEntity?)
    requires forall j :: 0 <= j < k ==> !es[j].BallEntity?
    ensures FirstBallIndex(es) == k
  {
  }

  // ---------------------------------------------------------------------------
  // findObstacles
  // ---------------------------------------------------------------------------

  /** findObstacles: the obstacles of the list, in list order. */
  function ObstaclesOf(es: seq<Entity>): (r: seq<Obstacles.Obstacle>)
    ensures |r| <= |es|
    ensures forall o :: o in r <==> ObstacleEntity(o) in es
    decreases |es|
  {
    if |es| == 0 then []
    else
      var init := ObstaclesOf(es[..|es| - 1]);
      assert es == es[..|es| - 1] + [es[|es| - 1]];
      match es[|es| - 1]
      case ObstacleEntity(o) => init + [o]
      case BallEntity(_) => init
  }

  /** The filter distributes over concatenation: it keeps the order of the list. */
  lemma {:induction false} ObstaclesOfAppend(a: seq<Entity>, b: seq<Entity>)
    ensures ObstaclesOf(a + b) == ObstaclesOf(a) + ObstaclesOf(b)
    decreases |b|
  {
    if |b| == 0 {
      assert a + b == a;
    } else {
      var b' := b[..|b| - 1];
      assert (a + b)[..|a + b| - 1] == a + b';
      ObstaclesOfAppend(a, b');
    }
  }

  /** A ball contributes nothing and an obstacle contributes itself. */
  lemma ObstaclesOfSingle(e: Entity)
    ensures ObstaclesOf([e]) == if e.ObstacleEntity? then [e.obstacle] else []
  {
    assert [e][..0] == [];
  }

  method FindObstacles(es: seq<Entity>) returns (r: seq<Obstacles.Obstacle>)
    ensures r == ObstaclesOf(es)
  {
    r := [];
    var i := 0;
    while i < |es|
      invariant 0 <= i <= |es|
      invariant r == ObstaclesOf(es[..i])
    {
      assert es[..i + 1] == es[..i] + [es[i]];
      ObstaclesOfAppend(es[..i], [es[i]]);
      ObstaclesOfSingle(es[i]);
      if es[i].ObstacleEntity? {
        r := r + [es[i].obstacle];
      }
      i := i + 1;
    }
    assert es[..i] == es;
  }

  /** Obstacles wrapped as entities, in order (what the generator pushes). */
  function AsEntities(obs: seq<Obstacles.Obstacle>): (es: seq<Entity>)
    ensures |es| == |obs|
    ensures forall i :: 0 <= i < |obs| ==> es[i] == ObstacleEntity(obs[i])
  {
    seq(|obs|, i requires 0 <= i < |obs| => ObstacleEntity(obs[i]))
  }

  /** findObstacles recovers wrapped obstacles exactly, and adding them adds no ball. */
  lemma {:induction false} ObstaclesOfAsEntities(obs: seq<Obstacles.Obstacle>)
    ensures ObstaclesOf(AsEntities(obs)) == obs
    ensures BallsOf(AsEntities(obs)) == {}
    decreases |obs|
  {
    if |obs| > 0 {
      var init := obs[..|obs| - 1];
      assert AsEntities(obs)[..|obs| - 1] == AsEntities(init);
      ObstaclesOfAsEntities(init);
    }
  }

  /** Appending obstacles keeps the balls distinct. */
  lemma DistinctAfterAppend(es: seq<Entity>, obs: seq<Obstacles.Obstacle>)
    requires Distinct(es)
    ensures Distinct(es + AsEntities(obs))
  {
  }

  // ---------------------------------------------------------------------------
  // Mouse events: the first consumer wins
  // ---------------------------------------------------------------------------

  /** An entity with its ball's fields read out: what the dispatch rule is stated over. */
  datatype EntityState = BallView(s: Balls.BallState) | ObstacleView(o: Obstacles.Obstacle)

  function View(e: Entity): EntityState
    reads if e.BallEntity? then {e.ball} else {}
  {
    match e
    case BallEntity(b) => BallView(b.State())
    case ObstacleEntity(o) => ObstacleView(o)
  }

  function Snapshot(es: seq<Entity>): (r: seq<EntityState>)
    reads BallsOf(es)
    ensures |r| == |es|
    ensures forall i :: 0 <= i < |es| ==> r[i] == View(es[i])
    decreases |es|
  {
    if |es| == 0 then []
    else
      assert BallsOf(es[1..]) <= BallsOf(es) by {
        forall b | b in BallsOf(es[1..]) ensures b in BallsOf(es) {
          var i :| 0 <= i < |es[1..]| && es[1..][i].BallEntity? && es[1..][i].ball == b;
          assert es[i + 1] == es[1..][i];
        }
      }
      [View(es[0])] + Snapshot(es[1..])
  }

  /** Entity::handleMouse*: a ball answers as its handler does; an obstacle keeps the
      default, which declines. */
  function Offer(e: EntityState, ev: Balls.MouseEvent): (EntityState, bool) {
    match e
    case BallView(s) => var (s', handled) := Balls.Handle(s, ev); (BallView(s'), handled)
    case ObstacleView(_) => (e, false)
  }

  predicate Accepts(e: EntityState, ev: Balls.MouseEvent) { Offer(e, ev).1 }

  /** The index of the first entity that accepts the event, if any. */
  function FirstConsumer(es: seq<EntityState>, ev: Balls.MouseEvent): (r: Option<nat>)
    ensures r.Some? ==> r.value < |es| && Accepts(es[r.value], ev)
    ensures forall j :: 0 <= j < |es| && (r.None? || j < r.value) ==> !Accepts(es[j], ev)
  {
    if |es| == 0 then None
    else if Accepts(es[0], ev) then Some(0)
    else match FirstConsumer(es[1..], ev)
      case None => None
      case Some(k) => Some(k + 1)
  }

  /** The list after the event is delivered: only the first consumer has changed. */
  function Deliver(es: seq<EntityState>, ev: Balls.MouseEvent): seq<EntityState> {
    match FirstConsumer(es, ev)
    case None => es
    case Some(k) => es[k := Offer(es[k], ev).0]
  }

  /** Offering an event to an entity that declines it leaves that entity as it was. */
  lemma DeclinedOfferIsNoOp(e: EntityState, ev: Balls.MouseEvent)
    ensures !Accepts(e, ev) ==> Offer(e, ev).0 == e
  {
    if e.BallView? {
      Balls.DeclinedIsNoOp(e.s, ev);
    }
  }

  /** The first-consumer rule: entities before the consumer declined the event, the
      consumer is changed as its handler says, entities after it never see the event,
      and if nobody accepts, nothing changes. */
  lemma DeliverSemantics(es: seq<EntityState>, ev: Balls.MouseEvent)
    ensures |Deliver(es, ev)| == |es|
    ensures FirstConsumer(es, ev).None? ==> Deliver(es, ev) == es
    ensures FirstConsumer(es, ev).Some? ==>
      var k := FirstConsumer(es, ev).value;
      && Deliver(es, ev)[k] == Offer(es[k], ev).0
      && (forall j :: 0 <= j < k ==> Deliver(es, ev)[j] == es[j] && !Accepts(es[j], ev))
      && (forall j :: k < j < |es| ==> Deliver(es, ev)[j] == es[j])
  {
  }

  /** entity->handleMouse*(pos) for one entity. */
  method HandleEvent(e: Entity, ev: Balls.MouseEvent) returns (handled: bool)
    modifies if e.BallEntity? then {e.ball} else {}
    ensures (View(e), handled) == Offer(old(View(e)), ev)
  {
    match e
    case BallEntity(b) => {
      match ev
      case Press(m) => handled := b.HandleMousePress(m);
      case Release(m) => handled := b.HandleMouseRelease(m);
      case Move(m) => handled := b.HandleMouseMove(m);
    }
    case ObstacleEntity(_) =>
      handled := false;
  }
}
