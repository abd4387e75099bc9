/** The physics system of src/systems/PhysicsSystem.cpp: one update per entity per
    frame, and the ball's collision pass over the obstacles. */
module Physics {
  import opened Geometry
  import Balls
  import Obstacles
  import opened Entities

  /** entity->update(deltaTime): a ball integrates; an obstacle's update does nothing. */
  method UpdateEntity(e: Entity, dt: real)
    modifies if e.BallEntity? then {e.ball} else {}
    ensures e.BallEntity? ==> e.ball.State() == Balls.Step(old(e.ball.State()), dt)
  {
    match e
    case BallEntity(b) => b.Update(dt);
    case ObstacleEntity(_) =>
  }

  /** PhysicsSystem::update: every ball of the list takes exactly one step, and nothing
      else changes. */
  method Update(entities: seq<Entity>, dt: real)
    requires Distinct(entities)
    modifies BallsOf(entities)
    ensures forall i :: 0 <= i < |entities| && entities[i].BallEntity? ==>
      entities[i].ball.State() == Balls.Step(old(entities[i].ball.State()), dt)
  {
    var i := 0;
    while i < |entities|
      invariant 0 <= i <= |entities|
      invariant forall j :: 0 <= j < i && entities[j].BallEntity? ==>
        entities[j].ball.State() == Balls.Step(old(entities[j].ball.State()), dt)
      invariant forall j :: i <= j < |entities| && entities[j].BallEntity? ==>
        entities[j].ball.State() == old(entities[j].ball.State())
    {
      UpdateEntity(entities[i], dt);
      i := i + 1;
    }
  }

  /** PhysicsSystem::checkCollisions: without a ball nothing happens; otherwise the
      ball is collided with each obstacle in turn, in list order. */
  method CheckCollisions(ball: Balls.Ball?, obstacles: seq<Obstacles.Obstacle>, sqrt: real -> real)
    modifies if ball != null then {ball} else {}
    ensures ball != null ==> ball.State() == Balls.CollideAll(old(ball.State()), obstacles, sqrt)
  {
    if ball == null {
      return;
    }
    var i := 0;
    while i < |obstacles|
      invariant 0 <= i <= |obstacles|
      invariant ball.State() == Balls.CollideAll(old(ball.State()), obstacles[..i], sqrt)
    {
      assert obstacles[..i + 1][..i] == obstacles[..i];
      ball.CheckCollision(obstacles[i], sqrt);
      i := i + 1;
    }
    assert obstacles[..i] == obstacles;
  }
}
