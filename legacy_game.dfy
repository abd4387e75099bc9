/** The earlier game loop of src/Game.cpp: window events go to the entities in list
    order until one consumes them, and a frame updates every entity and then collides
    the ball with the obstacles. */
module LegacyGame {
  import opened Geometry
  import Balls
  import opened Entities
  import Physics

  /** The window events processEvents reacts to. Each mouse event carries the cursor
      position sf::Mouse::getPosition reports while it is handled; a button press also
      says whether the left button is held at that moment. */
  datatype WindowEvent =
    | Closed
    | MouseButtonPressed(leftHeld: bool, mouse: Vec2)
    | MouseButtonReleased(mouse: Vec2)
    | MouseMoved(mouse: Vec2)
    | Other

  /** The mouse event one window event becomes, if any. */
  function MouseEventOf(ev: WindowEvent): Option<Balls.MouseEvent> {
    match ev
    case MouseButtonPressed(leftHeld, m) => if leftHeld then Some(Balls.Press(m)) else None
    case MouseButtonReleased(m) => Some(Balls.Release(m))
    case MouseMoved(m) => Some(Balls.Move(m))
    case _ => None
  }

  /** The entities after one window event. */
  function Apply(s: seq<EntityState>, ev: WindowEvent): seq<EntityState> {
    match MouseEventOf(ev)
    case None => s
    case Some(e) => Deliver(s, e)
  }

  /** The entities after a queue of window events, handled in order. */
  function Replay(s: seq<EntityState>, evs: seq<WindowEvent>): seq<EntityState>
    decreases |evs|
  {
    if |evs| == 0 then s else Apply(Replay(s, evs[..|evs| - 1]), evs[|evs| - 1])
  }

  /** How many queued events an open window hands to processEvents: every event up to
      and including the first close, since pollEvent reports nothing once the window
      is closed. */
  function HandledCount(evs: seq<WindowEvent>): (n: nat)
    ensures n <= |evs| && (0 < |evs| ==> 0 < n)
    ensures forall j :: 0 <= j < n - 1 ==> !evs[j].Closed?
    ensures n < |evs| ==> evs[n - 1].Closed?
    ensures (forall j :: 0 <= j < |evs| ==> !evs[j].Closed?) ==> n == |evs|
    decreases |evs|
  {
    if |evs| == 0 then 0 else if evs[0].Closed? then 1 else 1 + HandledCount(evs[1..])
  }

  // ---------------------------------------------------------------------------
  // Properties of dispatch
  // ---------------------------------------------------------------------------

  /** Only a ball can consume a mouse event, so delivering one never changes an
      obstacle and never changes the length of the list. */
  lemma DeliverKeepsObstacles(s: seq<EntityState>, ev: Balls.MouseEvent)
    ensures |Deliver(s, ev)| == |s|
    ensures FirstConsumer(s, ev).Some? ==> s[FirstConsumer(s, ev).value].BallView?
    ensures forall j :: 0 <= j < |s| && s[j].ObstacleView? ==> Deliver(s, ev)[j] == s[j]
  {
    DeliverSemantics(s, ev);
  }

  /** A window event that is not a handled mouse event (closing, a press without the
      left button, anything else) leaves every entity as it was. */
  lemma NonMouseEventsIgnored(s: seq<EntityState>, ev: WindowEvent)
    ensures ev.Closed? || ev.Other? || (ev.MouseButtonPressed? && !ev.leftHeld) ==> Apply(s, ev) == s
  {
  }

  /** A queue of events keeps the list's length and its obstacles, and a list without
      a ball is not changed at all. */
  lemma {:induction false} ReplayKeepsObstacles(s: seq<EntityState>, evs: seq<WindowEvent>)
    ensures |Replay(s, evs)| == |s|
    ensures forall j :: 0 <= j < |s| && s[j].ObstacleView? ==> Replay(s, evs)[j] == s[j]
    ensures (forall j :: 0 <= j < |s| ==> s[j].ObstacleView?) ==> Replay(s, evs) == s
    decreases |evs|
  {
    if |evs| > 0 {
      var init := Replay(s, evs[..|evs| - 1]);
      ReplayKeepsObstacles(s, evs[..|evs| - 1]);
      match MouseEventOf(evs[|evs| - 1])
      case None =>
      case Some(e) =>
        DeliverKeepsObstacles(init, e);
        if forall j :: 0 <= j < |s| ==> s[j].ObstacleView? {
          assert FirstConsumer(init, e).None?;
        }
    }
  }

  /** Replaying one more queued event applies it to the result so far. */
  lemma ReplayStep(s: seq<EntityState>, evs: seq<WindowEvent>, i: nat)
    requires i < |evs|
    ensures Replay(s, evs[..i + 1]) == Apply(Replay(s, evs[..i]), evs[i])
  {
    assert evs[..i + 1][..i] == evs[..i];
  }

  /** The handled events end exactly at the first close. */
  lemma HandledUpToFirstClose(evs: seq<WindowEvent>, k: nat)
    requires k < |evs| && evs[k].Closed?
    requires forall j :: 0 <= j < k ==> !evs[j].Closed?
    ensures HandledCount(evs) == k + 1
  {
  }

  /** Events queued behind a close are never handled, whatever they are. */
  lemma {:induction false} EventsAfterCloseIgnored(evs: seq<WindowEvent>, rest: seq<WindowEvent>)
    requires exists j :: 0 <= j < |evs| && evs[j].Closed?
    ensures HandledCount(evs + rest) == HandledCount(evs)
    decreases |evs|
  {
    assert (evs + rest)[0] == evs[0];
    if !evs[0].Closed? {
      var j :| 0 <= j < |evs| && evs[j].Closed?;
      assert evs[1..][j - 1] == evs[j];
      assert (evs + rest)[1..] == evs[1..] + rest;
      EventsAfterCloseIgnored(evs[1..], rest);
    }
  }

  /** The first entity that accepts, after a run that declined, is the consumer. */
  lemma ConsumerAt(s: seq<EntityState>, ev: Balls.MouseEvent, i: nat)
    requires i < |s| && Accepts(s[i], ev)
    requires forall j :: 0 <= j < i ==> !Accepts(s[j], ev)
    ensures FirstConsumer(s, ev) == Some(i)
    ensures Deliver(s, ev) == s[i := Offer(s[i], ev).0]
  {
  }

  /** When every entity declines there is no consumer and nothing changes. */
  lemma NoConsumer(s: seq<EntityState>, ev: Balls.MouseEvent)
    requires forall j :: 0 <= j < |s| ==> !Accepts(s[j], ev)
    ensures FirstConsumer(s, ev) == None && Deliver(s, ev) == s
  {
  }

  /** The snapshot is determined by the entities' views. */
  lemma SnapshotOfViews(es: seq<Entity>, s: seq<EntityState>)
    requires |es| == |s| && forall j :: 0 <= j < |es| ==> View(es[j]) == s[j]
    ensures Snapshot(es) == s
  {
  }

  // ---------------------------------------------------------------------------
  // The class
  // ---------------------------------------------------------------------------

  class LegacyGame {
    var entities: seq<Entity>
    var running: bool
    /** Whether the window is open (window.isOpen()). */
    var windowOpen: bool

    constructor(width: nat, height: nat)
      ensures entities == [] && running && windowOpen
    {
      entities := [];
      running := true;
      windowOpen := true;
    }

    /** addEntity: the entity goes to the end of the list. */
    method AddEntity(e: Entity)
      requires Distinct(entities)
      requires e.BallEntity? ==> e.ball !in BallsOf(entities)
      modifies this
      ensures Distinct(entities)
      ensures entities == old(entities) + [e] && running == old(running) && windowOpen == old(windowOpen)
    {
      entities := entities + [e];
    }

    /** The dispatch loop: offer the event to each entity in turn and stop at the first
        that handles it. Returns that entity's index. */
    method Dispatch(ev: Balls.MouseEvent) returns (consumer: Option<nat>)
      requires Distinct(entities)
      modifies BallsOf(entities)
      ensures consumer == FirstConsumer(old(Snapshot(entities)), ev)
      ensures Snapshot(entities) == Deliver(old(Snapshot(entities)), ev)
    {
      ghost var before := Snapshot(entities);
      var i := 0;
      while i < |entities|
        invariant 0 <= i <= |entities|
        invariant forall j :: 0 <= j < i ==> !Accepts(before[j], ev)
        invariant forall j :: 0 <= j < |entities| ==> View(entities[j]) == before[j]
      {
        var e := entities[i];
        var handled := HandleEvent(e, ev);
        forall j | 0 <= j < |entities| && j != i
          ensures View(entities[j]) == before[j]
        {
          if entities[j].BallEntity? && e.BallEntity? {
            assert entities[j].ball != e.ball;
          }
        }
        if handled {
          ConsumerAt(before, ev, i);
          SnapshotOfViews(entities, before[i := Offer(before[i], ev).0]);
          return Some(i);
        }
        DeclinedOfferIsNoOp(before[i], ev);
        i := i + 1;
      }
      NoConsumer(before, ev);
      SnapshotOfViews(entities, before);
      return None;
    }

    /** One event of processEvents: closing closes the window and stops the game; a press with the left
        button held, a release or a move is dispatched. */
    method ProcessEvent(ev: WindowEvent)
      requires Distinct(entities)
      modifies this, BallsOf(entities)
      ensures entities == old(entities)
      ensures running == (old(running) && !ev.Closed?)
      ensures windowOpen == (old(windowOpen) && !ev.Closed?)
      ensures Snapshot(entities) == Apply(old(Snapshot(entities)), ev)
    {
      if ev.Closed? {
        windowOpen := false;
        running := false;
      }
      if ev.MouseButtonPressed? && ev.leftHeld {
        var _ := Dispatch(Balls.Press(ev.mouse));
      }
      if ev.MouseButtonReleased? {
        var _ := Dispatch(Balls.Release(ev.mouse));
      }
      if ev.MouseMoved? {
        var _ := Dispatch(Balls.Move(ev.mouse));
      }
    }

    /** processEvents: the queued events, in order, while pollEvent reports them: an
        open window reports them up to and including the first close, a closed window
        none. */
    method ProcessEvents(events: seq<WindowEvent>)
      requires Distinct(entities)
      modifies this, BallsOf(entities)
      ensures entities == old(entities)
      ensures windowOpen == (old(windowOpen) && forall i :: 0 <= i < |events| ==> !events[i].Closed?)
      ensures running == (old(running) && (old(windowOpen) ==> forall i :: 0 <= i < |events| ==> !events[i].Closed?))
      ensures Snapshot(entities) ==
        Replay(old(Snapshot(entities)), events[..if old(windowOpen) then HandledCount(events) else 0])
    {
      var i := 0;
      while i < |events| && windowOpen
        invariant 0 <= i <= |events|
        invariant !old(windowOpen) ==> i == 0
        invariant entities == old(entities)
        invariant windowOpen == (old(windowOpen) && forall j :: 0 <= j < i ==> !events[j].Closed?)
        invariant running == (old(running) && forall j :: 0 <= j < i ==> !events[j].Closed?)
        invariant old(windowOpen) && !windowOpen ==>
          0 < i && events[i - 1].Closed? && forall j :: 0 <= j < i - 1 ==> !events[j].Closed?
        invariant Snapshot(entities) == Replay(old(Snapshot(entities)), events[..i])
      {
        ReplayStep(old(Snapshot(entities)), events, i);
        ProcessEvent(events[i]);
        i := i + 1;
      }
      if old(windowOpen) && !windowOpen {
        HandledUpToFirstClose(events, i - 1);
      }
    }

    /** update: every entity's own update, then the collision pass. */
    method Update(deltaTime: real, sqrt: real -> real)
      requires Distinct(entities)
      modifies BallsOf(entities)
      ensures var k := FirstBallIndex(entities);
        forall j :: 0 <= j < |entities| && entities[j].BallEntity? && j != k ==>
          entities[j].ball.State() == Balls.Step(old(entities[j].ball.State()), deltaTime)
      ensures var k := FirstBallIndex(entities); k < |entities| ==>
        entities[k].ball.State() == Balls.CollideAll(Balls.Step(old(entities[k].ball.State()), deltaTime), ObstaclesOf(entities), sqrt)
    {
      Physics.Update(entities, deltaTime);
      CheckCollisions(sqrt);
    }

    /** checkCollisions: without a ball nothing happens; otherwise the first ball is
        collided with every obstacle in list order, and no other ball changes. */
    method CheckCollisions(sqrt: real -> real)
      requires Distinct(entities)
      modifies BallsOf(entities)
      ensures var k := FirstBallIndex(entities);
        forall j :: 0 <= j < |entities| && entities[j].BallEntity? && j != k ==>
          entities[j].ball.State() == old(entities[j].ball.State())
      ensures var k := FirstBallIndex(entities); k < |entities| ==>
        entities[k].ball.State() == Balls.CollideAll(old(entities[k].ball.State()), ObstaclesOf(entities), sqrt)
    {
      var ball := FindBall(entities);
      if ball == null {
        return;
      }
      var obstacles := FindObstacles(entities);
      Physics.CheckCollisions(ball, obstacles, sqrt);
    }
  }
}
