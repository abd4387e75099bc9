/** A static rectangular obstacle (src/entities/Obstacle.cpp). The obstacle is a value:
    its shape is set once by the constructor and only queried afterwards. */
module Obstacles {
  import opened Geometry

  /** sf::Color without the alpha channel (obstacles are always opaque). */
  datatype Color = Rgb(r: int, g: int, b: int)

  /** The default fill colour of an obstacle. */
  const DefaultColor: Color := Rgb(100, 100, 100)

  /** The obstacle's sf::RectangleShape: position, size, origin and fill colour. */
  datatype Obstacle = Obstacle(position: Vec2, size: Vec2, origin: Vec2, color: Color)

  /** The constructor: the origin is put at the centre of the rectangle, so that
      `position` names the obstacle's centre. */
  function New(position: Vec2, size: Vec2, color: Color): (o: Obstacle)
    ensures o.position == position && o.size == size && o.color == color
    ensures Add(o.origin, o.origin) == size
  {
    Obstacle(position, size, Div(size, 2.0), color)
  }

  /** getBounds: the global bounds of an unrotated, unscaled shape are its local
      bounds (corner 0, the given size) moved by position - origin. */
  function Bounds(o: Obstacle): Rect {
    Rect(Sub(o.position, o.origin), o.size)
  }

  /** A constructed obstacle's bounds are the box of the given size centred on the
      given position. */
  lemma NewBoundsCentred(position: Vec2, size: Vec2, color: Color)
    ensures Bounds(New(position, size, color)) ==
            Rect(Vec2(position.x - size.x / 2.0, position.y - size.y / 2.0), size)
    ensures Bounds(New(position, size, color)).size == size
  {
  }

  /** With a positive size the centre lies strictly inside the bounds. */
  lemma CentreInsideBounds(position: Vec2, size: Vec2, color: Color)
    requires size.x > 0.0 && size.y > 0.0
    ensures Contains(Bounds(New(position, size, color)), position)
    ensures var b := Bounds(New(position, size, color));
            b.position.x < position.x < Right(b) && b.position.y < position.y < Bottom(b)
  {
  }

  /** The colour plays no part in the geometry. */
  lemma ColorIrrelevant(position: Vec2, size: Vec2, c1: Color, c2: Color)
    ensures Bounds(New(position, size, c1)) == Bounds(New(position, size, c2))
  {
  }
}
