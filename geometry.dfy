/** Two-dimensional vector and rectangle arithmetic over the reals, standing in for
    SFML's sf::Vector2f and sf::FloatRect, plus the few numeric conversions of C++
    that the game relies on (truncating casts, truncating remainder). */
module Geometry {

  /** sf::Vector2f */
  datatype Vec2 = Vec2(x: real, y: real)

  const Zero: Vec2 := Vec2(0.0, 0.0)

  function Add(a: Vec2, b: Vec2): Vec2 { Vec2(a.x + b.x, a.y + b.y) }

  function Sub(a: Vec2, b: Vec2): Vec2 { Vec2(a.x - b.x, a.y - b.y) }

  /** `v * k` */
  function Scale(v: Vec2, k: real): Vec2 { Vec2(v.x * k, v.y * k) }

  /** `v / k`, component-wise */
  function Div(v: Vec2, k: real): Vec2
    requires k != 0.0
  {
    Vec2(v.x / k, v.y / k)
  }

  function Dot(a: Vec2, b: Vec2): real { a.x * b.x + a.y * b.y }

  /** Squared Euclidean length. */
  function LenSq(v: Vec2): real { Dot(v, v) }

  function DistSq(a: Vec2, b: Vec2): real { LenSq(Sub(a, b)) }

  function Abs(x: real): real { if x < 0.0 then -x else x }

  function Min(a: real, b: real): real { if b < a then b else a }

  function Max(a: real, b: real): real { if a < b then b else a }

  /** `std::max(lo, std::min(x, hi))` */
  function Clamp(x: real, lo: real, hi: real): (r: real)
    requires lo <= hi
    ensures lo <= r <= hi
    ensures lo <= x <= hi ==> r == x
    ensures x < lo ==> r == lo
    ensures hi < x ==> r == hi
  {
    Max(lo, Min(x, hi))
  }

  /** sf::FloatRect: a corner and a size (the size may be negative). */
  datatype Rect = Rect(position: Vec2, size: Vec2)

  function Right(r: Rect): real { r.position.x + r.size.x }

  function Bottom(r: Rect): real { r.position.y + r.size.y }

  /** sf::Rect::contains: the smaller edge is inside, the larger one is not,
      on each axis, whatever the sign of the size. */
  predicate Contains(r: Rect, p: Vec2) {
    var minX := Min(r.position.x, Right(r));
    var maxX := Max(r.position.x, Right(r));
    var minY := Min(r.position.y, Bottom(r));
    var maxY := Max(r.position.y, Bottom(r));
    minX <= p.x && p.x < maxX && minY <= p.y && p.y < maxY
  }

  lemma ContainsPositiveSize(r: Rect, p: Vec2)
    requires r.size.x >= 0.0 && r.size.y >= 0.0
    ensures Contains(r, p) <==>
      r.position.x <= p.x < Right(r) && r.position.y <= p.y < Bottom(r)
  {
  }

  lemma LenSqScale(t: Vec2, k: real)
    ensures LenSq(Scale(t, k)) == k * k * LenSq(t)
  {
    assert (t.x * k) * (t.x * k) == k * k * (t.x * t.x);
    assert (t.y * k) * (t.y * k) == k * k * (t.y * t.y);
  }

  /** `v` divided by its length, or straight up (0, −1) when the length is not
      positive. The collision normal and the particles' cone direction are both
      normalised this way. */
  function Normal(v: Vec2, length: real): Vec2 {
    if length > 0.0 then Div(v, length) else Vec2(0.0, -1.0)
  }

  /** Given the true length, the result has unit length. */
  lemma NormalIsUnit(t: Vec2, d: real)
    requires d == 0.0 || (d > 0.0 && d * d == LenSq(t))
    ensures LenSq(Normal(t, d)) == 1.0
  {
    if d > 0.0 {
      var n := Normal(t, d);
      assert n == Scale(t, 1.0 / d);
      LenSqScale(t, 1.0 / d);
      assert (1.0 / d) * (1.0 / d) == 1.0 / (d * d);
    }
  }

  /** What the model asks of the square-root routine it is handed (std::sqrt over the reals). */
  ghost predicate IsSqrt(sqrt: real -> real) {
    forall t {:trigger sqrt(t)} :: 0.0 <= t ==> 0.0 <= sqrt(t) && sqrt(t) * sqrt(t) == t
  }

  /** A value with a non-negative square root is determined by its square. */
  lemma SqrtOfSquare(sqrt: real -> real, a: real)
    requires IsSqrt(sqrt) && 0.0 <= a
    ensures sqrt(a * a) == a
  {
    var s := sqrt(a * a);
    assert 0.0 <= s && s * s == a * a;
    assert (s - a) * (s + a) == 0.0;
    if a == 0.0 {
      assert s * s == 0.0;
    } else {
      assert s - a == ((s - a) * (s + a)) / (s + a);
    }
  }

  /** The routine applied to a squared length gives a non-negative root of it. */
  lemma SqrtOfLenSq(sqrt: real -> real, v: Vec2)
    requires IsSqrt(sqrt)
    ensures 0.0 <= sqrt(LenSq(v)) && sqrt(LenSq(v)) * sqrt(LenSq(v)) == LenSq(v)
  {
    assert 0.0 <= v.x * v.x && 0.0 <= v.y * v.y;
  }

  /** Normalising by the routine's length gives a unit vector. */
  lemma NormalOfSqrtIsUnit(v: Vec2, sqrt: real -> real)
    requires IsSqrt(sqrt)
    ensures LenSq(Normal(v, sqrt(LenSq(v)))) == 1.0
  {
    SqrtOfLenSq(sqrt, v);
    NormalIsUnit(v, sqrt(LenSq(v)));
  }

  /** `static_cast<int>(x)`: conversion toward zero. */
  function TruncToInt(x: real): (n: int)
    ensures 0.0 <= x ==> n as real <= x < n as real + 1.0
    ensures x < 0.0 ==> n as real - 1.0 < x <= n as real
  {
    if 0.0 <= x then x.Floor else -((-x).Floor)
  }

  /** C++'s `a % b` on int: the remainder takes the sign of the dividend. */
  function CppRem(a: int, b: int): int
    requires b != 0
  {
    var q := if (a >= 0) == (b > 0) then Abs(a as real / b as real).Floor
             else -(Abs(a as real / b as real).Floor);
    a - b * q
  }

  /** `n % 2 == 0` in C++ holds exactly for the even numbers, negative ones included. */
  lemma {:induction false} CppRemTwoParity(n: int)
    ensures (CppRem(n, 2) == 0) <==> (n % 2 == 0)
  {
    var f := Abs(n as real / 2.0).Floor;
    if n >= 0 {
      assert f == n / 2;
    } else {
      assert f == (-n) / 2;
      assert -n == 2 * ((-n) / 2) + (-n) % 2;
    }
  }
}
