/** The part of Unity's math library the player controller relies on:
    two- and three-component vectors, Vector2 equality, Mathf.Clamp,
    Mathf.Clamp01 and Mathf.Lerp. Unity's `float` is modelled as `real`. */
module UnityMath {

  datatype Vec2 = Vec2(x: real, y: real)

  datatype Vec3 = Vec3(x: real, y: real, z: real)
  {
    function Plus(other: Vec3): Vec3
    {
      Vec3(x + other.x, y + other.y, z + other.z)
    }
  }

  const Zero2: Vec2 := Vec2(0.0, 0.0)

  /** Vector2.kEpsilon, the tolerance of Vector2's equality operator. */
  const KEpsilon: real := 0.00001

  function Abs(x: real): real
  {
    if x < 0.0 then -x else x
  }

  /** `v` lies on the closed segment between `a` and `b`, in either order. */
  predicate Between(v: real, a: real, b: real)
  {
    if a <= b then a <= v <= b else b <= v <= a
  }

  /** `v == Vector2.zero`. Unity compares vectors approximately: they are
      equal when the squared length of their difference is below kEpsilon². */
  function IsZero(v: Vec2): (r: bool)
    ensures v == Zero2 ==> r
    ensures r ==> Abs(v.x) < KEpsilon && Abs(v.y) < KEpsilon
  {
    if v.x * v.x + v.y * v.y < KEpsilon * KEpsilon then
      SquareBound(v.x, v.y);
      SquareBound(v.y, v.x);
      true
    else
      false
  }

  lemma SquareBound(a: real, b: real)
    requires a * a + b * b < KEpsilon * KEpsilon
    ensures Abs(a) < KEpsilon
  {
  }

  /** Mathf.Clamp(value, min, max): raise `value` to `min`, otherwise lower
      it to `max`. With `min > max` the result is `min` or `max`, never
      a value in between. */
  function Clamp(value: real, min: real, max: real): (r: real)
    ensures min <= max ==> min <= r <= max
    ensures min <= value <= max ==> r == value
  {
    if value < min then min else if value > max then max else value
  }

  /** With ordered bounds, Clamp picks the point of [min, max] nearest to `value`. */
  lemma ClampIsNearest(value: real, min: real, max: real, m: real)
    requires min <= m <= max
    ensures Abs(Clamp(value, min, max) - value) <= Abs(m - value)
  {
  }

  /** Mathf.Clamp01(value): Clamp(value, 0, 1). */
  function Clamp01(value: real): (r: real)
    ensures 0.0 <= r <= 1.0
    ensures 0.0 <= value <= 1.0 ==> r == value
  {
    if value < 0.0 then 0.0 else if value > 1.0 then 1.0 else value
  }

  /** Mathf.Lerp(a, b, t): the point a fraction Clamp01(t) of the way from
      `a` to `b`; a single linear step, never past `b`. */
  function Lerp(a: real, b: real, t: real): (r: real)
    ensures Between(r, a, b)
    ensures t <= 0.0 ==> r == a
    ensures t >= 1.0 ==> r == b
  {
    var c := Clamp01(t);
    LerpStaysBetween(a, b, c);
    a + (b - a) * c
  }

  lemma LerpStaysBetween(a: real, b: real, c: real)
    requires 0.0 <= c <= 1.0
    ensures Between(a + (b - a) * c, a, b)
  {
    var d := b - a;
    assert d * c + d * (1.0 - c) == d;
    if a <= b {
      ProductNonNegative(d, c);
      ProductNonNegative(d, 1.0 - c);
    } else {
      ProductNonNegative(-d, c);
      ProductNonNegative(-d, 1.0 - c);
    }
  }

  lemma ProductNonNegative(x: real, y: real)
    requires 0.0 <= x && 0.0 <= y
    ensures 0.0 <= x * y
  {
  }

  /** After one Lerp step the remaining gap to `b` is the old gap scaled by
      1 - Clamp01(t): the step is a contraction toward `b`. */
  lemma LerpGap(a: real, b: real, t: real)
    ensures b - Lerp(a, b, t) == (b - a) * (1.0 - Clamp01(t))
  {
  }
}
