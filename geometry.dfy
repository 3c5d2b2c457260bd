/**
 * Points of the flattened working plane and the two triangle predicates the
 * ear test is built from. The tolerance of the original `approx_eq!` is read
 * as exact equality.
 */
module Geometry {
  datatype Point = Point(x: real, y: real)

  datatype Triangle = Triangle(a: Point, b: Point, c: Point)

  /**
   * The `det!` helper of `contains`: a 2x2 determinant measured from the
   * triangle's third corner `c`.
   */
  function Det(t: Triangle, s: Point, p: Point, q: Point): real
  {
    (p.y - q.y) * (s.x - t.c.x) + (q.x - p.x) * (s.y - t.c.y)
  }

  /** Twice the signed area of `t`; positive when `a, b, c` turn counter-clockwise. */
  function SignedArea2(t: Triangle): real
  {
    (t.b.x - t.a.x) * (t.c.y - t.a.y) - (t.c.x - t.a.x) * (t.b.y - t.a.y)
  }

  /**
   * Barycentric containment test. A degenerate triangle (zero determinant)
   * contains every point.
   */
  function Contains(t: Triangle, p: Point): (r: bool)
    ensures SignedArea2(t) == 0.0 ==> r
  {
    DetIsSignedArea(t);
    var det := Det(t, t.a, t.b, t.c);
    if det == 0.0 then true
    else
      var invDet := 1.0 / det;
      var l1 := invDet * Det(t, p, t.b, t.c);
      if l1 < 0.0 then false
      else
        var l2 := invDet * Det(t, p, t.c, t.a);
        if l2 < 0.0 then false
        else l1 + l2 < 1.0
  }

  /**
   * The same test without the division: each barycentric coordinate is
   * compared through the sign of the determinant instead.
   */
  predicate InTriangle(t: Triangle, p: Point)
  {
    var det := Det(t, t.a, t.b, t.c);
    var d1 := Det(t, p, t.b, t.c);
    var d2 := Det(t, p, t.c, t.a);
    if det == 0.0 then true
    else if det > 0.0 then 0.0 <= d1 && 0.0 <= d2 && d1 + d2 < det
    else d1 <= 0.0 && d2 <= 0.0 && det < d1 + d2
  }

  /** `contains` and its division-free form agree on every triangle and point. */
  lemma ContainsBySigns(t: Triangle, p: Point)
    ensures Contains(t, p) == InTriangle(t, p)
  {
    var det := Det(t, t.a, t.b, t.c);
    if det != 0.0 {
      var d1 := Det(t, p, t.b, t.c);
      var d2 := Det(t, p, t.c, t.a);
      var invDet := 1.0 / det;
      assert invDet * d1 == d1 / det;
      assert invDet * d2 == d2 / det;
      assert invDet * d1 + invDet * d2 == (d1 + d2) / det;
      if det > 0.0 {
        assert invDet > 0.0;
        assert (invDet * d1 < 0.0) == (d1 < 0.0);
        assert (invDet * d2 < 0.0) == (d2 < 0.0);
        assert ((d1 + d2) / det < 1.0) == (d1 + d2 < det);
      } else {
        assert invDet < 0.0;
        assert (invDet * d1 < 0.0) == (d1 > 0.0);
        assert (invDet * d2 < 0.0) == (d2 > 0.0);
        assert ((d1 + d2) / det < 1.0) == (d1 + d2 > det);
      }
    }
  }

  /**
   * Winding order of a triangle: true is counter-clockwise, false clockwise.
   * It is counter-clockwise exactly when the determinant `contains` divides
   * by is positive.
   */
  function Winding(t: Triangle): (r: bool)
    ensures r <==> Det(t, t.a, t.b, t.c) > 0.0
  {
    DetIsSignedArea(t);
    SignedArea2(t) > 0.0
  }

  /** The determinant `contains` divides by is twice the signed area. */
  lemma DetIsSignedArea(t: Triangle)
    ensures Det(t, t.a, t.b, t.c) == SignedArea2(t)
  {
    var a, b, c := t.a, t.b, t.c;
    calc {
      Det(t, a, b, c);
      (b.y - c.y) * (a.x - c.x) + (c.x - b.x) * (a.y - c.y);
      b.y * a.x - b.y * c.x - c.y * a.x + c.y * c.x + c.x * a.y - c.x * c.y - b.x * a.y + b.x * c.y;
      b.y * a.x - b.y * c.x - c.y * a.x + c.x * a.y - b.x * a.y + b.x * c.y;
      b.x * c.y - b.x * a.y - a.x * c.y + a.x * a.y - c.x * b.y + c.x * a.y + a.x * b.y - a.x * a.y;
      (b.x - a.x) * (c.y - a.y) - (c.x - a.x) * (b.y - a.y);
    }
  }

  /** Rotating the corners cyclically does not change the winding. */
  lemma WindingRotation(t: Triangle)
    ensures Winding(Triangle(t.b, t.c, t.a)) == Winding(t)
  {
    var a, b, c := t.a, t.b, t.c;
    calc {
      SignedArea2(Triangle(b, c, a));
      (c.x - b.x) * (a.y - b.y) - (a.x - b.x) * (c.y - b.y);
      c.x * a.y - c.x * b.y - b.x * a.y + b.x * b.y - a.x * c.y + a.x * b.y + b.x * c.y - b.x * b.y;
      b.x * c.y - b.x * a.y - a.x * c.y + a.x * a.y - c.x * b.y + c.x * a.y + a.x * b.y - a.x * a.y;
      (b.x - a.x) * (c.y - a.y) - (c.x - a.x) * (b.y - a.y);
      SignedArea2(t);
    }
  }

  /**
   * For a proper triangle the test is strict at the first two corners but
   * counts the third corner `c` as inside, which is why the ear test has to
   * exclude a triangle's own corners explicitly.
   */
  lemma ContainsCorners(t: Triangle)
    requires SignedArea2(t) != 0.0
    ensures !Contains(t, t.a) && !Contains(t, t.b) && Contains(t, t.c)
  {
    DetIsSignedArea(t);
    var a, b, c := t.a, t.b, t.c;
    var det := Det(t, a, b, c);
    assert Det(t, c, b, c) == 0.0;
    assert Det(t, c, c, a) == 0.0;
    assert Det(t, a, c, a) == (a.x - c.x) * ((c.y - a.y) + (a.y - c.y));
    assert Det(t, a, c, a) == 0.0;
    assert (1.0 / det) * det == 1.0;
    assert Det(t, b, b, c) == (b.y - c.y) * ((b.x - c.x) + (c.x - b.x));
    assert Det(t, b, b, c) == 0.0;
    assert Det(t, b, c, a) == det by {
      calc {
        Det(t, b, c, a);
        (c.y - a.y) * (b.x - c.x) + (a.x - c.x) * (b.y - c.y);
        c.y * b.x - c.y * c.x - a.y * b.x + a.y * c.x + a.x * b.y - a.x * c.y - c.x * b.y + c.x * c.y;
        b.y * a.x - b.y * c.x - c.y * a.x + c.y * c.x + c.x * a.y - c.x * c.y - b.x * a.y + b.x * c.y;
        (b.y - c.y) * (a.x - c.x) + (c.x - b.x) * (a.y - c.y);
      }
    }
  }
}
