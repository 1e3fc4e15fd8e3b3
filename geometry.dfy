/**
 * Value types of the MiniCore engine used by the rest of the model: 2D vectors
 * (MCVector2d), axis-aligned boxes (MCBBox), the four corner vectors of an
 * oriented box, and the sine/cosine lookup tables behind MCTrigonom.
 * Floating point is modelled by `real`.
 */
module Geometry {

  datatype Vec2 = Vec2(i: real, j: real)

  function Add(a: Vec2, b: Vec2): Vec2 { Vec2(a.i + b.i, a.j + b.j) }

  function Sub(a: Vec2, b: Vec2): Vec2 { Vec2(a.i - b.i, a.j - b.j) }

  function Neg(a: Vec2): Vec2 { Vec2(-a.i, -a.j) }

  /** Vector times scalar (MCVector2d::operator* with a scalar). */
  function Scale(a: Vec2, s: real): Vec2 { Vec2(a.i * s, a.j * s) }

  /**
   * The product of two vectors (MCVector2d::operator* with a vector) used by
   * the containment test; its definition is not part of this model and is
   * taken to be the dot product.
   */
  function Dot(a: Vec2, b: Vec2): real { a.i * b.i + a.j * b.j }

  /** MCMathUtil::SIGN, taken to be the three-valued sign. */
  datatype Sign = Negative | Zero | Positive

  function SignOf(x: real): Sign {
    if x < 0.0 then Negative else if x > 0.0 then Positive else Zero
  }

  /** MCBBox: an axis-aligned box with corners (x1, y1) and (x2, y2). */
  datatype BBox = BBox(x1: real, y1: real, x2: real, y2: real)

  /** MCBBox::contains, taken to include the border. */
  predicate BBoxContains(b: BBox, q: Vec2) {
    b.x1 <= q.i <= b.x2 && b.y1 <= q.j <= b.y2
  }

  /** The four vertex vectors of an oriented box, clockwise from bottom-left. */
  datatype Quad = Quad(v0: Vec2, v1: Vec2, v2: Vec2, v3: Vec2) {
    function At(k: nat): Vec2 {
      match k % 4
      case 0 => v0
      case 1 => v1
      case 2 => v2
      case _ => v3
    }
  }

  /** v2 and v3 are v0 and v1 mirrored through the centre. */
  predicate Mirrored(q: Quad) {
    q.v2 == Neg(q.v0) && q.v3 == Neg(q.v1)
  }

  function ScaleQuad(q: Quad, s: real): Quad {
    Quad(Scale(q.v0, s), Scale(q.v1, s), Scale(q.v2, s), Scale(q.v3, s))
  }

  /**
   * MCTrigonom's lookup tables, indexed by whole degrees. The tables
   * themselves stay abstract; the rotation formulas below are the usual
   * ones.
   */
  datatype Trig = Trig(cos: nat -> real, sin: nat -> real)

  function RotatedX(t: Trig, x: real, y: real, a: nat): real {
    x * t.cos(a) - y * t.sin(a)
  }

  function RotatedY(t: Trig, x: real, y: real, a: nat): real {
    x * t.sin(a) + y * t.cos(a)
  }

  function Rotated(t: Trig, v: Vec2, a: nat): Vec2 {
    Vec2(RotatedX(t, v.i, v.j, a), RotatedY(t, v.i, v.j, a))
  }

  /** Rotation is linear: rotating a scaled vector scales the rotated one. */
  lemma RotatedScale(t: Trig, v: Vec2, s: real, a: nat)
    ensures Rotated(t, Scale(v, s), a) == Scale(Rotated(t, v, a), s)
  {
    var c, n := t.cos(a), t.sin(a);
    assert (v.i * s) * c - (v.j * s) * n == (v.i * c - v.j * n) * s;
    assert (v.i * s) * n + (v.j * s) * c == (v.i * n + v.j * c) * s;
  }

  /** Rotation commutes with negation. */
  lemma RotatedNeg(t: Trig, v: Vec2, a: nat)
    ensures Rotated(t, Neg(v), a) == Neg(Rotated(t, v, a))
  {
    var c, n := t.cos(a), t.sin(a);
    assert (-v.i) * c - (-v.j) * n == -(v.i * c - v.j * n);
    assert (-v.i) * n + (-v.j) * c == -(v.i * n + v.j * c);
  }

  /** The table entries for angle a lie on the unit circle. */
  predicate UnitAt(t: Trig, a: nat) {
    t.cos(a) * t.cos(a) + t.sin(a) * t.sin(a) == 1.0
  }

  /** Rotation by -a, written with the entries for a; it undoes Rotated. */
  function Unrotated(t: Trig, v: Vec2, a: nat): (u: Vec2)
    ensures UnitAt(t, a) ==> Rotated(t, u, a) == v
  {
    var c, n := t.cos(a), t.sin(a);
    var u := Vec2(v.i * c + v.j * n, v.j * c - v.i * n);
    if UnitAt(t, a) then
      assert (v.i * c + v.j * n) * c - (v.j * c - v.i * n) * n == v.i * (c * c + n * n);
      assert (v.i * c + v.j * n) * n + (v.j * c - v.i * n) * c == v.j * (c * c + n * n);
      u
    else u
  }

  /** Unrotated also undoes Rotated from the other side. */
  lemma UnrotatedRotated(t: Trig, w: Vec2, a: nat)
    requires UnitAt(t, a)
    ensures Unrotated(t, Rotated(t, w, a), a) == w
  {
    var c, n := t.cos(a), t.sin(a);
    assert (w.i * c - w.j * n) * c + (w.i * n + w.j * c) * n == w.i * (c * c + n * n);
    assert (w.i * n + w.j * c) * c - (w.i * c - w.j * n) * n == w.j * (c * c + n * n);
  }

  /** Rotation commutes with the difference of two vectors. */
  lemma RotatedSub(t: Trig, u: Vec2, w: Vec2, a: nat)
    ensures Sub(Rotated(t, u, a), Rotated(t, w, a)) == Rotated(t, Sub(u, w), a)
  {
    var c, n := t.cos(a), t.sin(a);
    assert (u.i - w.i) * c == u.i * c - w.i * c;
    assert (u.j - w.j) * n == u.j * n - w.j * n;
    assert (u.i - w.i) * n == u.i * n - w.i * n;
    assert (u.j - w.j) * c == u.j * c - w.j * c;
  }

  /** A rotation by a table entry on the unit circle keeps the product of two vectors. */
  lemma RotatedDot(t: Trig, u: Vec2, w: Vec2, a: nat)
    requires UnitAt(t, a)
    ensures Dot(Rotated(t, u, a), Rotated(t, w, a)) == Dot(u, w)
  {
    var c, n := t.cos(a), t.sin(a);
    assert (u.i * c - u.j * n) * (w.i * c - w.j * n)
        == u.i * w.i * (c * c) - u.i * w.j * (c * n) - u.j * w.i * (c * n) + u.j * w.j * (n * n);
    assert (u.i * n + u.j * c) * (w.i * n + w.j * c)
        == u.i * w.i * (n * n) + u.i * w.j * (c * n) + u.j * w.i * (c * n) + u.j * w.j * (c * c);
    assert u.i * w.i * (c * c) + u.i * w.i * (n * n) == u.i * w.i * (c * c + n * n);
    assert u.j * w.j * (n * n) + u.j * w.j * (c * c) == u.j * w.j * (c * c + n * n);
  }
}
