/**
 * MCOBBox: an oriented bounding box. The box keeps its four vertex vectors
 * relative to its centre, its centre location, its angle in whole degrees
 * and its half-extents. rotate, translate and scale overwrite these in
 * place; vertex, bbox, contains and both intersects are queries.
 *
 * Vertices are numbered clockwise: v0 bottom-left, v1 top-left, v2 top-right,
 * v3 bottom-right.
 */
module OrientedBox {
  import opened Geometry

  /** The vertex vectors given to a fresh box of half-extents hx, hy. */
  function Initial(hx: real, hy: real): (q: Quad)
    ensures Mirrored(q)
    ensures q.v0 == Vec2(-hx, -hy) && q.v2 == Vec2(hx, hy)
    ensures q.v1 == Vec2(-hx, hy) && q.v3 == Vec2(hx, -hy)
  {
    Quad(Vec2(-hx, -hy), Vec2(-hx, hy), Vec2(hx, hy), Vec2(hx, -hy))
  }

  /**
   * The vertex update performed by rotate for a new angle a: the CURRENT v0
   * and v1 are rotated by a, and v2, v3 are their mirror images.
   */
  function RotateStep(t: Trig, q: Quad, a: nat): (r: Quad)
    ensures Mirrored(r)
    ensures r.v0 == Rotated(t, q.v0, a) && r.v1 == Rotated(t, q.v1, a)
  {
    var w0 := Rotated(t, q.v0, a);
    var w1 := Rotated(t, q.v1, a);
    Quad(w0, w1, Neg(w0), Neg(w1))
  }

  /**
   * The containment test for a point q given relative to the centre: the
   * products of the four edge vectors with the vectors from q to the edges'
   * end vertices all have the same sign.
   */
  predicate LocalContains(vs: Quad, q: Vec2) {
    var e0 := Sub(vs.v1, vs.v0);
    var e1 := Sub(vs.v2, vs.v1);
    var e2 := Sub(vs.v3, vs.v2);
    var e3 := Sub(vs.v0, vs.v3);
    var ref := SignOf(Dot(e0, Sub(vs.v1, q)));
    SignOf(Dot(e1, Sub(vs.v2, q))) == ref &&
    SignOf(Dot(e2, Sub(vs.v3, q))) == ref &&
    SignOf(Dot(e3, Sub(vs.v0, q))) == ref
  }

  /** The four vertices of a box with vertex vectors vs centred at p. */
  function Placed(vs: Quad, p: Vec2): (ws: seq<Vec2>)
    ensures |ws| == 4
    ensures forall k :: 0 <= k < 4 ==> ws[k] == Add(vs.At(k), p)
  {
    [Add(vs.v0, p), Add(vs.v1, p), Add(vs.v2, p), Add(vs.v3, p)]
  }

  function Min(x: real, y: real): real { if x <= y then x else y }

  function Max(x: real, y: real): real { if x >= y then x else y }

  /**
   * The axis-aligned envelope of the placed vertices: it encloses all four
   * and each of its bounds is attained by one of them.
   */
  function Envelope(vs: Quad, p: Vec2): (b: BBox)
    ensures b.x1 <= b.x2 && b.y1 <= b.y2
    ensures forall w <- Placed(vs, p) :: BBoxContains(b, w)
    ensures exists w <- Placed(vs, p) :: w.i == b.x1
    ensures exists w <- Placed(vs, p) :: w.j == b.y1
    ensures exists w <- Placed(vs, p) :: w.i == b.x2
    ensures exists w <- Placed(vs, p) :: w.j == b.y2
  {
    var ws := Placed(vs, p);
    var b := BBox(Min(Min(ws[0].i, ws[1].i), Min(ws[2].i, ws[3].i)),
                  Min(Min(ws[0].j, ws[1].j), Min(ws[2].j, ws[3].j)),
                  Max(Max(ws[0].i, ws[1].i), Max(ws[2].i, ws[3].i)),
                  Max(Max(ws[0].j, ws[1].j), Max(ws[2].j, ws[3].j)));
    assert forall k :: 0 <= k < 4 ==> BBoxContains(b, ws[k]);
    b
  }

  /** Some vertex of pts, shifted by `shift`, is contained in the box (owner, at). */
  predicate ContainsSomeVertex(owner: Quad, at: Vec2, pts: Quad, shift: Vec2) {
    LocalContains(owner, Sub(Add(pts.v0, shift), at)) ||
    LocalContains(owner, Sub(Add(pts.v1, shift), at)) ||
    LocalContains(owner, Sub(Add(pts.v2, shift), at)) ||
    LocalContains(owner, Sub(Add(pts.v3, shift), at))
  }

  const Origin := Vec2(0.0, 0.0)

  /**
   * Box/box intersection as written: each box is tested against the OTHER
   * box's vertex vectors without adding that box's location.
   */
  predicate IntersectsAsWritten(va: Quad, pa: Vec2, vb: Quad, pb: Vec2)
    ensures pa == Origin && pb == Origin ==>
              (IntersectsAsWritten(va, pa, vb, pb) <==> IntersectsPlaced(va, pa, vb, pb))
  {
    ContainsSomeVertex(vb, pb, va, Origin) || ContainsSomeVertex(va, pa, vb, Origin)
  }

  /** Box/box intersection over the placed vertices of both boxes. */
  predicate IntersectsPlaced(va: Quad, pa: Vec2, vb: Quad, pb: Vec2) {
    ContainsSomeVertex(vb, pb, va, pa) || ContainsSomeVertex(va, pa, vb, pb)
  }

  /** Box/axis-aligned-box intersection as written (local vertex vectors again). */
  predicate IntersectsBBoxAsWritten(va: Quad, pa: Vec2, r: BBox)
    ensures pa == Origin ==> (IntersectsBBoxAsWritten(va, pa, r) <==> IntersectsBBoxPlaced(va, pa, r))
  {
    assert pa == Origin ==> forall k :: 0 <= k < 4 ==> Placed(va, pa)[k] == va.At(k);
    (BBoxContains(r, va.v0) || BBoxContains(r, va.v1) ||
     BBoxContains(r, va.v2) || BBoxContains(r, va.v3)) ||
    (LocalContains(va, Sub(Vec2(r.x1, r.y1), pa)) || LocalContains(va, Sub(Vec2(r.x1, r.y2), pa)) ||
     LocalContains(va, Sub(Vec2(r.x2, r.y1), pa)) || LocalContains(va, Sub(Vec2(r.x2, r.y2), pa)))
  }

  /** Box/axis-aligned-box intersection over the placed vertices. */
  predicate IntersectsBBoxPlaced(va: Quad, pa: Vec2, r: BBox) {
    (exists w <- Placed(va, pa) :: BBoxContains(r, w)) ||
    (LocalContains(va, Sub(Vec2(r.x1, r.y1), pa)) || LocalContains(va, Sub(Vec2(r.x1, r.y2), pa)) ||
     LocalContains(va, Sub(Vec2(r.x2, r.y1), pa)) || LocalContains(va, Sub(Vec2(r.x2, r.y2), pa)))
  }

  /** The vertex vectors a box of half-extents hx, hy should have at angle a. */
  function Oriented(t: Trig, hx: real, hy: real, a: nat): (q: Quad)
    ensures Mirrored(q)
  {
    RotateStep(t, Initial(hx, hy), a)
  }

  /** A lookup table that is exact at angle 0. */
  predicate ExactAtZero(t: Trig) {
    t.cos(0) == 1.0 && t.sin(0) == 0.0
  }

  class OBBox {
    var hx: real
    var hy: real
    var p: Vec2
    var a: nat
    const v: array<Vec2>

    /** Four vertex vectors, v2 and v3 the mirror images of v0 and v1. */
    ghost predicate Valid()
      reads this, v
    {
      v.Length == 4 && Mirrored(Quad(v[0], v[1], v[2], v[3]))
    }

    function Local(): (q: Quad)
      reads this, v
      requires Valid()
      ensures Mirrored(q)
    {
      Quad(v[0], v[1], v[2], v[3])
    }

    /** The vertex vectors agree with the half-extents and the angle. */
    ghost predicate Consistent(t: Trig)
      reads this, v
    {
      Valid() && Local() == Oriented(t, hx, hy, a)
    }

    constructor (newHx: real, newHy: real, loc: Vec2)
      ensures Valid() && fresh(v)
      ensures hx == newHx && hy == newHy && p == loc && a == 0
      ensures Local() == Initial(newHx, newHy)
    {
      hx, hy, p, a := newHx, newHy, loc, 0;
      v := new Vec2[4] [Vec2(-newHx, -newHy), Vec2(-newHx, newHy), Vec2(newHx, newHy), Vec2(newHx, -newHy)];
    }

    /** vertex(index): vertex index & 3 placed at the location; any index is in range. */
    function Vertex(index: nat): (w: Vec2)
      reads this, v
      requires Valid()
      ensures w == Placed(Local(), p)[index % 4]
    {
      Add(v[index % 4], p)
    }

    /** bbox(): the smallest axis-aligned box around the four placed vertices. */
    function BBox(): (b: BBox)
      reads this, v
      requires Valid()
      ensures b == Envelope(Local(), p)
      ensures b.x1 <= b.x2 && b.y1 <= b.y2
      ensures forall k: nat :: BBoxContains(b, Vertex(k))
      ensures exists k: nat :: k < 4 && Vertex(k).i == b.x1
      ensures exists k: nat :: k < 4 && Vertex(k).j == b.y1
      ensures exists k: nat :: k < 4 && Vertex(k).i == b.x2
      ensures exists k: nat :: k < 4 && Vertex(k).j == b.y2
    {
      var b := Envelope(Local(), p);
      assert forall k: nat :: Vertex(k) == Placed(Local(), p)[k % 4];
      assert forall k :: 0 <= k < 4 ==> Vertex(k) == Placed(Local(), p)[k];
      b
    }

    /** contains(q) only depends on q minus the location and on the vertex vectors. */
    predicate Contains(q: Vec2)
      reads this, v
      requires Valid()
      ensures Local() == Initial(hx, hy) && hx > 0.0 && hy > 0.0 ==>
                (Contains(q) <==> p.i - hx < q.i < p.i + hx && p.j - hy < q.j < p.j + hy)
    {
      if Local() == Initial(hx, hy) && hx > 0.0 && hy > 0.0 then
        AxisAlignedContains(hx, hy, Sub(q, p));
        LocalContains(Local(), Sub(q, p))
      else LocalContains(Local(), Sub(q, p))
    }

    /**
     * A box whose vertex vectors agree with its angle and half-extents, under
     * a table entry on the unit circle, contains exactly the points that lie
     * strictly inside its rectangle in the box's own frame.
     */
    lemma ContainsInFrame(t: Trig, q: Vec2)
      requires Consistent(t) && UnitAt(t, a) && hx > 0.0 && hy > 0.0
      ensures Contains(q) <==>
                var d := Unrotated(t, Sub(q, p), a);
                -hx < d.i < hx && -hy < d.j < hy
    {
      RotatedContains(t, hx, hy, a, Sub(q, p));
    }

    /** intersects(MCOBBox) as written; it gives the same answer whichever box is asked. */
    predicate Intersects(r: OBBox)
      reads this, v, r, r.v
      requires Valid() && r.Valid()
      ensures Intersects(r) == IntersectsAsWritten(r.Local(), r.p, Local(), p)
    {
      IntersectsSymmetric(Local(), p, r.Local(), r.p);
      IntersectsAsWritten(Local(), p, r.Local(), r.p)
    }

    /** intersects(MCBBox) as written; for a box at the origin it is the placed test. */
    predicate IntersectsBBox(r: BBox)
      reads this, v
      requires Valid()
      ensures p == Origin ==> (IntersectsBBox(r) <==> IntersectsBBoxPlaced(Local(), p, r))
    {
      IntersectsBBoxAsWritten(Local(), p, r)
    }

    /** rotate as written: memoised on the angle, rotating the current v0 and v1. */
    method Rotate(newA: nat, t: Trig)
      requires Valid()
      modifies this, v
      ensures Valid()
      ensures hx == old(hx) && hy == old(hy) && p == old(p)
      ensures newA == old(a) ==> a == old(a) && Local() == old(Local())
      ensures newA != old(a) ==> a == newA && Local() == RotateStep(t, old(Local()), newA)
    {
      if newA != a {
        a := newA;
        var w0 := Rotated(t, v[0], a);
        v[0] := w0;
        var w1 := Rotated(t, v[1], a);
        v[1] := w1;
        v[2] := Neg(v[0]);
        v[3] := Neg(v[1]);
      }
    }

    /** rotate with the vertices recomputed from the half-extents (see Findings). */
    method RotateAbsolute(newA: nat, t: Trig)
      requires Valid()
      modifies this, v
      ensures Valid()
      ensures hx == old(hx) && hy == old(hy) && p == old(p)
      ensures newA == old(a) ==> a == old(a) && Local() == old(Local())
      ensures newA != old(a) ==> a == newA && Local() == Oriented(t, hx, hy, newA)
      ensures old(Consistent(t)) ==> Consistent(t)
    {
      if newA != a {
        a := newA;
        var q := Oriented(t, hx, hy, a);
        v[0], v[1], v[2], v[3] := q.v0, q.v1, q.v2, q.v3;
      }
    }

    method Translate(q: Vec2)
      requires Valid()
      modifies this
      ensures Valid()
      ensures p == q
      ensures hx == old(hx) && hy == old(hy) && a == old(a) && Local() == old(Local())
    {
      p := q;
    }

    method Scale(s: real)
      requires Valid()
      modifies this, v
      ensures Valid()
      ensures hx == old(hx) * s && hy == old(hy) * s
      ensures Local() == ScaleQuad(old(Local()), s)
      ensures p == old(p) && a == old(a)
    {
      hx := hx * s;
      hy := hy * s;
      NegScale(v[0], s);
      NegScale(v[1], s);
      v[0] := Geometry.Scale(v[0], s);
      v[1] := Geometry.Scale(v[1], s);
      v[2] := Geometry.Scale(v[2], s);
      v[3] := Geometry.Scale(v[3], s);
    }
  }

  lemma NegScale(w: Vec2, s: real)
    ensures Scale(Neg(w), s) == Neg(Scale(w, s))
  {
    assert (-w.i) * s == -(w.i * s);
    assert (-w.j) * s == -(w.j * s);
  }

  /** A fresh box is consistent with any table that is exact at angle 0. */
  lemma OrientedAtZero(t: Trig, hx: real, hy: real)
    requires ExactAtZero(t)
    ensures Oriented(t, hx, hy, 0) == Initial(hx, hy)
  {
    var q := Initial(hx, hy);
    assert Rotated(t, q.v0, 0) == q.v0;
    assert Rotated(t, q.v1, 0) == q.v1;
  }

  /** Scaling the half-extents scales the oriented vertices. */
  lemma OrientedScale(t: Trig, hx: real, hy: real, s: real, a: nat)
    ensures Oriented(t, hx * s, hy * s, a) == ScaleQuad(Oriented(t, hx, hy, a), s)
  {
    var q := Initial(hx, hy);
    assert Initial(hx * s, hy * s) == ScaleQuad(q, s);
    RotatedScale(t, q.v0, s, a);
    RotatedScale(t, q.v1, s, a);
    var w0, w1 := Rotated(t, q.v0, a), Rotated(t, q.v1, a);
    NegScale(w0, s);
    NegScale(w1, s);
    assert Oriented(t, hx, hy, a) == Quad(w0, w1, Neg(w0), Neg(w1));
    assert Oriented(t, hx * s, hy * s, a) == Quad(Scale(w0, s), Scale(w1, s), Neg(Scale(w0, s)), Neg(Scale(w1, s)));
  }

  /** Multiplying by a positive number keeps the sign. */
  lemma SignOfPositiveMultiple(c: real, x: real)
    requires c > 0.0
    ensures SignOf(c * x) == SignOf(x)
  {
    if x > 0.0 {
      assert c * x > 0.0;
    } else if x < 0.0 {
      assert c * x < 0.0;
    }
  }

  /**
   * For a fresh (axis-aligned) box with positive half-extents the test
   * accepts exactly the points strictly inside the rectangle.
   */
  lemma {:induction false} AxisAlignedContains(hx: real, hy: real, q: Vec2)
    requires hx > 0.0 && hy > 0.0
    ensures LocalContains(Initial(hx, hy), q) <==> -hx < q.i < hx && -hy < q.j < hy
  {
    var vs := Initial(hx, hy);
    assert Dot(Sub(vs.v1, vs.v0), Sub(vs.v1, q)) == (2.0 * hy) * (hy - q.j);
    assert Dot(Sub(vs.v2, vs.v1), Sub(vs.v2, q)) == (2.0 * hx) * (hx - q.i);
    assert Dot(Sub(vs.v3, vs.v2), Sub(vs.v3, q)) == (2.0 * hy) * (hy + q.j);
    assert Dot(Sub(vs.v0, vs.v3), Sub(vs.v0, q)) == (2.0 * hx) * (hx + q.i);
    SignOfPositiveMultiple(2.0 * hy, hy - q.j);
    SignOfPositiveMultiple(2.0 * hx, hx - q.i);
    SignOfPositiveMultiple(2.0 * hy, hy + q.j);
    SignOfPositiveMultiple(2.0 * hx, hx + q.i);
  }

  /** Rotating the four vertices and the point together does not change contains. */
  lemma RotatedLocalContains(t: Trig, vs: Quad, q: Vec2, a: nat)
    requires UnitAt(t, a)
    ensures LocalContains(Quad(Rotated(t, vs.v0, a), Rotated(t, vs.v1, a), Rotated(t, vs.v2, a), Rotated(t, vs.v3, a)),
                          Rotated(t, q, a))
            == LocalContains(vs, q)
  {
    var ws := Quad(Rotated(t, vs.v0, a), Rotated(t, vs.v1, a), Rotated(t, vs.v2, a), Rotated(t, vs.v3, a));
    var rq := Rotated(t, q, a);
    RotatedSub(t, vs.v1, vs.v0, a);
    RotatedSub(t, vs.v2, vs.v1, a);
    RotatedSub(t, vs.v3, vs.v2, a);
    RotatedSub(t, vs.v0, vs.v3, a);
    RotatedSub(t, vs.v1, q, a);
    RotatedSub(t, vs.v2, q, a);
    RotatedSub(t, vs.v3, q, a);
    RotatedSub(t, vs.v0, q, a);
    RotatedDot(t, Sub(vs.v1, vs.v0), Sub(vs.v1, q), a);
    RotatedDot(t, Sub(vs.v2, vs.v1), Sub(vs.v2, q), a);
    RotatedDot(t, Sub(vs.v3, vs.v2), Sub(vs.v3, q), a);
    RotatedDot(t, Sub(vs.v0, vs.v3), Sub(vs.v0, q), a);
    assert Dot(Sub(ws.v1, ws.v0), Sub(ws.v1, rq)) == Dot(Sub(vs.v1, vs.v0), Sub(vs.v1, q));
    assert Dot(Sub(ws.v2, ws.v1), Sub(ws.v2, rq)) == Dot(Sub(vs.v2, vs.v1), Sub(vs.v2, q));
    assert Dot(Sub(ws.v3, ws.v2), Sub(ws.v3, rq)) == Dot(Sub(vs.v3, vs.v2), Sub(vs.v3, q));
    assert Dot(Sub(ws.v0, ws.v3), Sub(ws.v0, rq)) == Dot(Sub(vs.v0, vs.v3), Sub(vs.v0, q));
  }

  /**
   * A box with positive half-extents whose vertex vectors were rotated to
   * angle a accepts exactly the points that, turned back by a, lie strictly
   * inside its rectangle.
   */
  lemma RotatedContains(t: Trig, hx: real, hy: real, a: nat, q: Vec2)
    requires UnitAt(t, a) && hx > 0.0 && hy > 0.0
    ensures LocalContains(Oriented(t, hx, hy, a), q) <==>
              var d := Unrotated(t, q, a);
              -hx < d.i < hx && -hy < d.j < hy
  {
    var d := Unrotated(t, q, a);
    assert Rotated(t, d, a) == q;
    RotateStepRotatesAll(t, Initial(hx, hy), a);
    RotatedLocalContains(t, Initial(hx, hy), d, a);
    AxisAlignedContains(hx, hy, d);
  }

  /** Box/box intersection as written is symmetric. */
  lemma IntersectsSymmetric(va: Quad, pa: Vec2, vb: Quad, pb: Vec2)
    ensures IntersectsAsWritten(va, pa, vb, pb) == IntersectsAsWritten(vb, pb, va, pa)
    ensures IntersectsPlaced(va, pa, vb, pb) == IntersectsPlaced(vb, pb, va, pa)
  {
  }

  /** Moving both boxes by the same vector does not change the placed test. */
  lemma IntersectsPlacedTranslation(va: Quad, pa: Vec2, vb: Quad, pb: Vec2, d: Vec2)
    ensures IntersectsPlaced(va, Add(pa, d), vb, Add(pb, d)) == IntersectsPlaced(va, pa, vb, pb)
  {
    forall w: Vec2, x: Vec2, y: Vec2 ensures Sub(Add(w, Add(x, d)), Add(y, d)) == Sub(Add(w, x), y) {
    }
  }

  /**
   * For mirrored vertex vectors, rotating v0 and v1 and mirroring them is
   * the same as rotating all four vertices.
   */
  lemma RotateStepRotatesAll(t: Trig, q: Quad, a: nat)
    requires Mirrored(q)
    ensures RotateStep(t, q, a) ==
              Quad(Rotated(t, q.v0, a), Rotated(t, q.v1, a), Rotated(t, q.v2, a), Rotated(t, q.v3, a))
  {
    RotatedNeg(t, q.v0, a);
    RotatedNeg(t, q.v1, a);
  }

  /** An axis-aligned box moved by d. */
  function ShiftBBox(r: BBox, d: Vec2): (m: BBox)
    ensures forall q :: BBoxContains(m, Add(q, d)) == BBoxContains(r, q)
  {
    BBox(r.x1 + d.i, r.y1 + d.j, r.x2 + d.i, r.y2 + d.j)
  }

  /** The placed box/bbox test only depends on where the two are relative to each other. */
  lemma IntersectsBBoxPlacedTranslation(va: Quad, pa: Vec2, r: BBox, d: Vec2)
    ensures IntersectsBBoxPlaced(va, Add(pa, d), ShiftBBox(r, d)) == IntersectsBBoxPlaced(va, pa, r)
  {
    var m := ShiftBBox(r, d);
    var ws, ws' := Placed(va, pa), Placed(va, Add(pa, d));
    assert forall k :: 0 <= k < 4 ==> ws'[k] == Add(ws[k], d);
    assert (exists w <- ws' :: BBoxContains(m, w)) == (exists w <- ws :: BBoxContains(r, w)) by {
      if exists w <- ws :: BBoxContains(r, w) {
        var w :| w in ws && BBoxContains(r, w);
        var k :| 0 <= k < 4 && ws[k] == w;
        assert BBoxContains(m, ws'[k]);
      }
      if exists w <- ws' :: BBoxContains(m, w) {
        var w :| w in ws' && BBoxContains(m, w);
        var k :| 0 <= k < 4 && ws'[k] == w;
        assert BBoxContains(r, ws[k]);
      }
    }
    assert Sub(Vec2(m.x1, m.y1), Add(pa, d)) == Sub(Vec2(r.x1, r.y1), pa);
    assert Sub(Vec2(m.x1, m.y2), Add(pa, d)) == Sub(Vec2(r.x1, r.y2), pa);
    assert Sub(Vec2(m.x2, m.y1), Add(pa, d)) == Sub(Vec2(r.x2, r.y1), pa);
    assert Sub(Vec2(m.x2, m.y2), Add(pa, d)) == Sub(Vec2(r.x2, r.y2), pa);
  }

  /** Moving the box and the point by the same vector does not change contains. */
  lemma ContainsTranslation(vs: Quad, p: Vec2, q: Vec2, d: Vec2)
    ensures LocalContains(vs, Sub(Add(q, d), Add(p, d))) == LocalContains(vs, Sub(q, p))
  {
    assert Sub(Add(q, d), Add(p, d)) == Sub(q, p);
  }

  /** A location away from the origin. */
  const Far := Vec2(100.0, 100.0)

  /**
   * A unit box centred inside a box twice its size, both at Far: the
   * placed test finds the overlap, the test as written does not.
   */
  lemma {:induction false} NestedBoxesAwayFromOrigin()
    ensures IntersectsPlaced(Initial(1.0, 1.0), Far, Initial(2.0, 2.0), Far)
    ensures !IntersectsAsWritten(Initial(1.0, 1.0), Far, Initial(2.0, 2.0), Far)
  {
    PlacedFindsNested();
    MissesFarVertices(2.0, Initial(1.0, 1.0), Far);
    MissesFarVertices(1.0, Initial(2.0, 2.0), Far);
  }

  lemma PlacedFindsNested()
    ensures ContainsSomeVertex(Initial(2.0, 2.0), Far, Initial(1.0, 1.0), Far)
  {
    AxisAlignedContains(2.0, 2.0, Vec2(-1.0, -1.0));
    assert Sub(Add(Initial(1.0, 1.0).v0, Far), Far) == Vec2(-1.0, -1.0);
  }

  /**
   * No vertex vector of a fresh box of half-extent h <= 2, used as a world
   * point, lies in a fresh square box of half-extent e <= 2 at (100, 100).
   */
  lemma {:induction false} MissesFarVertices(e: real, pts: Quad, at: Vec2)
    requires 0.0 < e <= 2.0 && at == Far
    requires pts == Initial(1.0, 1.0) || pts == Initial(2.0, 2.0)
    ensures !ContainsSomeVertex(Initial(e, e), at, pts, Origin)
  {
    AxisAlignedContains(e, e, Sub(Add(pts.v0, Origin), at));
    AxisAlignedContains(e, e, Sub(Add(pts.v1, Origin), at));
    AxisAlignedContains(e, e, Sub(Add(pts.v2, Origin), at));
    AxisAlignedContains(e, e, Sub(Add(pts.v3, Origin), at));
  }

  /**
   * A unit box at Far inside the axis-aligned box (90, 90)-(110, 110): the
   * placed test finds the overlap, the test as written does not.
   */
  lemma {:induction false} BoxInsideBBoxAwayFromOrigin()
    ensures IntersectsBBoxPlaced(Initial(1.0, 1.0), Far, BBox(90.0, 90.0, 110.0, 110.0))
    ensures !IntersectsBBoxAsWritten(Initial(1.0, 1.0), Far, BBox(90.0, 90.0, 110.0, 110.0))
  {
    var va, r := Initial(1.0, 1.0), BBox(90.0, 90.0, 110.0, 110.0);
    var ws := Placed(va, Far);
    assert ws[0] == Vec2(99.0, 99.0) && BBoxContains(r, ws[0]);
    assert !BBoxContains(r, va.v0) && !BBoxContains(r, va.v1);
    assert !BBoxContains(r, va.v2) && !BBoxContains(r, va.v3);
    BBoxCornersMissed();
  }

  lemma BBoxCornersMissed()
    ensures !LocalContains(Initial(1.0, 1.0), Sub(Vec2(90.0, 90.0), Far))
    ensures !LocalContains(Initial(1.0, 1.0), Sub(Vec2(90.0, 110.0), Far))
    ensures !LocalContains(Initial(1.0, 1.0), Sub(Vec2(110.0, 90.0), Far))
    ensures !LocalContains(Initial(1.0, 1.0), Sub(Vec2(110.0, 110.0), Far))
  {
    MissesBBoxCorners(Vec2(90.0, 90.0));
    MissesBBoxCorners(Vec2(90.0, 110.0));
    MissesBBoxCorners(Vec2(110.0, 90.0));
    MissesBBoxCorners(Vec2(110.0, 110.0));
  }

  lemma MissesBBoxCorners(c: Vec2)
    requires c.i in {90.0, 110.0} && c.j in {90.0, 110.0}
    ensures !LocalContains(Initial(1.0, 1.0), Sub(c, Far))
  {
    AxisAlignedContains(1.0, 1.0, Sub(c, Far));
  }

  function QuarterCos(a: nat): real {
    if a % 360 == 0 then 1.0 else if a % 360 == 180 then -1.0 else 0.0
  }

  function QuarterSin(a: nat): real {
    if a % 360 == 90 then 1.0 else if a % 360 == 270 then -1.0 else 0.0
  }

  /** A table exact at the quarter turns (and zero elsewhere). */
  function QuarterTurns(): (t: Trig)
    ensures ExactAtZero(t)
  {
    Trig(QuarterCos, QuarterSin)
  }

  /**
   * Rotating a fresh 1 x 2 box to 90 degrees and then to 180 degrees with
   * the vertex update as written leaves it at 270 degrees: its v0 differs
   * from that of the box rotated straight to 180 degrees.
   */
  lemma {:induction false} RotateCompounds()
    ensures var t := QuarterTurns();
            var q90 := RotateStep(t, Initial(1.0, 2.0), 90);
            q90 == Oriented(t, 1.0, 2.0, 90) &&
            RotateStep(t, q90, 180) != Oriented(t, 1.0, 2.0, 180)
  {
    var t := QuarterTurns();
    var v0 := Vec2(-1.0, -2.0);
    var q90 := RotateStep(t, Initial(1.0, 2.0), 90);
    assert q90.v0 == Vec2(2.0, -1.0) by {
      assert Initial(1.0, 2.0).v0 == v0;
      QuarterRotations(v0);
    }
    assert RotateStep(t, q90, 180).v0 == Vec2(-2.0, 1.0) by {
      QuarterRotations(Vec2(2.0, -1.0));
    }
    assert Oriented(t, 1.0, 2.0, 180).v0 == Vec2(1.0, 2.0) by {
      assert Initial(1.0, 2.0).v0 == v0;
      QuarterRotations(v0);
    }
  }

  /** The quarter-turn table turns a vector a quarter and a half turn counter-clockwise. */
  lemma QuarterRotations(v: Vec2)
    ensures Rotated(QuarterTurns(), v, 90) == Vec2(-v.j, v.i)
    ensures Rotated(QuarterTurns(), v, 180) == Vec2(-v.i, -v.j)
  {
    var t := QuarterTurns();
    assert t.cos(90) == 0.0 && t.sin(90) == 1.0;
    assert t.cos(180) == -1.0 && t.sin(180) == 0.0;
  }
}
