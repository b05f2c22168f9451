/**
 * The triangle record of the renderer: three vertices in counter-clockwise
 * order with their normals, texture coordinates and colours, the facing
 * direction used for face culling, and the bookkeeping fields the culling
 * pass adds (vertex indices into the scene's vertex list, the deleted flag,
 * the triangle's position in the scene's triangle list, its mesh name).
 */
module Triangles {

  datatype Vec3 = Vec3(x: real, y: real, z: real)
  datatype Vec2 = Vec2(u: real, v: real)
  datatype Color = Color(r: real, g: real, b: real)

  /** Three values, one per vertex (std::array<T, 3>). */
  datatype Triple<T> = Triple(at0: T, at1: T, at2: T)

  const ZERO3: Vec3 := Vec3(0.0, 0.0, 0.0)
  const ZERO2: Vec2 := Vec2(0.0, 0.0)
  const BLACK: Color := Color(0.0, 0.0, 0.0)

  function Sub(p: Vec3, q: Vec3): Vec3 {
    Vec3(p.x - q.x, p.y - q.y, p.z - q.z)
  }

  function Neg(p: Vec3): Vec3 {
    Vec3(-p.x, -p.y, -p.z)
  }

  function Cross(p: Vec3, q: Vec3): Vec3 {
    Vec3(p.y * q.z - p.z * q.y, p.z * q.x - p.x * q.z, p.x * q.y - p.y * q.x)
  }

  function Dot(p: Vec3, q: Vec3): real {
    p.x * q.x + p.y * q.y + p.z * q.z
  }

  datatype Triangle = Triangle(
    v: Triple<Vec3>,      // spatial positions, counter-clockwise
    facing: Vec3,         // facing direction, derived from v
    nor: Triple<Vec3>,    // per-vertex normals
    tex: Triple<Vec2>,    // per-vertex texture coordinates
    col: Triple<Color>,   // per-vertex colours
    hasMaterial: bool,
    matid: int,
    indexA: int,          // vertex indices into the scene's vertex list
    indexB: int,
    indexC: int,
    deleted: bool,        // set when the culling pass removes the triangle
    indexOfTriangles: int,  // position in the scene's triangle list
    meshName: string)
  {
    function A(): Vec3 { v.at0 }
    function B(): Vec3 { v.at1 }
    function C(): Vec3 { v.at2 }
  }

  /** The facing direction of a vertex triple: cross(v1 - v0, v2 - v1). */
  function Facing(p: Triple<Vec3>): Vec3 {
    Cross(Sub(p.at1, p.at0), Sub(p.at2, p.at1))
  }

  /** A triangle whose facing field agrees with its vertices. */
  predicate Consistent(t: Triangle) {
    t.facing == Facing(t.v)
  }

  /**
   * Triangle(a, b, c, na, nb, nc, ta, tb, tc, ca, cb, cc): the vertex
   * indices are taken to be 0, 1, 2, the triangle is not deleted and has
   * no mesh name and no material.
   */
  function MakeTriangle(a: Vec3, b: Vec3, c: Vec3,
                        na: Vec3 := ZERO3, nb: Vec3 := ZERO3, nc: Vec3 := ZERO3,
                        ta: Vec2 := ZERO2, tb: Vec2 := ZERO2, tc: Vec2 := ZERO2,
                        ca: Color := BLACK, cb: Color := BLACK, cc: Color := BLACK): (t: Triangle)
    ensures Consistent(t)
    ensures t.A() == a && t.B() == b && t.C() == c
    ensures (t.indexA, t.indexB, t.indexC) == (0, 1, 2)
    ensures !t.deleted && t.meshName == "" && !t.hasMaterial
  {
    MakeIndexedTriangle(a, b, c, 0, 1, 2, na, nb, nc, ta, tb, tc, ca, cb, cc)
  }

  /** Triangle(a, b, c, i1, i2, i3, ...): the indexed constructor. */
  function MakeIndexedTriangle(a: Vec3, b: Vec3, c: Vec3, i1: int, i2: int, i3: int,
                               na: Vec3 := ZERO3, nb: Vec3 := ZERO3, nc: Vec3 := ZERO3,
                               ta: Vec2 := ZERO2, tb: Vec2 := ZERO2, tc: Vec2 := ZERO2,
                               ca: Color := BLACK, cb: Color := BLACK, cc: Color := BLACK): (t: Triangle)
    ensures Consistent(t)
    ensures t.A() == a && t.B() == b && t.C() == c
    ensures t.nor == Triple(na, nb, nc) && t.tex == Triple(ta, tb, tc) && t.col == Triple(ca, cb, cc)
    ensures (t.indexA, t.indexB, t.indexC) == (i1, i2, i3)
    ensures !t.deleted && t.meshName == "" && !t.hasMaterial
  {
    var p := Triple(a, b, c);
    Triangle(p, Facing(p), Triple(na, nb, nc), Triple(ta, tb, tc), Triple(ca, cb, cc),
             false, 0, i1, i2, i3, false, 0, "")
  }

  /** set_material: the triangle now carries material mat. */
  function SetMaterial(t: Triangle, mat: int): (r: Triangle)
    ensures r.hasMaterial && r.matid == mat
    ensures r == t.(hasMaterial := r.hasMaterial, matid := r.matid)
  {
    t.(hasMaterial := true, matid := mat)
  }

  /**
   * Rotating the vertex order (a, b, c) -> (b, c, a) keeps the winding and
   * hence the facing direction.
   */
  lemma FacingRotationInvariant(a: Vec3, b: Vec3, c: Vec3)
    ensures Facing(Triple(b, c, a)) == Facing(Triple(a, b, c))
  {
    var f, g := Facing(Triple(b, c, a)), Facing(Triple(a, b, c));
    assert f.x == g.x by {
      assert f.x == (c.y - b.y) * (a.z - c.z) - (c.z - b.z) * (a.y - c.y);
      assert g.x == (b.y - a.y) * (c.z - b.z) - (b.z - a.z) * (c.y - b.y);
    }
    assert f.y == g.y by {
      assert f.y == (c.z - b.z) * (a.x - c.x) - (c.x - b.x) * (a.z - c.z);
      assert g.y == (b.z - a.z) * (c.x - b.x) - (b.x - a.x) * (c.z - b.z);
    }
    assert f.z == g.z by {
      assert f.z == (c.x - b.x) * (a.y - c.y) - (c.y - b.y) * (a.x - c.x);
      assert g.z == (b.x - a.x) * (c.y - b.y) - (b.y - a.y) * (c.x - b.x);
    }
  }

  /** Swapping two vertices reverses the winding and the facing direction. */
  lemma FacingSwapNegates(a: Vec3, b: Vec3, c: Vec3)
    ensures Facing(Triple(b, a, c)) == Neg(Facing(Triple(a, b, c)))
  {
    var f, g := Facing(Triple(b, a, c)), Facing(Triple(a, b, c));
    assert f.x == -g.x by {
      assert f.x == (a.y - b.y) * (c.z - a.z) - (a.z - b.z) * (c.y - a.y);
      assert g.x == (b.y - a.y) * (c.z - b.z) - (b.z - a.z) * (c.y - b.y);
    }
    assert f.y == -g.y by {
      assert f.y == (a.z - b.z) * (c.x - a.x) - (a.x - b.x) * (c.z - a.z);
      assert g.y == (b.z - a.z) * (c.x - b.x) - (b.x - a.x) * (c.z - b.z);
    }
    assert f.z == -g.z by {
      assert f.z == (a.x - b.x) * (c.y - a.y) - (a.y - b.y) * (c.x - a.x);
      assert g.z == (b.x - a.x) * (c.y - b.y) - (b.y - a.y) * (c.x - b.x);
    }
  }

  /**
   * The z component of the facing direction is twice the signed area of the
   * triangle's projection onto the xOy plane (positive when the projection
   * is counter-clockwise).
   */
  lemma FacingZIsDoubleSignedArea(a: Vec3, b: Vec3, c: Vec3)
    ensures Facing(Triple(a, b, c)).z
         == (b.x - a.x) * (c.y - a.y) - (c.x - a.x) * (b.y - a.y)
  {
    assert Facing(Triple(a, b, c)).z
        == (b.x - a.x) * (c.y - b.y) - (b.y - a.y) * (c.x - b.x);
  }

  /** A point of the canonical view volume [-1, 1]^3. */
  predicate InCanonical(p: Vec3) {
    -1.0 <= p.x <= 1.0 && -1.0 <= p.y <= 1.0 && -1.0 <= p.z <= 1.0
  }

  /** vert_in_canonical: the triangle has a vertex inside the canonical box. */
  predicate VertInCanonical(t: Triangle) {
    InCanonical(t.A()) || InCanonical(t.B()) || InCanonical(t.C())
  }

  /**
   * Face culling test of the renderer: a triangle (or an octree facet) is
   * culled when its facing direction does not point against the gaze,
   * dot(gaze, facing) >= 0.
   */
  predicate BackFacing(gaze: Vec3, facing: Vec3) {
    Dot(gaze, facing) >= 0.0
  }

  /** Reversing a triangle's winding makes a strictly front-facing one back-facing. */
  lemma {:induction false} SwappedFrontFaceIsBackFace(gaze: Vec3, a: Vec3, b: Vec3, c: Vec3)
    requires !BackFacing(gaze, Facing(Triple(a, b, c)))
    ensures BackFacing(gaze, Facing(Triple(b, a, c)))
  {
    FacingSwapNegates(a, b, c);
    DotOfNeg(gaze, Facing(Triple(a, b, c)));
  }

  lemma DotOfNeg(p: Vec3, q: Vec3)
    ensures Dot(p, Neg(q)) == -Dot(p, q)
  {
    assert p.x * -q.x == -(p.x * q.x);
    assert p.y * -q.y == -(p.y * q.y);
    assert p.z * -q.z == -(p.z * q.z);
  }

  /** The face line written for a triangle into an index log: "f a+1// b+1// c+1//". */
  datatype FaceLine = FaceLine(a: int, b: int, c: int)

  function LineOf(t: Triangle): (l: FaceLine)
    ensures l.a - 1 == t.indexA && l.b - 1 == t.indexB && l.c - 1 == t.indexC
  {
    FaceLine(t.indexA + 1, t.indexB + 1, t.indexC + 1)
  }

  /** The text written for a log of triangles: one face line per triangle, in order. */
  function LinesOf(ts: seq<Triangle>): (ls: seq<FaceLine>)
    ensures |ls| == |ts|
    ensures forall k :: 0 <= k < |ts| ==> ls[k] == LineOf(ts[k])
  {
    seq(|ts|, k requires 0 <= k < |ts| => LineOf(ts[k]))
  }
}
