/**
 * The octree culling pass (Zbuf::_render_with_octree) as specification
 * functions over an explicit state, and the properties of that pass:
 * the state only grows (logs are extended, triangles are only ever
 * marked deleted), the triangles it logs and marks belong to the octree
 * nodes it visits, every back-facing triangle of a visited node is culled,
 * and running the pass again from a fresh depth pyramid changes nothing.
 */
module Traversal {
  import opened Triangles
  import opened Geometry

  /**
   * An octree node: the 12 triangles of its bounding cube's boundary, the
   * scene triangles it holds (copies that point back into the scene with
   * indexOfTriangles), and its 8 child pointers (Null for an empty one).
   */
  datatype Octree = Null | Node(facets: seq<Triangle>, prims: seq<Triangle>, children: seq<Octree>)

  /** Everything the pass reads and does not change. */
  datatype Env = Env(gaze: Vec3, mvp: Mat4, viewport: Mat4, depth: seq<seq<Depth>>, geo: Geometry)

  /**
   * Everything the pass changes: the scene's triangle list (its deleted
   * flags), the triangles written to the kept index log and to the culled
   * index log, and the screen-space triangles submitted to the depth
   * pyramid since it was last cleared.
   */
  datatype Cull = Cull(tris: seq<Triangle>, kept: seq<Triangle>, culled: seq<Triangle>, queries: seq<Triangle>)

  // ---------------------------------------------------------------- marking

  /**
   * realworld_triangles[i].deleted = true. An index outside the list is
   * undefined behaviour in the source; it leaves the list unchanged here.
   */
  function Mark(tris: seq<Triangle>, i: int): (r: seq<Triangle>)
    ensures |r| == |tris|
    ensures forall k :: 0 <= k < |tris| ==> r[k] == if k == i then tris[k].(deleted := true) else tris[k]
  {
    if 0 <= i < |tris| then tris[i := tris[i].(deleted := true)] else tris
  }

  /** The scene positions a list of triangles points back to. */
  function Indices(ts: seq<Triangle>): set<int> {
    set k | 0 <= k < |ts| :: ts[k].indexOfTriangles
  }

  /** The scene triangles after marking every triangle of ts deleted. */
  function MarkAll(tris: seq<Triangle>, ts: seq<Triangle>): (r: seq<Triangle>)
    ensures |r| == |tris|
    ensures forall k :: 0 <= k < |tris| ==> r[k] == if k in Indices(ts) then tris[k].(deleted := true) else tris[k]
  {
    seq(|tris|, k requires 0 <= k < |tris| => if k in Indices(ts) then tris[k].(deleted := true) else tris[k])
  }

  lemma MarkIsMarkAll(tris: seq<Triangle>, t: Triangle)
    ensures Mark(tris, t.indexOfTriangles) == MarkAll(tris, [t])
  {
    assert [t][0] == t;
    assert Indices([t]) == {t.indexOfTriangles};
  }

  lemma {:induction false} IndicesConcat(x: seq<Triangle>, y: seq<Triangle>)
    ensures Indices(x + y) == Indices(x) + Indices(y)
  {
    forall i | i in Indices(x + y) ensures i in Indices(x) + Indices(y) {
      var k :| 0 <= k < |x + y| && (x + y)[k].indexOfTriangles == i;
      if k < |x| { assert x[k] == (x + y)[k]; } else { assert y[k - |x|] == (x + y)[k]; }
    }
    forall i | i in Indices(x) + Indices(y) ensures i in Indices(x + y) {
      if i in Indices(x) {
        var k :| 0 <= k < |x| && x[k].indexOfTriangles == i;
        assert (x + y)[k] == x[k];
      } else {
        var k :| 0 <= k < |y| && y[k].indexOfTriangles == i;
        assert (x + y)[|x| + k] == y[k];
      }
    }
  }

  /** Marking in two rounds is marking once with both lists. */
  lemma {:induction false} MarkAllTwice(tris: seq<Triangle>, x: seq<Triangle>, y: seq<Triangle>)
    ensures MarkAll(MarkAll(tris, x), y) == MarkAll(tris, x + y)
  {
    IndicesConcat(x, y);
  }

  /** Marking is idempotent. */
  lemma {:induction false} MarkAllIdempotent(tris: seq<Triangle>, x: seq<Triangle>)
    ensures MarkAll(MarkAll(tris, x), x) == MarkAll(tris, x)
  {
    IndicesConcat(x, x);
    assert x + x != x || x == [];
    MarkAllTwice(tris, x, x);
    assert Indices(x + x) == Indices(x);
    assert MarkAll(tris, x + x) == MarkAll(tris, x);
  }

  // ------------------------------------------------------------ growing state

  predicate Prefix<T(==)>(a: seq<T>, b: seq<T>) {
    |a| <= |b| && b[..|a|] == a
  }

  /**
   * r is reached from st by appending to the logs and the query list and
   * by marking deleted exactly the triangles appended to the culled log.
   */
  predicate Grows(st: Cull, r: Cull) {
    Prefix(st.kept, r.kept) && Prefix(st.culled, r.culled) && Prefix(st.queries, r.queries)
    && r.tris == MarkAll(st.tris, r.culled[|st.culled|..])
  }

  lemma GrowsRefl(st: Cull)
    ensures Grows(st, st)
  {
    assert st.culled[|st.culled|..] == [];
    assert Indices([]) == {};
  }

  lemma {:induction false} GrowsTrans(a: Cull, b: Cull, c: Cull)
    requires Grows(a, b) && Grows(b, c)
    ensures Grows(a, c)
  {
    var nb, nc := b.culled[|a.culled|..], c.culled[|b.culled|..];
    assert c.culled[|a.culled|..] == nb + nc by {
      assert c.culled[..|b.culled|] == b.culled;
      assert c.culled == b.culled + nc;
    }
    MarkAllTwice(a.tris, nb, nc);
    assert c.kept[..|a.kept|] == b.kept[..|a.kept|];
    assert c.queries[..|a.queries|] == b.queries[..|a.queries|];
  }

  // ---------------------------------------------------------------- the pass

  /** The depth pyramid's verdict on a view-space triangle, mapped to the screen. */
  function ScreenOf(env: Env, v: Triangle): Triangle {
    env.geo.transform(v, env.viewport)
  }

  /** The triangle, in view space, has a vertex inside the canonical box. */
  predicate InView(env: Env, t: Triangle) {
    VertInCanonical(env.geo.transform(t, env.mvp))
  }

  /**
   * One scene triangle of a visited node: a back-facing one is marked and
   * logged as culled; a front-facing one with a vertex in the view volume
   * is submitted to the depth pyramid, then logged as kept when visible and
   * marked and logged as culled when hidden; any other is left alone.
   */
  function VisitPrim(env: Env, t: Triangle, st: Cull): (r: Cull)
    ensures Grows(st, r)
  {
    if BackFacing(env.gaze, t.facing) then
      MarkIsMarkAll(st.tris, t);
      assert (st.culled + [t])[|st.culled|..] == [t];
      st.(tris := Mark(st.tris, t.indexOfTriangles), culled := st.culled + [t])
    else if !InView(env, t) then
      GrowsRefl(st);
      st
    else
      var s := ScreenOf(env, env.geo.transform(t, env.mvp));
      var seen := env.geo.visible(env.depth, st.queries, s);
      var st1 := st.(queries := st.queries + [s]);
      MarkIsMarkAll(st.tris, t);
      assert (st.culled + [t])[|st.culled|..] == [t];
      assert st.culled[|st.culled|..] == [];
      assert Indices([]) == {};
      if seen then st1.(kept := st1.kept + [t])
      else st1.(tris := Mark(st1.tris, t.indexOfTriangles), culled := st1.culled + [t])
  }

  /** A cube facet that faces the camera and has a vertex in the view volume. */
  predicate FacetSeen(env: Env, f: Triangle) {
    !BackFacing(env.gaze, f.facing) && InView(env, f)
  }

  /** The node's bounding cube is taken to meet the view volume. */
  predicate NodeVisible(env: Env, facets: seq<Triangle>) {
    exists i :: 0 <= i < |facets| && FacetSeen(env, facets[i])
  }

  function Size(n: Octree): (s: nat)
    ensures s >= 1
  {
    match n
    case Null => 1
    case Node(_, _, cs) => 1 + SumSizes(cs)
  }

  function SumSizes(cs: seq<Octree>): nat {
    if cs == [] then 0 else Size(cs[0]) + SumSizes(cs[1..])
  }

  lemma {:induction false} ChildSize(cs: seq<Octree>, k: int)
    requires 0 <= k < |cs|
    ensures Size(cs[k]) <= SumSizes(cs)
  {
    if k > 0 { ChildSize(cs[1..], k - 1); }
  }

  /** The scene triangles of a node, visited in order. */
  function VisitPrims(env: Env, ps: seq<Triangle>, st: Cull): (r: Cull)
    ensures Grows(st, r)
    decreases |ps|
  {
    if ps == [] then GrowsRefl(st); st
    else
      var st1 := VisitPrim(env, ps[0], st);
      var r := VisitPrims(env, ps[1..], st1);
      GrowsTrans(st, st1, r);
      r
  }

  /** _render_with_octree(node). */
  function VisitNode(env: Env, n: Octree, st: Cull): (r: Cull)
    ensures Grows(st, r)
    decreases Size(n), 0
  {
    match n
    case Null => GrowsRefl(st); st
    case Node(facets, prims, children) =>
      if !NodeVisible(env, facets) then GrowsRefl(st); st
      else
        var st1 := VisitPrims(env, prims, st);
        var r := VisitChildren(env, children, st1);
        GrowsTrans(st, st1, r);
        r
  }

  /** The recursion into the non-null children, in order. */
  function VisitChildren(env: Env, cs: seq<Octree>, st: Cull): (r: Cull)
    ensures Grows(st, r)
    decreases SumSizes(cs), 1
  {
    if cs == [] then GrowsRefl(st); st
    else
      GrowsRefl(st);
      var st1 := if cs[0].Null? then st else VisitNode(env, cs[0], st);
      var r := VisitChildren(env, cs[1..], st1);
      GrowsTrans(st, st1, r);
      r
  }

  // ------------------------------------------------------ what the pass visits

  /** The scene triangles of the nodes the pass enters, in visiting order. */
  function VisitedPrims(env: Env, n: Octree): seq<Triangle>
    decreases Size(n), 0
  {
    match n
    case Null => []
    case Node(facets, prims, children) =>
      if !NodeVisible(env, facets) then [] else prims + VisitedInChildren(env, children)
  }

  function VisitedInChildren(env: Env, cs: seq<Octree>): seq<Triangle>
    decreases SumSizes(cs), 1
  {
    if cs == [] then [] else VisitedPrims(env, cs[0]) + VisitedInChildren(env, cs[1..])
  }

  // ------------------------------------------- decisions do not read the flags

  predicate SameLogs(a: Cull, b: Cull) {
    a.kept == b.kept && a.culled == b.culled && a.queries == b.queries
  }

  lemma {:induction false} PrimsIndependent(env: Env, ps: seq<Triangle>, a: Cull, b: Cull)
    requires SameLogs(a, b)
    ensures SameLogs(VisitPrims(env, ps, a), VisitPrims(env, ps, b))
    decreases |ps|
  {
    if ps != [] {
      PrimsIndependent(env, ps[1..], VisitPrim(env, ps[0], a), VisitPrim(env, ps[0], b));
    }
  }

  /**
   * Which triangles are kept, culled and submitted depends only on the
   * logs and queries so far, never on the scene's deleted flags.
   */
  lemma {:induction false} NodeIndependent(env: Env, n: Octree, a: Cull, b: Cull)
    requires SameLogs(a, b)
    ensures SameLogs(VisitNode(env, n, a), VisitNode(env, n, b))
    decreases Size(n), 0
  {
    match n
    case Null =>
    case Node(facets, prims, children) =>
      if NodeVisible(env, facets) {
        PrimsIndependent(env, prims, a, b);
        ChildrenIndependent(env, children, VisitPrims(env, prims, a), VisitPrims(env, prims, b));
      }
  }

  lemma {:induction false} ChildrenIndependent(env: Env, cs: seq<Octree>, a: Cull, b: Cull)
    requires SameLogs(a, b)
    ensures SameLogs(VisitChildren(env, cs, a), VisitChildren(env, cs, b))
    decreases SumSizes(cs), 1
  {
    if cs != [] {
      if !cs[0].Null? { NodeIndependent(env, cs[0], a, b); }
      var a1 := if cs[0].Null? then a else VisitNode(env, cs[0], a);
      var b1 := if cs[0].Null? then b else VisitNode(env, cs[0], b);
      ChildrenIndependent(env, cs[1..], a1, b1);
    }
  }

  /**
   * Culling is idempotent: a second pass over the same octree, started with
   * empty logs and an empty query history on the triangles the first pass
   * produced, writes the same logs and marks nothing new.
   */
  lemma {:induction false} CullIdempotent(env: Env, root: Octree, tris: seq<Triangle>)
    ensures var r1 := VisitNode(env, root, Cull(tris, [], [], []));
            VisitNode(env, root, Cull(r1.tris, [], [], [])) == r1
  {
    var r1 := VisitNode(env, root, Cull(tris, [], [], []));
    var r2 := VisitNode(env, root, Cull(r1.tris, [], [], []));
    NodeIndependent(env, root, Cull(tris, [], [], []), Cull(r1.tris, [], [], []));
    assert r1.culled[0..] == r1.culled;
    MarkAllIdempotent(tris, r1.culled);
  }

  // ------------------------------------------------------------- accounting

  /**
   * From st to r, the triangles newly logged as kept are visited,
   * front-facing and in the view volume; those newly logged as culled are
   * visited and either back-facing or in the view volume; every visited
   * triangle that is back-facing or in the view volume is newly logged;
   * every visited back-facing one is newly logged as culled.
   */
  predicate Accounts(env: Env, st: Cull, r: Cull, visited: seq<Triangle>) {
    Grows(st, r) &&
    var nk, nc := r.kept[|st.kept|..], r.culled[|st.culled|..];
    (forall t :: t in nk ==> t in visited && !BackFacing(env.gaze, t.facing) && InView(env, t)) &&
    (forall t :: t in nc ==> t in visited && (BackFacing(env.gaze, t.facing) || InView(env, t))) &&
    (forall t :: t in visited && (BackFacing(env.gaze, t.facing) || InView(env, t)) ==> t in nk || t in nc) &&
    (forall t :: t in visited && BackFacing(env.gaze, t.facing) ==> t in nc)
  }

  lemma {:induction false} AccountsTrans(env: Env, a: Cull, b: Cull, c: Cull, v1: seq<Triangle>, v2: seq<Triangle>)
    requires Accounts(env, a, b, v1) && Accounts(env, b, c, v2)
    ensures Accounts(env, a, c, v1 + v2)
  {
    GrowsTrans(a, b, c);
    assert c.kept[|a.kept|..] == b.kept[|a.kept|..] + c.kept[|b.kept|..] by {
      assert c.kept[..|b.kept|] == b.kept;
      assert c.kept == b.kept + c.kept[|b.kept|..];
    }
    assert c.culled[|a.culled|..] == b.culled[|a.culled|..] + c.culled[|b.culled|..] by {
      assert c.culled[..|b.culled|] == b.culled;
      assert c.culled == b.culled + c.culled[|b.culled|..];
    }
  }

  lemma AccountsEmpty(env: Env, st: Cull)
    ensures Accounts(env, st, st, [])
  {
    GrowsRefl(st);
    assert st.kept[|st.kept|..] == [];
    assert st.culled[|st.culled|..] == [];
  }

  lemma PrimAccounts(env: Env, t: Triangle, st: Cull)
    ensures Accounts(env, st, VisitPrim(env, t, st), [t])
  {
    var r := VisitPrim(env, t, st);
    assert st.kept[|st.kept|..] == [];
    assert st.culled[|st.culled|..] == [];
    assert (st.kept + [t])[|st.kept|..] == [t];
    assert (st.culled + [t])[|st.culled|..] == [t];
  }

  lemma {:induction false} PrimsAccount(env: Env, ps: seq<Triangle>, st: Cull)
    ensures Accounts(env, st, VisitPrims(env, ps, st), ps)
    decreases |ps|
  {
    if ps == [] {
      AccountsEmpty(env, st);
    } else {
      var st1 := VisitPrim(env, ps[0], st);
      PrimAccounts(env, ps[0], st);
      PrimsAccount(env, ps[1..], st1);
      AccountsTrans(env, st, st1, VisitPrims(env, ps[1..], st1), [ps[0]], ps[1..]);
      assert [ps[0]] + ps[1..] == ps;
    }
  }

  lemma {:induction false} NodeAccounts(env: Env, n: Octree, st: Cull)
    ensures Accounts(env, st, VisitNode(env, n, st), VisitedPrims(env, n))
    decreases Size(n), 0
  {
    match n
    case Null => AccountsEmpty(env, st);
    case Node(facets, prims, children) =>
      if !NodeVisible(env, facets) {
        AccountsEmpty(env, st);
      } else {
        var st1 := VisitPrims(env, prims, st);
        PrimsAccount(env, prims, st);
        ChildrenAccount(env, children, st1);
        AccountsTrans(env, st, st1, VisitChildren(env, children, st1), prims, VisitedInChildren(env, children));
      }
  }

  lemma {:induction false} ChildrenAccount(env: Env, cs: seq<Octree>, st: Cull)
    ensures Accounts(env, st, VisitChildren(env, cs, st), VisitedInChildren(env, cs))
    decreases SumSizes(cs), 1
  {
    if cs == [] {
      AccountsEmpty(env, st);
    } else {
      var st1 := if cs[0].Null? then st else VisitNode(env, cs[0], st);
      if cs[0].Null? { AccountsEmpty(env, st); } else { NodeAccounts(env, cs[0], st); }
      assert Accounts(env, st, st1, VisitedPrims(env, cs[0]));
      ChildrenAccount(env, cs[1..], st1);
      AccountsTrans(env, st, st1, VisitChildren(env, cs[1..], st1), VisitedPrims(env, cs[0]), VisitedInChildren(env, cs[1..]));
    }
  }

  /**
   * What one culling pass over the octree does to the scene: only deleted
   * flags change, and only from false to true; a triangle that changes
   * is pointed to by a visited triangle that was logged as culled; every
   * back-facing triangle of a visited node ends marked deleted and logged
   * as culled; every visited front-facing triangle with a vertex in the
   * view volume is logged, as kept or as culled; every kept one is
   * visited, front-facing and in the view volume.
   */
  lemma CullEffect(env: Env, root: Octree, tris: seq<Triangle>)
    ensures var r := VisitNode(env, root, Cull(tris, [], [], []));
            var vis := VisitedPrims(env, root);
            |r.tris| == |tris|
            && (forall i :: 0 <= i < |tris| ==> r.tris[i] == tris[i] || r.tris[i] == tris[i].(deleted := true))
            && (forall i :: 0 <= i < |tris| && r.tris[i] != tris[i] ==>
                  exists t :: t in r.culled && t in vis && t.indexOfTriangles == i)
            && (forall t :: t in vis && BackFacing(env.gaze, t.facing) ==> t in r.culled)
            && (forall t :: t in vis && BackFacing(env.gaze, t.facing) && 0 <= t.indexOfTriangles < |tris| ==>
                  r.tris[t.indexOfTriangles].deleted)
            && (forall t :: t in vis && !BackFacing(env.gaze, t.facing) && InView(env, t) ==>
                  t in r.kept || t in r.culled)
            && (forall t :: t in r.kept ==> t in vis && !BackFacing(env.gaze, t.facing) && InView(env, t))
  {
    var st := Cull(tris, [], [], []);
    var r := VisitNode(env, root, st);
    NodeAccounts(env, root, st);
    assert r.kept[0..] == r.kept && r.culled[0..] == r.culled;
    forall i | 0 <= i < |tris| && r.tris[i] != tris[i]
      ensures exists t :: t in r.culled && t in VisitedPrims(env, root) && t.indexOfTriangles == i
    {
      assert i in Indices(r.culled);
      var k :| 0 <= k < |r.culled| && r.culled[k].indexOfTriangles == i;
      assert r.culled[k] in r.culled;
    }
    forall t | t in VisitedPrims(env, root) && BackFacing(env.gaze, t.facing) && 0 <= t.indexOfTriangles < |tris|
      ensures r.tris[t.indexOfTriangles].deleted
    {
      var k :| 0 <= k < |r.culled| && r.culled[k] == t;
      assert t.indexOfTriangles in Indices(r.culled);
    }
  }

  // ------------------------------------------------------ the facet test

  /**
   * The camera-facing facets of a node, in view space, in order (the
   * list the renderer builds before its view-volume test).
   */
  function ViewFacets(env: Env, fs: seq<Triangle>): (r: seq<Triangle>)
    ensures |r| <= |fs|
  {
    if fs == [] then []
    else
      var f := fs[|fs| - 1];
      ViewFacets(env, fs[..|fs| - 1])
        + (if BackFacing(env.gaze, f.facing) then [] else [env.geo.transform(f, env.mvp)])
  }

  /**
   * The node is visible exactly when one of its camera-facing facets, in
   * view space, has a vertex in the canonical box.
   */
  lemma {:induction false} ViewFacetsVisible(env: Env, fs: seq<Triangle>)
    ensures NodeVisible(env, fs) <==>
            exists m :: 0 <= m < |ViewFacets(env, fs)| && VertInCanonical(ViewFacets(env, fs)[m])
  {
    if fs != [] {
      var init, f := fs[..|fs| - 1], fs[|fs| - 1];
      ViewFacetsVisible(env, init);
      var vi := ViewFacets(env, init);
      var tail := if BackFacing(env.gaze, f.facing) then [] else [env.geo.transform(f, env.mvp)];
      assert ViewFacets(env, fs) == vi + tail;
      if NodeVisible(env, fs) {
        var i :| 0 <= i < |fs| && FacetSeen(env, fs[i]);
        if i < |fs| - 1 {
          assert init[i] == fs[i];
          var m :| 0 <= m < |vi| && VertInCanonical(vi[m]);
          assert (vi + tail)[m] == vi[m];
        } else {
          assert (vi + tail)[|vi|] == env.geo.transform(f, env.mvp);
        }
      }
      if exists m :: 0 <= m < |ViewFacets(env, fs)| && VertInCanonical(ViewFacets(env, fs)[m]) {
        var m :| 0 <= m < |vi + tail| && VertInCanonical((vi + tail)[m]);
        if m < |vi| {
          assert vi[m] == (vi + tail)[m];
          var i :| 0 <= i < |init| && FacetSeen(env, init[i]);
          assert fs[i] == init[i];
        } else {
          assert FacetSeen(env, fs[|fs| - 1]);
        }
      }
    }
  }
}
