/**
 * The z-buffer renderer (class Zbuf): its initialisation flags, camera and
 * matrices, the image and depth buffers, the depth pyramid (its query
 * history since the last clear), the fragment shader, and the two index
 * logs of the octree culling pass.
 */
module Zbuffer {
  import opened Errors
  import opened Triangles
  import opened Geometry
  import opened Traversal

  datatype RenderingMethod = Naive | Zpyramid | OctreeCulling | OtherMethod(code: int)

  /** Whether an operation finished or stopped at an errorm() call. */
  datatype Status = Done | Fatal(message: string)

  const NO_CAMERA := "Camera position is not initilized\n"
  const NO_MATRICES := "Transformation matrices are not initialized\n"
  const NO_VIEWPORT := "Viewport size is not initialized\n"
  const UNHANDLED := "Unhandled rendering method encountered\n"

  type Shader = (Triangle, Triangle, Bary) -> Color

  /** The scene a renderer holds a copy of. */
  datatype Scene = Scene(primitives: seq<Triangle>, realworld: seq<Triangle>, root: Octree)

  const EMPTY_SCENE := Scene([], [], Null)
  const UNSET_CAMERA := Camera(ZERO3, 0.0, 0.0, 0.0, 0.0, ZERO3, ZERO3)
  const UNSET_MATRIX := Mat4([])

  /** The two matrices whose product is the viewport transformation. */
  function ViewportTranslation(): (m: Mat4)
    ensures |m.entries| == 16
  {
    Mat4([1.0, 0.0, 0.0, 1.0,
          0.0, 1.0, 0.0, 1.0,
          0.0, 0.0, 1.0, 0.0,
          0.0, 0.0, 0.0, 1.0])
  }

  function ViewportScale(w: int, h: int): (m: Mat4)
    ensures |m.entries| == 16
    ensures m.entries[0] == w as real * 0.5 && m.entries[5] == h as real * 0.5
  {
    Mat4([w as real * 0.5, 0.0, 0.0, 0.0,
          0.0, h as real * 0.5, 0.0, 0.0,
          0.0, 0.0, 1.0, 0.0,
          0.0, 0.0, 0.0, 1.0])
  }

  // ------------------------------------------------ rasterising one triangle

  function Min3(a: real, b: real, c: real): real {
    if a <= b && a <= c then a else if b <= c then b else c
  }

  function Max3(a: real, b: real, c: real): real {
    if a >= b && a >= c then a else if b >= c then b else c
  }

  function Ceil(r: real): int {
    -((-r).Floor)
  }

  function Clamp(x: int, lo: int, hi: int): int {
    if x < lo then lo else if x > hi then hi else x
  }

  /** The pixel range [xmin, xmax) x [ymin, ymax) scanned for a screen-space triangle. */
  datatype Box = Box(xmin: int, xmax: int, ymin: int, ymax: int)

  function AabbOf(t: Triangle, w: int, h: int): Box {
    Box(Clamp(Min3(t.A().x, t.B().x, t.C().x).Floor, 0, w - 1),
        Clamp(Ceil(Max3(t.A().x, t.B().x, t.C().x)), 0, w - 1),
        Clamp(Min3(t.A().y, t.B().y, t.C().y).Floor, 0, h - 1),
        Clamp(Ceil(Max3(t.A().y, t.B().y, t.C().y)), 0, h - 1))
  }

  predicate InBox(b: Box, i: int, j: int) {
    b.xmin <= i < b.xmax && b.ymin <= j < b.ymax
  }

  lemma ClampedRange(lo: int, hi: int, n: int)
    requires Clamp(lo, 0, n - 1) < Clamp(hi, 0, n - 1)
    requires lo <= hi
    ensures 0 <= Clamp(lo, 0, n - 1) && Clamp(hi, 0, n - 1) <= n - 1
  {
  }

  lemma {:induction false} BoxInsideScreen(t: Triangle, w: int, h: int, i: int, j: int)
    requires InBox(AabbOf(t, w, h), i, j)
    ensures 0 <= i < w - 1 && 0 <= j < h - 1
  {
    var b := AabbOf(t, w, h);
    assert Min3(t.A().x, t.B().x, t.C().x).Floor <= Ceil(Max3(t.A().x, t.B().x, t.C().x));
    assert Min3(t.A().y, t.B().y, t.C().y).Floor <= Ceil(Max3(t.A().y, t.B().y, t.C().y));
    ClampedRange(Min3(t.A().x, t.B().x, t.C().x).Floor, Ceil(Max3(t.A().x, t.B().x, t.C().x)), w);
    ClampedRange(Min3(t.A().y, t.B().y, t.C().y).Floor, Ceil(Max3(t.A().y, t.B().y, t.C().y)), h);
  }

  /**
   * Because the box is clamped to [0, w-1] x [0, h-1] and then scanned with
   * exclusive upper bounds, the last pixel column and the last pixel row
   * are never drawn, whatever the triangle.
   */
  lemma LastColumnAndRowNeverDrawn(t: Triangle, w: int, h: int, i: int, j: int)
    requires i == w - 1 || j == h - 1
    ensures !InBox(AabbOf(t, w, h), i, j)
  {
    if InBox(AabbOf(t, w, h), i, j) { BoxInsideScreen(t, w, h, i, j); }
  }

  /**
   * A pixel's depth and colour after drawing view-space triangle v: when
   * the pixel lies in the scanned box, its centre lies inside the
   * screen-space triangle and the interpolated depth is nearer than the
   * stored one, the depth is replaced and the pixel takes the shader's
   * colour; otherwise both stay. So a pixel outside the box is never
   * touched, a depth is only ever replaced by a strictly nearer one, and
   * the colour changes only together with the depth.
   */
  function PixelAfter(geo: Geometry, viewport: Mat4, shade: Shader, w: int, h: int,
                      v: Triangle, i: int, j: int, d: Depth, c: Color): (p: (Depth, Color))
    ensures !InBox(AabbOf(geo.transform(v, viewport), w, h), i, j) ==> p == (d, c)
    ensures p.0 == d ==> p.1 == c
    ensures p.0 != d ==> p.0.At? && Nearer(p.0.z, d)
  {
    var t := geo.transform(v, viewport);
    var x, y := 0.5 + i as real, 0.5 + j as real;
    if InBox(AabbOf(t, w, h), i, j) && geo.contains(t, x, y) then
      var bary := geo.barycentric(t, x, y);
      var z := geo.viewDepth(v, bary);
      if Nearer(z, d) then (At(z), shade(t, v, bary)) else (d, c)
    else (d, c)
  }

  class Zbuf {
    const geo: Geometry
    var primitives: seq<Triangle>     // scene.primitives()
    var realworld: seq<Triangle>      // scene.realworld_triangles
    const root: Octree                // scene.root
    var cam: Camera
    var camInitialized: bool
    var mvpInitialized: bool
    var viewportInitialized: bool
    var model: Mat4
    var view: Mat4
    var projection: Mat4
    var mvp: Mat4
    var viewport: Mat4
    var w: int
    var h: int
    var img: array2<Color>
    var depth: array2<Depth>          // the depth pyramid's finest level, z(x, y)
    var queries: seq<Triangle>        // triangles queried of the pyramid since its last clear
    var shader: Option<Shader>        // frag_shader (nullptr is None)
    var keptLog: seq<Triangle>        // lines written to ./out_index.obj
    var culledLog: seq<Triangle>      // lines written to ./out_index_culled.obj

    ghost predicate Valid()
      reads this
    {
      img.Length0 == w && img.Length1 == h && depth.Length0 == w && depth.Length1 == h
    }

    function DepthGrid(): (g: seq<seq<Depth>>)
      reads this`depth, depth
      ensures |g| == depth.Length0
      ensures forall i :: 0 <= i < depth.Length0 ==> |g[i]| == depth.Length1
      ensures forall i, j :: 0 <= i < depth.Length0 && 0 <= j < depth.Length1 ==> g[i][j] == depth[i, j]
    {
      var d := depth;
      seq(d.Length0, i requires 0 <= i < d.Length0 reads d =>
        seq(d.Length1, j requires 0 <= j < d.Length1 reads d => d[i, j]))
    }

    /** What the octree pass reads. */
    function OctreeEnv(): Env
      reads this`cam, this`mvp, this`viewport, this`depth, depth
    {
      Env(cam.gaze, mvp, viewport, DepthGrid(), geo)
    }

    /** What the octree pass changes. */
    function CullState(): Cull
      reads this`realworld, this`keptLog, this`culledLog, this`queries
    {
      Cull(realworld, keptLog, culledLog, queries)
    }

    /** Zbuf(s): no camera, no matrices, no viewport, no shader. */
    constructor (geometry: Geometry, s: Scene)
      ensures Valid() && w == 0 && h == 0
      ensures geo == geometry && primitives == s.primitives && realworld == s.realworld && root == s.root
      ensures !camInitialized && !mvpInitialized && !viewportInitialized && shader == None
      ensures queries == [] && keptLog == [] && culledLog == []
    {
      geo := geometry;
      primitives, realworld, root := s.primitives, s.realworld, s.root;
      cam := UNSET_CAMERA;
      camInitialized, mvpInitialized, viewportInitialized := false, false, false;
      model, view, projection, mvp, viewport := UNSET_MATRIX, UNSET_MATRIX, UNSET_MATRIX, UNSET_MATRIX, UNSET_MATRIX;
      w, h := 0, 0;
      img := new Color[0, 0];
      depth := new Depth[0, 0];
      queries := [];
      shader := None;
      keptLog, culledLog := [], [];
    }

    /** Zbuf(s, width, height): as Zbuf(s), then init_viewport(width, height). */
    constructor WithViewport(geometry: Geometry, s: Scene, width: nat, height: nat)
      ensures Valid() && w == width && h == height
      ensures geo == geometry && primitives == s.primitives && realworld == s.realworld && root == s.root
      ensures !camInitialized && !mvpInitialized && viewportInitialized && shader == None
      ensures viewport == geo.mul(ViewportTranslation(), ViewportScale(width, height))
      ensures forall i, j :: 0 <= i < w && 0 <= j < h ==> depth[i, j] == Far && img[i, j] == BLACK
      ensures queries == [] && keptLog == [] && culledLog == []
    {
      geo := geometry;
      primitives, realworld, root := s.primitives, s.realworld, s.root;
      cam := UNSET_CAMERA;
      camInitialized, mvpInitialized, viewportInitialized := false, false, false;
      model, view, projection, mvp, viewport := UNSET_MATRIX, UNSET_MATRIX, UNSET_MATRIX, UNSET_MATRIX, UNSET_MATRIX;
      w, h := 0, 0;
      img := new Color[0, 0];
      depth := new Depth[0, 0];
      queries := [];
      shader := None;
      keptLog, culledLog := [], [];
      new;
      InitViewport(width, height);
    }

    /** init_viewport: sets the size, the viewport matrix, a blank image and a cleared pyramid. */
    method InitViewport(width: nat, height: nat)
      modifies this
      ensures Valid() && w == width && h == height && viewportInitialized
      ensures fresh(img) && fresh(depth)
      ensures viewport == geo.mul(ViewportTranslation(), ViewportScale(width, height))
      ensures forall i, j :: 0 <= i < w && 0 <= j < h ==> depth[i, j] == Far && img[i, j] == BLACK
      ensures queries == []
      ensures cam == old(cam) && camInitialized == old(camInitialized)
      ensures mvp == old(mvp) && mvpInitialized == old(mvpInitialized) && shader == old(shader)
      ensures primitives == old(primitives) && realworld == old(realworld)
      ensures keptLog == old(keptLog) && culledLog == old(culledLog)
      ensures model == old(model) && view == old(view) && projection == old(projection)
    {
      h := height;
      w := width;
      viewport := geo.mul(ViewportTranslation(), ViewportScale(w, h));
      img := new Color[w, h]((i, j) => BLACK);
      depth := new Depth[w, h]((i, j) => Far);
      queries := [];
      viewportInitialized := true;
    }

    /** reset: a blank image and a cleared depth pyramid. */
    method Reset()
      requires Valid()
      modifies img, depth, this`queries
      ensures forall i, j :: 0 <= i < w && 0 <= j < h ==> depth[i, j] == Far && img[i, j] == BLACK
      ensures queries == []
    {
      var i := 0;
      while i < w
        invariant 0 <= i <= w
        invariant forall a, b :: 0 <= a < i && 0 <= b < h ==> depth[a, b] == Far && img[a, b] == BLACK
      {
        var j := 0;
        while j < h
          invariant 0 <= j <= h
          invariant forall a, b :: 0 <= a < i && 0 <= b < h ==> depth[a, b] == Far && img[a, b] == BLACK
          invariant forall b :: 0 <= b < j ==> depth[i, b] == Far && img[i, b] == BLACK
        {
          depth[i, j] := Far;
          img[i, j] := BLACK;
          j := j + 1;
        }
        i := i + 1;
      }
      queries := [];
    }

    method SetShader(f: Shader)
      modifies this`shader
      ensures shader == Some(f)
    {
      shader := Some(f);
    }

    /** init_cam(camera). */
    method InitCam(c: Camera)
      modifies this`cam, this`camInitialized
      ensures cam == c && camInitialized
    {
      cam := c;
      camInitialized := true;
    }

    /** init_cam(eye, fovy, aspect_ratio, znear, zfar, gaze, up). */
    method InitCamWith(eye: Vec3, fovy: real, aspectRatio: real, znear: real, zfar: real, gaze: Vec3, up: Vec3)
      modifies this`cam, this`camInitialized
      ensures cam == Camera(eye, fovy, aspectRatio, znear, zfar, gaze, up) && camInitialized
    {
      cam := Camera(eye, fovy, aspectRatio, znear, zfar, gaze, up);
      camInitialized := true;
    }

    /**
     * set_model_transformation: stops when no camera was set; otherwise
     * stores the model matrix, derives the view and projection matrices
     * from the camera and sets mvp = model * view * projection.
     */
    method SetModelTransformation(m: Mat4) returns (status: Status)
      modifies this`model, this`view, this`projection, this`mvp, this`mvpInitialized
      ensures !camInitialized ==> status == Fatal(NO_CAMERA) && unchanged(this)
      ensures camInitialized ==>
        (status == Done && model == m && mvpInitialized
         && view == geo.viewOf(cam) && projection == geo.projectionOf(cam)
         && mvp == geo.mul(geo.mul(m, view), projection))
    {
      if !camInitialized {
        return Fatal(NO_CAMERA);
      }
      model := m;
      view := geo.viewOf(cam);
      projection := geo.projectionOf(cam);
      mvp := geo.mul(geo.mul(model, view), projection);
      mvpInitialized := true;
      status := Done;
    }

    /**
     * _draw_triangle_with_zpyramid: maps the view-space triangle to the
     * screen and asks the depth pyramid whether it is visible.
     */
    method DrawTriangleWithZpyramid(v: Triangle) returns (ret: bool)
      modifies this`queries
      ensures ret == geo.visible(DepthGrid(), old(queries), geo.transform(v, viewport))
      ensures queries == old(queries) + [geo.transform(v, viewport)]
    {
      var t := geo.transform(v, viewport);
      ret := geo.visible(DepthGrid(), queries, t);
      queries := queries + [t];
    }

    /**
     * _draw_triangle_with_aabb: scans the clamped bounding box of the
     * screen-space triangle and updates every covered pixel whose depth
     * test passes; every other pixel is unchanged.
     */
    method DrawTriangleWithAabb(v: Triangle)
      requires Valid() && shader.Some?
      modifies depth, img
      ensures forall i, j :: 0 <= i < w && 0 <= j < h ==>
        (depth[i, j], img[i, j]) == PixelAfter(geo, viewport, shader.value, w, h, v, i, j, old(depth[i, j]), old(img[i, j]))
    {
      var t := geo.transform(v, viewport);
      var box := AabbOf(t, w, h);
      var shade := shader.value;
      var j := box.ymin;
      while j < box.ymax
        invariant box.ymin <= j && (box.ymin < box.ymax ==> j <= box.ymax)
        invariant forall a, b :: 0 <= a < w && 0 <= b < h ==>
          (depth[a, b], img[a, b]) == if b < j then PixelAfter(geo, viewport, shade, w, h, v, a, b, old(depth[a, b]), old(img[a, b]))
                                      else (old(depth[a, b]), old(img[a, b]))
      {
        var i := box.xmin;
        while i < box.xmax
          invariant box.xmin <= i && (box.xmin < box.xmax ==> i <= box.xmax)
          invariant forall a, b :: 0 <= a < w && 0 <= b < h ==>
            (depth[a, b], img[a, b]) == if b < j || (b == j && a < i) then PixelAfter(geo, viewport, shade, w, h, v, a, b, old(depth[a, b]), old(img[a, b]))
                                        else (old(depth[a, b]), old(img[a, b]))
        {
          BoxInsideScreen(t, w, h, i, j);
          var x, y := 0.5 + i as real, 0.5 + j as real;
          if geo.contains(t, x, y) {
            var bary := geo.barycentric(t, x, y);
            var realZ := geo.viewDepth(v, bary);
            if Nearer(realZ, depth[i, j]) {
              var icol := shade(t, v, bary);
              depth[i, j] := At(realZ);
              img[i, j] := icol;
            }
          }
          i := i + 1;
        }
        j := j + 1;
      }
    }

    /** The camera-facing facets of a node, moved to view space. */
    method FacetsInViewSpace(fs: seq<Triangle>) returns (facets: seq<Triangle>)
      ensures facets == ViewFacets(OctreeEnv(), fs)
    {
      facets := [];
      var i := 0;
      while i < |fs|
        invariant 0 <= i <= |fs|
        invariant facets == ViewFacets(OctreeEnv(), fs[..i])
      {
        if !BackFacing(cam.gaze, fs[i].facing) {
          facets := facets + [geo.transform(fs[i], mvp)];
        }
        assert fs[..i + 1][..i] == fs[..i];
        i := i + 1;
      }
      assert fs[..i] == fs;
    }

    /**
     * One scene triangle of a visited node: face culling, the view-volume
     * test, then the depth-pyramid test, as Traversal.VisitPrim says.
     */
    method RenderPrim(t: Triangle)
      modifies this`realworld, this`keptLog, this`culledLog, this`queries
      ensures CullState() == VisitPrim(OctreeEnv(), t, old(CullState()))
    {
      if BackFacing(cam.gaze, t.facing) {
        if 0 <= t.indexOfTriangles < |realworld| {
          realworld := realworld[t.indexOfTriangles := realworld[t.indexOfTriangles].(deleted := true)];
        }
        culledLog := culledLog + [t];
      } else {
        var v := geo.transform(t, mvp);
        if VertInCanonical(v) {
          var seen := DrawTriangleWithZpyramid(v);
          if seen {
            keptLog := keptLog + [t];
          } else {
            if 0 <= t.indexOfTriangles < |realworld| {
              realworld := realworld[t.indexOfTriangles := realworld[t.indexOfTriangles].(deleted := true)];
            }
            culledLog := culledLog + [t];
          }
        }
      }
    }

    /** The scene triangles of a visited node, in order. */
    method RenderPrims(ps: seq<Triangle>)
      modifies this`realworld, this`keptLog, this`culledLog, this`queries
      ensures CullState() == VisitPrims(OctreeEnv(), ps, old(CullState()))
      ensures OctreeEnv() == old(OctreeEnv())
    {
      ghost var env := OctreeEnv();
      ghost var st0 := CullState();
      assert ps[0..] == ps;
      var j := 0;
      while j < |ps|
        invariant 0 <= j <= |ps|
        invariant VisitPrims(env, ps, st0) == VisitPrims(env, ps[j..], CullState())
        invariant OctreeEnv() == env
      {
        ghost var prev := CullState();
        RenderPrim(ps[j]);
        assert ps[j..][1..] == ps[j + 1..];
        assert VisitPrims(env, ps[j..], prev) == VisitPrims(env, ps[j + 1..], VisitPrim(env, ps[j], prev));
        j := j + 1;
      }
      assert ps[j..] == [];
    }

    /** Whether some facet, in view space, has a vertex in the canonical box. */
    method AnyInCanonical(facets: seq<Triangle>) returns (visible: bool)
      ensures visible <==> exists m :: 0 <= m < |facets| && VertInCanonical(facets[m])
    {
      var invisible := true;
      var k := 0;
      while k < |facets|
        invariant 0 <= k <= |facets|
        invariant invisible <==> forall m :: 0 <= m < k ==> !VertInCanonical(facets[m])
      {
        if VertInCanonical(facets[k]) {
          invisible := false;
        }
        k := k + 1;
      }
      visible := !invisible;
    }

    /**
     * _render_with_octree(node): the facet test, then the node's scene
     * triangles, then the non-null children, as Traversal.VisitNode says.
     */
    method RenderWithOctree(node: Octree)
      modifies this`realworld, this`keptLog, this`culledLog, this`queries
      ensures CullState() == VisitNode(OctreeEnv(), node, old(CullState()))
      ensures OctreeEnv() == old(OctreeEnv())
      decreases Size(node), 0
    {
      if node.Null? {
        return;
      }
      ghost var env := OctreeEnv();
      ghost var st0 := CullState();
      var facets := FacetsInViewSpace(node.facets);
      var visible := AnyInCanonical(facets);
      ViewFacetsVisible(env, node.facets);
      if !visible {
        assert !NodeVisible(env, node.facets);
        return;
      }
      ghost var st1 := VisitPrims(env, node.prims, st0);
      assert VisitNode(env, node, st0) == VisitChildren(env, node.children, st1);
      RenderPrims(node.prims);
      assert OctreeEnv() == env && CullState() == st1;
      RenderChildren(node.children);
      assert OctreeEnv() == env;
    }

    /** The recursion into the non-null children, in order. */
    method RenderChildren(cs: seq<Octree>)
      modifies this`realworld, this`keptLog, this`culledLog, this`queries
      ensures CullState() == VisitChildren(OctreeEnv(), cs, old(CullState()))
      ensures OctreeEnv() == old(OctreeEnv())
      decreases SumSizes(cs), 1
    {
      ghost var env := OctreeEnv();
      ghost var st1 := CullState();
      assert cs[0..] == cs;
      var c := 0;
      while c < |cs|
        invariant 0 <= c <= |cs|
        invariant VisitChildren(env, cs, st1) == VisitChildren(env, cs[c..], CullState())
        invariant OctreeEnv() == env
      {
        ghost var prev := CullState();
        var child := cs[c];
        if !child.Null? {
          ChildSize(cs, c);
          RenderWithOctree(child);
          assert CullState() == VisitNode(env, child, prev);
        }
        assert CullState() == if child.Null? then prev else VisitNode(env, child, prev);
        assert cs[c..][1..] == cs[c + 1..];
        assert VisitChildren(env, cs[c..], prev)
            == VisitChildren(env, cs[c + 1..], if child.Null? then prev else VisitNode(env, child, prev));
        c := c + 1;
      }
      assert cs[c..] == [];
    }

    /** The octree branch of render: both logs are opened for writing (emptied), then the pass runs from the root. */
    method CullFromRoot()
      modifies this`realworld, this`keptLog, this`culledLog, this`queries
      ensures CullState() == VisitNode(OctreeEnv(), root, Cull(old(realworld), [], [], old(queries)))
    {
      keptLog, culledLog := [], [];
      RenderWithOctree(root);
    }

    predicate Ready()
      reads this`camInitialized, this`mvpInitialized, this`viewportInitialized
    {
      camInitialized && mvpInitialized && viewportInitialized
    }

    /**
     * render(type): stops unless the camera, the matrices and the viewport
     * are set. The octree method truncates both index logs and runs the
     * culling pass from the root; the others convert the scene to view
     * space and draw every primitive, with the depth pyramid or with the
     * bounding-box rasteriser, and stop at the first primitive when the
     * method is not one of these.
     */
    method Render(kind: RenderingMethod) returns (status: Status)
      requires Valid()
      requires kind.Naive? && Ready() && geo.toViewspace(primitives, mvp, cam.gaze) != [] ==> shader.Some?
      modifies this`primitives, this`realworld, this`keptLog, this`culledLog, this`queries, depth, img
      ensures Valid()
      ensures (status == Fatal(NO_CAMERA)) == !camInitialized
      ensures (status == Fatal(NO_MATRICES)) == (camInitialized && !mvpInitialized)
      ensures (status == Fatal(NO_VIEWPORT)) == (camInitialized && mvpInitialized && !viewportInitialized)
      ensures !Ready() ==> primitives == old(primitives) && CullState() == old(CullState()) && unchanged(depth, img)
      ensures Ready() && kind.OctreeCulling? ==>
        status == Done && primitives == old(primitives) && unchanged(depth, img)
        && CullState() == VisitNode(OctreeEnv(), root, Cull(old(realworld), [], [], old(queries)))
      ensures Ready() && !kind.OctreeCulling? ==>
        primitives == geo.toViewspace(old(primitives), mvp, cam.gaze)
        && realworld == old(realworld) && keptLog == old(keptLog) && culledLog == old(culledLog)
      ensures Ready() && kind.Zpyramid? ==>
        status == Done && queries == old(queries) + ScreensOf(geo, viewport, primitives) && unchanged(depth, img)
      ensures Ready() && kind.Naive? ==> status == Done && queries == old(queries)
      ensures Ready() && kind.OtherMethod? ==>
        status == (if primitives == [] then Done else Fatal(UNHANDLED))
        && queries == old(queries) && unchanged(depth, img)
    {
      if !camInitialized {
        return Fatal(NO_CAMERA);
      }
      if !mvpInitialized {
        return Fatal(NO_MATRICES);
      }
      if !viewportInitialized {
        return Fatal(NO_VIEWPORT);
      }
      status := RenderReady(kind);
    }

    /** render(type) once the camera, the matrices and the viewport are set. */
    method RenderReady(kind: RenderingMethod) returns (status: Status)
      requires Valid() && Ready()
      requires kind.Naive? && geo.toViewspace(primitives, mvp, cam.gaze) != [] ==> shader.Some?
      modifies this`primitives, this`realworld, this`keptLog, this`culledLog, this`queries, depth, img
      ensures Valid()
      ensures status != Fatal(NO_CAMERA) && status != Fatal(NO_MATRICES) && status != Fatal(NO_VIEWPORT)
      ensures kind.OctreeCulling? ==>
        status == Done && primitives == old(primitives) && unchanged(depth, img)
        && CullState() == VisitNode(OctreeEnv(), root, Cull(old(realworld), [], [], old(queries)))
      ensures !kind.OctreeCulling? ==>
        primitives == geo.toViewspace(old(primitives), mvp, cam.gaze)
        && realworld == old(realworld) && keptLog == old(keptLog) && culledLog == old(culledLog)
      ensures kind.Zpyramid? ==>
        status == Done && queries == old(queries) + ScreensOf(geo, viewport, primitives) && unchanged(depth, img)
      ensures kind.Naive? ==> status == Done && queries == old(queries)
      ensures kind.OtherMethod? ==>
        status == (if primitives == [] then Done else Fatal(UNHANDLED))
        && queries == old(queries) && unchanged(depth, img)
    {
      if kind.OctreeCulling? {
        CullFromRoot();
        return Done;
      }
      primitives := geo.toViewspace(primitives, mvp, cam.gaze);
      status := DrawPrimitives(kind);
    }

    /** The per-primitive loop of render for the methods other than the octree. */
    method DrawPrimitives(kind: RenderingMethod) returns (status: Status)
      requires Valid() && !kind.OctreeCulling?
      requires kind.Naive? && primitives != [] ==> shader.Some?
      modifies this`queries, depth, img
      ensures Valid()
      ensures kind.Zpyramid? ==>
        status == Done && queries == old(queries) + ScreensOf(geo, viewport, primitives) && unchanged(depth, img)
      ensures kind.Naive? ==> status == Done && queries == old(queries)
      ensures kind.OtherMethod? ==>
        status == (if primitives == [] then Done else Fatal(UNHANDLED))
        && queries == old(queries) && unchanged(depth, img)
    {
      var n := 0;
      while n < |primitives|
        invariant 0 <= n <= |primitives|
        invariant Valid()
        invariant kind.Zpyramid? ==> queries == old(queries) + ScreensOf(geo, viewport, primitives[..n])
        invariant !kind.Zpyramid? ==> queries == old(queries)
        invariant !kind.Naive? ==> unchanged(depth, img)
        invariant kind.OtherMethod? ==> n == 0
      {
        if kind.Zpyramid? {
          var _ := DrawTriangleWithZpyramid(primitives[n]);
          assert primitives[..n + 1] == primitives[..n] + [primitives[n]];
        } else if kind.Naive? {
          DrawTriangleWithAabb(primitives[n]);
        } else {
          return Fatal(UNHANDLED);
        }
        n := n + 1;
      }
      assert primitives[..n] == primitives;
      status := Done;
    }
  }

  /** The screen-space images of view-space triangles, in order. */
  function ScreensOf(geo: Geometry, viewport: Mat4, ts: seq<Triangle>): (r: seq<Triangle>)
    ensures |r| == |ts|
    ensures forall k :: 0 <= k < |ts| ==> r[k] == geo.transform(ts[k], viewport)
  {
    if ts == [] then [] else ScreensOf(geo, viewport, ts[..|ts| - 1]) + [geo.transform(ts[|ts| - 1], viewport)]
  }
}
