/**
 * exportGLTF: the new records of a culled asset as a glTF document. The
 * document is built as a JSON value here; writing it to sceneTest.gltf
 * and the progress messages are not modelled.
 *
 * The source names node i + 1 and mesh i after meshesName[i]. Exported
 * with byMesh set, they take the name of new mesh i instead, which is the
 * name of the mesh its triangles come from.
 */
module GltfExport {
  import opened Errors
  import opened Ints
  import opened GltfTypes
  import opened Json

  /** An integer member; this value type does not tell integers from other numbers. */
  function Int(n: int): Value {
    Number(n as real)
  }

  /** Entry i of bufferViews; only the first view states its stride. */
  function ViewJson(v: NewBufferView, i: int): Value {
    var fields := map["buffer" := Int(0), "byteOffset" := Int(v.byteOffset), "byteLength" := Int(v.byteLength)];
    var fields := if i == 0 then fields["byteStride" := Int(v.byteStride)] else fields;
    Object(fields["target" := Int(v.target)])
  }

  /** Entry i of accessors: the even ones hold indices, the odd ones vertex positions. */
  function AccessorJson(a: NewAccessor, i: int): Value {
    Object(map["bufferView" := Int(a.bufferView), "byteOffset" := Int(a.byteOffset),
               "componentType" := Int(a.componentType), "count" := Int(a.count),
               "type" := String(if i % 2 == 0 then "SCALAR" else "VEC3")])
  }

  /**
   * Node 0, the root of the scene: its children are nodes 1 .. n. With
   * no new mesh nothing is appended, and it stays a null value.
   */
  function RootNode(n: nat): Value {
    if n == 0 then Null else Object(map["children" := Array(seq(n, i => Int(i + 1)))])
  }

  function NodeJson(i: int, name: string): Value {
    Object(map["mesh" := Int(i), "name" := String(name)])
  }

  /**
   * The POSITION attribute as the subscript of a std::map reads it: a
   * missing key reads as 0.
   */
  function Position(p: Primitive): int {
    if "POSITION" in p.attributes then p.attributes["POSITION"] else 0
  }

  /** Mesh i: a single primitive, with the indices and POSITION accessors of the first primitive of new mesh i. */
  function MeshJson(m: NewMesh, name: string): Value
    requires m.primitives != []
  {
    var p := m.primitives[0];
    Object(map["primitives" := Array([Object(map["indices" := Int(p.indices),
                                                 "attributes" := Object(map["POSITION" := Int(Position(p))])])]),
               "name" := String(name)])
  }

  /** The number of meshes exported: one per entry of newmeshesLength. */
  function MeshCount(asset: Asset): nat {
    |asset.newmeshesLength|
  }

  /** Every exported mesh has a name to take: from meshesName, or exported by mesh, from its new mesh. */
  predicate Named(asset: Asset, byMesh: bool) {
    if byMesh then |asset.newMeshes| >= MeshCount(asset) else |asset.meshesName| >= MeshCount(asset)
  }

  /** The exported meshes have a name and a first primitive to copy. */
  predicate Exportable(asset: Asset, byMesh: bool) {
    Named(asset, byMesh) && |asset.newMeshes| >= MeshCount(asset) &&
    forall i :: 0 <= i < MeshCount(asset) ==> asset.newMeshes[i].primitives != []
  }

  /** The name given to node i + 1 and mesh i. */
  function NameOf(asset: Asset, byMesh: bool, i: nat): string
    requires Named(asset, byMesh) && i < MeshCount(asset)
  {
    if byMesh then asset.newMeshes[i].name else asset.meshesName[i]
  }

  function ViewsJson(views: seq<NewBufferView>): seq<Value> {
    seq(|views|, i requires 0 <= i < |views| => ViewJson(views[i], i))
  }

  function AccessorsJson(accessors: seq<NewAccessor>): seq<Value> {
    seq(|accessors|, i requires 0 <= i < |accessors| => AccessorJson(accessors[i], i))
  }

  /** Node 0, then node i + 1 for new mesh i. */
  function NodesJson(asset: Asset, byMesh: bool): seq<Value>
    requires Named(asset, byMesh)
  {
    [RootNode(MeshCount(asset))] +
    seq(MeshCount(asset), i requires 0 <= i < MeshCount(asset) => NodeJson(i, NameOf(asset, byMesh, i)))
  }

  function MeshesJson(asset: Asset, byMesh: bool): seq<Value>
    requires Exportable(asset, byMesh)
  {
    seq(MeshCount(asset), i requires 0 <= i < MeshCount(asset) => MeshJson(asset.newMeshes[i], NameOf(asset, byMesh, i)))
  }

  /** The document of an exportable asset. */
  function Document(asset: Asset, byMesh: bool): Value
    requires Exportable(asset, byMesh)
  {
    Object(map[
      "asset" := Object(map["generator" := String(asset.metadata.generator), "version" := String(asset.metadata.version)]),
      "buffers" := Array([Object(map["byteLength" := Int(asset.newBufferLength), "uri" := String("sceneTest.bin")])]),
      "bufferViews" := Array(ViewsJson(asset.newBufferViews)),
      "accessors" := Array(AccessorsJson(asset.newAccessors)),
      "scene" := Int(0),
      "scenes" := Array([Object(map["nodes" := Array([Int(0)])])]),
      "nodes" := Array(NodesJson(asset, byMesh)),
      "meshes" := Array(MeshesJson(asset, byMesh))])
  }

  /**
   * exportGLTF's tree. The vector subscripts are unchecked, so a name, a
   * new mesh or a first primitive that is not there is an error; the
   * names are all read (by the node loop) before the first new mesh is.
   */
  function Exported(asset: Asset, byMesh: bool): Result<Value> {
    if !Named(asset, byMesh) then Err(OutOfRange(if byMesh then "newMeshes[i]" else "meshesName[i]"))
    else if !Exportable(asset, byMesh) then Err(OutOfRange("newMeshes[i].primitives[0]"))
    else Ok(Document(asset, byMesh))
  }

  // ---------------------------------------------------------------------
  // The statements of exportGLTF
  // ---------------------------------------------------------------------

  method ExportViews(views: seq<NewBufferView>) returns (items: seq<Value>)
    ensures items == ViewsJson(views)
  {
    items := [];
    for i := 0 to |views|
      invariant items == seq(i, k requires 0 <= k < i => ViewJson(views[k], k))
    {
      var fields := map["buffer" := Int(0), "byteOffset" := Int(views[i].byteOffset), "byteLength" := Int(views[i].byteLength)];
      if i == 0 {
        fields := fields["byteStride" := Int(views[i].byteStride)];
      }
      fields := fields["target" := Int(views[i].target)];
      items := items + [Object(fields)];
    }
  }

  method ExportAccessors(accessors: seq<NewAccessor>) returns (items: seq<Value>)
    ensures items == AccessorsJson(accessors)
  {
    items := [];
    for i := 0 to |accessors|
      invariant items == seq(i, k requires 0 <= k < i => AccessorJson(accessors[k], k))
    {
      var a := accessors[i];
      var fields := map["bufferView" := Int(a.bufferView), "byteOffset" := Int(a.byteOffset),
                        "componentType" := Int(a.componentType), "count" := Int(a.count)];
      if i % 2 == 0 {
        fields := fields["type" := String("SCALAR")];
      } else {
        fields := fields["type" := String("VEC3")];
      }
      items := items + [Object(fields)];
    }
  }

  /** The two node loops: node 0 gathers the children, then node i + 1 is named meshesName[i]. */
  method ExportNodes(asset: Asset) returns (r: Result<seq<Value>>)
    ensures r.Ok? <==> |asset.meshesName| >= MeshCount(asset)
    ensures r.Err? ==> r.error == OutOfRange("meshesName[i]")
    ensures r.Ok? ==> r.value == NodesJson(asset, false)
  {
    var n := |asset.newmeshesLength|;
    var root := Null;
    var children: seq<Value> := [];
    for i := 0 to n
      invariant children == seq(i, k => Int(k + 1))
      invariant root == RootNode(i)
    {
      children := children + [Int(i + 1)];
      root := Object(map["children" := Array(children)]);
    }
    var items := [root];
    for i := 0 to n
      invariant |asset.meshesName| >= i
      invariant items == [root] + seq(i, k requires 0 <= k < i => NodeJson(k, asset.meshesName[k]))
    {
      if !(i < |asset.meshesName|) {
        return Err(OutOfRange("meshesName[i]"));
      }
      items := items + [NodeJson(i, asset.meshesName[i])];
    }
    assert items == NodesJson(asset, false);
    r := Ok(items);
  }

  /** The mesh loop: mesh i copies the first primitive of new mesh i. */
  method ExportMeshes(asset: Asset) returns (r: Result<seq<Value>>)
    requires |asset.meshesName| >= MeshCount(asset)
    ensures r.Ok? <==> Exportable(asset, false)
    ensures r.Err? ==> r.error == OutOfRange("newMeshes[i].primitives[0]")
    ensures r.Ok? ==> r.value == MeshesJson(asset, false)
  {
    var n := |asset.newmeshesLength|;
    var items: seq<Value> := [];
    for i := 0 to n
      invariant |asset.newMeshes| >= i && forall k :: 0 <= k < i ==> asset.newMeshes[k].primitives != []
      invariant items == seq(i, k requires 0 <= k < i => MeshJson(asset.newMeshes[k], asset.meshesName[k]))
    {
      if !(i < |asset.newMeshes| && asset.newMeshes[i].primitives != []) {
        return Err(OutOfRange("newMeshes[i].primitives[0]"));
      }
      var p := asset.newMeshes[i].primitives[0];
      var attributes := Object(map["POSITION" := Int(Position(p))]);
      var primitive := Object(map["indices" := Int(p.indices), "attributes" := attributes]);
      items := items + [Object(map["primitives" := Array([primitive]), "name" := String(asset.meshesName[i])])];
    }
    assert items == MeshesJson(asset, false);
    r := Ok(items);
  }

  /** exportGLTF up to the file write. */
  method ExportGltf(asset: Asset) returns (r: Result<Value>)
    ensures r == Exported(asset, false)
  {
    var ass := Object(map["generator" := String(asset.metadata.generator), "version" := String(asset.metadata.version)]);
    var buffers := [Object(map["byteLength" := Int(asset.newBufferLength), "uri" := String("sceneTest.bin")])];
    var views := ExportViews(asset.newBufferViews);
    var accessors := ExportAccessors(asset.newAccessors);
    var scenes := [Object(map["nodes" := Array([Int(0)])])];
    var nodes := ExportNodes(asset);
    if nodes.Err? {
      return Err(nodes.error);
    }
    var meshes := ExportMeshes(asset);
    if meshes.Err? {
      return Err(meshes.error);
    }
    r := Ok(Object(map["asset" := ass, "buffers" := Array(buffers), "bufferViews" := Array(views),
                       "accessors" := Array(accessors), "scene" := Int(0), "scenes" := Array(scenes),
                       "nodes" := Array(nodes.value), "meshes" := Array(meshes.value)]));
  }

  // ---------------------------------------------------------------------
  // Reading the document back
  // ---------------------------------------------------------------------

  /** Member `key` of an object; null when there is none. */
  function Member(v: Value, key: string): (m: Value)
    ensures Find(v, key).Some? ==> m == Find(v, key).value
  {
    match Find(v, key)
    case Some(m) => m
    case None => Null
  }

  /** Element i of an array; null when there is none. */
  function Element(v: Value, i: int): Value {
    if v.Array? && 0 <= i < |v.items| then v.items[i] else Null
  }

  /** The number of elements of an array. */
  function Length(v: Value): nat {
    if v.Array? then |v.items| else 0
  }

  /** Member `key`, read as an integer the way the loader reads one. */
  function IntMember(v: Value, key: string): Result<int> {
    ToInteger(Member(v, key))
  }

  /** An integer written as a number reads back as itself. */
  lemma IntReadsBack(n: int)
    ensures ToInteger(Int(n)) == Ok(n)
  {
    if n < 0 {
      assert -(n as real) == (-n) as real;
      assert ((-n) as real).Floor == -n;
    } else {
      assert (n as real).Floor == n;
    }
  }

  /** The one buffer: sceneTest.bin, as long as the new buffer. */
  lemma ExportedBuffer(asset: Asset, byMesh: bool)
    requires Exported(asset, byMesh).Ok?
    ensures var buffers := Member(Exported(asset, byMesh).value, "buffers");
            Length(buffers) == 1 &&
            IntMember(Element(buffers, 0), "byteLength") == Ok(asset.newBufferLength) &&
            Member(Element(buffers, 0), "uri") == String("sceneTest.bin")
  {
    IntReadsBack(asset.newBufferLength);
  }

  /**
   * One view per new buffer view, each in buffer 0 with the offset,
   * length and target of that view; only view 0 has a stride.
   */
  lemma ExportedView(asset: Asset, byMesh: bool, i: nat)
    requires Exported(asset, byMesh).Ok? && i < |asset.newBufferViews|
    ensures var views := Member(Exported(asset, byMesh).value, "bufferViews");
            var v := asset.newBufferViews[i];
            Length(views) == |asset.newBufferViews| &&
            IntMember(Element(views, i), "buffer") == Ok(0) &&
            IntMember(Element(views, i), "byteOffset") == Ok(v.byteOffset) &&
            IntMember(Element(views, i), "byteLength") == Ok(v.byteLength) &&
            IntMember(Element(views, i), "target") == Ok(v.target) &&
            (Has(Element(views, i), "byteStride") <==> i == 0) &&
            (i == 0 ==> IntMember(Element(views, i), "byteStride") == Ok(v.byteStride))
  {
    var v := asset.newBufferViews[i];
    IntReadsBack(0);
    IntReadsBack(v.byteOffset);
    IntReadsBack(v.byteLength);
    IntReadsBack(v.target);
    IntReadsBack(v.byteStride);
  }

  /** One accessor per new accessor, with its fields; the types alternate SCALAR and VEC3. */
  lemma ExportedAccessor(asset: Asset, byMesh: bool, i: nat)
    requires Exported(asset, byMesh).Ok? && i < |asset.newAccessors|
    ensures var accessors := Member(Exported(asset, byMesh).value, "accessors");
            var a := asset.newAccessors[i];
            Length(accessors) == |asset.newAccessors| &&
            IntMember(Element(accessors, i), "bufferView") == Ok(a.bufferView) &&
            IntMember(Element(accessors, i), "byteOffset") == Ok(a.byteOffset) &&
            IntMember(Element(accessors, i), "componentType") == Ok(a.componentType) &&
            IntMember(Element(accessors, i), "count") == Ok(a.count) &&
            Member(Element(accessors, i), "type") == String(if i % 2 == 0 then "SCALAR" else "VEC3")
  {
    var a := asset.newAccessors[i];
    IntReadsBack(a.bufferView);
    IntReadsBack(a.byteOffset);
    IntReadsBack(a.componentType);
    IntReadsBack(a.count);
  }

  /** The default scene is scene 0, the only one, and its one root is node 0. */
  lemma ExportedScene(asset: Asset, byMesh: bool)
    requires Exported(asset, byMesh).Ok?
    ensures var root := Exported(asset, byMesh).value;
            IntMember(root, "scene") == Ok(0) && Length(Member(root, "scenes")) == 1 &&
            Length(Member(Element(Member(root, "scenes"), 0), "nodes")) == 1 &&
            ToInteger(Element(Member(Element(Member(root, "scenes"), 0), "nodes"), 0)) == Ok(0)
  {
    IntReadsBack(0);
  }

  /**
   * The scene graph: node 0 has the children 1 .. n, one per new mesh;
   * node i + 1 instantiates mesh i and carries its name.
   */
  lemma ExportedNodes(asset: Asset, byMesh: bool)
    requires Exported(asset, byMesh).Ok?
    ensures var nodes := Member(Exported(asset, byMesh).value, "nodes");
            var children := Member(Element(nodes, 0), "children");
            var n := MeshCount(asset);
            Length(nodes) == n + 1 && Length(children) == n &&
            (forall c :: 0 <= c < n ==> ToInteger(Element(children, c)) == Ok(c + 1)) &&
            (forall i :: 0 <= i < n ==>
               IntMember(Element(nodes, i + 1), "mesh") == Ok(i) &&
               Member(Element(nodes, i + 1), "name") == String(NameOf(asset, byMesh, i)))
  {
    var n := MeshCount(asset);
    var items := NodesJson(asset, byMesh);
    assert Member(Exported(asset, byMesh).value, "nodes") == Array(items);
    assert Element(Array(items), 0) == RootNode(n);
    RootNodeChildren(n);
    forall i | 0 <= i < n
      ensures IntMember(Element(Array(items), i + 1), "mesh") == Ok(i) &&
              Member(Element(Array(items), i + 1), "name") == String(NameOf(asset, byMesh, i))
    {
      assert Element(Array(items), i + 1) == NodeJson(i, NameOf(asset, byMesh, i));
      NodeJsonReads(i, NameOf(asset, byMesh, i));
    }
  }

  /** Node 0 lists nodes 1 .. n as its children. */
  lemma RootNodeChildren(n: nat)
    ensures var children := Member(RootNode(n), "children");
            Length(children) == n && forall c :: 0 <= c < n ==> ToInteger(Element(children, c)) == Ok(c + 1)
  {
    var children := Member(RootNode(n), "children");
    forall c | 0 <= c < n
      ensures ToInteger(Element(children, c)) == Ok(c + 1)
    {
      IntReadsBack(c + 1);
    }
  }

  /** Node i + 1 reads back its mesh and its name. */
  lemma NodeJsonReads(i: int, name: string)
    ensures IntMember(NodeJson(i, name), "mesh") == Ok(i) && Member(NodeJson(i, name), "name") == String(name)
  {
    IntReadsBack(i);
  }

  /**
   * One mesh per new mesh: a single primitive with the indices and
   * POSITION accessors of the new mesh's first primitive, and the name of
   * its node.
   */
  lemma ExportedMesh(asset: Asset, byMesh: bool, i: nat)
    requires Exported(asset, byMesh).Ok? && i < MeshCount(asset)
    ensures asset.newMeshes[i].primitives != []
    ensures var meshes := Member(Exported(asset, byMesh).value, "meshes");
            var p := asset.newMeshes[i].primitives[0];
            var primitives := Member(Element(meshes, i), "primitives");
            Length(meshes) == MeshCount(asset) && Length(primitives) == 1 &&
            IntMember(Element(primitives, 0), "indices") == Ok(p.indices) &&
            IntMember(Member(Element(primitives, 0), "attributes"), "POSITION") ==
              Ok(if "POSITION" in p.attributes then p.attributes["POSITION"] else 0) &&
            Member(Element(meshes, i), "name") == String(NameOf(asset, byMesh, i))
  {
    var p := asset.newMeshes[i].primitives[0];
    IntReadsBack(p.indices);
    IntReadsBack(Position(p));
  }

  /** exportGLTF fails exactly when a name, a new mesh or a first primitive it reads is missing. */
  lemma ExportedOk(asset: Asset, byMesh: bool)
    ensures Exported(asset, byMesh).Ok? <==> Exportable(asset, byMesh)
    ensures Exported(asset, byMesh).Err? ==> Exported(asset, byMesh).error.OutOfRange?
  {
  }

  // ---------------------------------------------------------------------
  // Names
  // ---------------------------------------------------------------------

  /**
   * As written, mesh 0 of the document is called meshesName[0] even when
   * its triangles come from another mesh: here new mesh 0 was laid out
   * from mesh "b", as the corrected mesh loop lays it out when mesh "a" is
   * all culled. The mesh loop as written names that slot "a" as well, so
   * under it the two names agree.
   */
  lemma ExportNamesByPosition()
    ensures var asset := EMPTY_ASSET.(meshesName := ["a", "b"], newmeshesLength := [1],
                                      newMeshes := [NewMesh("b", [DEFAULT_PRIMITIVE])]);
            Exported(asset, false).Ok? &&
            Member(Element(Member(Exported(asset, false).value, "meshes"), 0), "name") == String("a") &&
            asset.newMeshes[0].name == "b"
  {
    var asset := EMPTY_ASSET.(meshesName := ["a", "b"], newmeshesLength := [1],
                              newMeshes := [NewMesh("b", [DEFAULT_PRIMITIVE])]);
    ExportedMesh(asset, false, 0);
  }

  /** Exported by mesh, node i + 1 and mesh i carry the name of new mesh i. */
  lemma ExportNamesByMesh(asset: Asset, i: nat)
    requires Exported(asset, true).Ok? && i < MeshCount(asset)
    ensures var doc := Exported(asset, true).value;
            Member(Element(Member(doc, "meshes"), i), "name") == String(asset.newMeshes[i].name) &&
            Member(Element(Member(doc, "nodes"), i + 1), "name") == String(asset.newMeshes[i].name)
  {
    ExportedMesh(asset, true, i);
    ExportedNodes(asset, true);
  }
}
