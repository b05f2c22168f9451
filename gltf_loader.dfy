/**
 * The glTF 2.0 loader: validation of the JSON document against the rules
 * the loader enforces (required members, member types, array sizes, the
 * accessor type names), the records it fills in, and the order in which
 * `load` runs the parts.
 *
 * Each `load*` part starts from the records of a fresh asset, so resizing
 * a record vector and filling it slot by slot yields exactly the vector of
 * parsed records. A part that throws abandons the whole asset, so an error
 * is a `Result` error and there is no partially filled asset to describe.
 */
module GltfLoader {
  import opened Errors
  import opened Ints
  import opened Json
  import opened GltfTypes
  import opened GltfBuffers

  // ---------------------------------------------------------------------
  // Member rules shared by all parts
  // ---------------------------------------------------------------------

  /** An optional string member: absent gives the default, present must be a string. */
  function OptString(v: Value, key: string, field: string, dflt: string): (r: Result<string>)
    ensures r.Err? <==> Has(v, key) && !v.members[key].String?
    ensures r.Err? ==> r.error == NotString(field)
    ensures r.Ok? ==> r.value == (if Has(v, key) then v.members[key].s else dflt)
  {
    match Find(v, key)
    case None => Ok(dflt)
    case Some(x) => if x.String? then Ok(x.s) else Err(NotString(field))
  }

  /**
   * An optional numeric member converted to an integer type: absent gives
   * the default, present must be a number, which is truncated toward zero
   * and wrapped by `conv`.
   */
  function OptNumber(v: Value, key: string, field: string, dflt: int, conv: int -> int): (r: Result<int>)
    ensures r.Err? <==> Has(v, key) && !v.members[key].Number?
    ensures r.Err? ==> r.error == NotNumber(field)
    ensures r.Ok? ==> r.value == (if Has(v, key) then conv(Trunc(v.members[key].n)) else dflt)
  {
    match Find(v, key)
    case None => Ok(dflt)
    case Some(x) => if x.Number? then Ok(conv(Trunc(x.n))) else Err(NotNumber(field))
  }

  /** A required numeric member converted to an integer type. */
  function ReqNumber(v: Value, key: string, field: string, conv: int -> int): (r: Result<int>)
    ensures r.Err? <==> !Has(v, key) || !v.members[key].Number?
    ensures !Has(v, key) ==> r == Err(IsRequired(field))
    ensures Has(v, key) && !v.members[key].Number? ==> r == Err(NotNumber(field))
    ensures r.Ok? ==> r.value == conv(Trunc(v.members[key].n))
  {
    match Find(v, key)
    case None => Err(IsRequired(field))
    case Some(x) => if x.Number? then Ok(conv(Trunc(x.n))) else Err(NotNumber(field))
  }

  /** Each element converted to an integer; any element that is neither a number nor a boolean is a type error. */
  function Integers(items: seq<Value>): (r: Result<seq<int>>)
    ensures r.Ok? <==> forall k :: 0 <= k < |items| ==> ToInteger(items[k]).Ok?
    ensures r.Err? ==> r.error == TypeError
    ensures r.Ok? ==> |r.value| == |items| && forall k :: 0 <= k < |items| ==> Ok(r.value[k]) == ToInteger(items[k])
  {
    if forall k :: 0 <= k < |items| ==> ToInteger(items[k]).Ok? then
      Ok(seq(|items|, k requires 0 <= k < |items| => ToInteger(items[k]).value))
    else
      Err(TypeError)
  }

  /**
   * An optional array of exactly `size` numbers (a node's matrix,
   * translation, rotation or scale): it must be an array, of that size,
   * and every element a number.
   */
  function FixedNumbers(v: Value, key: string, size: nat, field: string, elementField: string): (r: Result<Option<seq<real>>>)
    ensures !Has(v, key) ==> r == Ok(None)
    ensures Has(v, key) && r.Ok? ==> r.value.Some?
    ensures Has(v, key) && !v.members[key].Array? ==> r == Err(NotArray(field))
    ensures Has(v, key) && v.members[key].Array? && |v.members[key].items| != size ==> r == Err(NotGoodSizeArray(field))
    ensures r.Ok? && r.value.Some? ==>
      Has(v, key) && v.members[key].Array? && |v.members[key].items| == size == |r.value.value| &&
      forall k :: 0 <= k < size ==> v.members[key].items[k] == Number(r.value.value[k])
    ensures Has(v, key) && v.members[key].Array? && |v.members[key].items| == size ==>
      (r.Err? <==> exists k :: 0 <= k < size && !v.members[key].items[k].Number?)
    ensures r.Err? ==> r.error in {NotArray(field), NotGoodSizeArray(field), NotNumber(elementField)}
  {
    match Find(v, key)
    case None => Ok(None)
    case Some(x) =>
      if !x.Array? then Err(NotArray(field))
      else if |x.items| != size then Err(NotGoodSizeArray(field))
      else if exists k :: 0 <= k < size && !x.items[k].Number? then Err(NotNumber(elementField))
      else Ok(Some(seq(size, k requires 0 <= k < size => x.items[k].n)))
  }

  /**
   * Filling a vector element by element with the records parsed from the
   * items of a JSON array: the first element that fails decides the error.
   */
  function MapResult<T>(items: seq<Value>, parse: Value -> Result<T>): (r: Result<seq<T>>)
    ensures r.Ok? <==> forall k :: 0 <= k < |items| ==> parse(items[k]).Ok?
    ensures r.Ok? ==> |r.value| == |items| && forall k :: 0 <= k < |items| ==> parse(items[k]) == Ok(r.value[k])
    ensures r.Err? ==> exists k :: 0 <= k < |items| && parse(items[k]) == Err(r.error) &&
                                   forall j :: 0 <= j < k ==> parse(items[j]).Ok?
    decreases |items|
  {
    if items == [] then Ok([])
    else
      match parse(items[0])
      case Err(e) => Err(e)
      case Ok(y) =>
        match MapResult(items[1..], parse)
        case Err(e) =>
          assert forall k :: 1 <= k < |items| ==> items[k] == items[1..][k - 1];
          Err(e)
        case Ok(ys) =>
          assert forall k :: 1 <= k < |items| ==> items[k] == items[1..][k - 1];
          Ok([y] + ys)
  }

  /** The loop that resizes a vector and fills each slot with the parsed record. */
  method FillEach<T>(items: seq<Value>, parse: Value -> Result<T>, dflt: T) returns (r: Result<seq<T>>)
    ensures r == MapResult(items, parse)
  {
    var out := seq(|items|, _ => dflt);
    var i := 0;
    while i < |items|
      invariant 0 <= i <= |items|
      invariant |out| == |items|
      invariant forall k :: 0 <= k < i ==> parse(items[k]) == Ok(out[k])
    {
      var p := parse(items[i]);
      if p.Err? {
        var m := MapResult(items, parse);
        assert m.Err?;
        return Err(p.error);
      }
      out := out[i := p.value];
      i := i + 1;
    }
    var m := MapResult(items, parse);
    assert m.Ok?;
    assert m.value == out;
    r := Ok(out);
  }

  /** Records parsed one by one from every item are what filling the vector yields. */
  lemma MapResultOk<T>(items: seq<Value>, parse: Value -> Result<T>, ys: seq<T>)
    requires |ys| == |items| && forall k :: 0 <= k < |items| ==> parse(items[k]) == Ok(ys[k])
    ensures MapResult(items, parse) == Ok(ys)
  {
    var m := MapResult(items, parse);
    assert m.Ok?;
    assert m.value == ys;
  }

  // ---------------------------------------------------------------------
  // loadAsset
  // ---------------------------------------------------------------------

  /** The "asset" member with its required string version and optional string copyright and generator. */
  function LoadAsset(json: Value): (r: Result<Metadata>)
    ensures !Has(json, "asset") ==> r == Err(IsRequired("asset"))
    ensures Has(json, "asset") && !Has(json.members["asset"], "version") ==> r == Err(IsRequired("asset[version]"))
    ensures r.Ok? <==>
      Has(json, "asset") && Has(json.members["asset"], "version") &&
      json.members["asset"].members["version"].String? &&
      (Has(json.members["asset"], "copyright") ==> json.members["asset"].members["copyright"].String?) &&
      (Has(json.members["asset"], "generator") ==> json.members["asset"].members["generator"].String?)
    ensures r.Ok? ==> r.value.version == json.members["asset"].members["version"].s && r.value.minVersion == ""
    ensures r.Ok? ==> r.value.copyright == (if Has(json.members["asset"], "copyright") then json.members["asset"].members["copyright"].s else "")
    ensures r.Ok? ==> r.value.generator == (if Has(json.members["asset"], "generator") then json.members["asset"].members["generator"].s else "")
  {
    match Find(json, "asset")
    case None => Err(IsRequired("asset"))
    case Some(a) =>
      match Find(a, "version")
      case None => Err(IsRequired("asset[version]"))
      case Some(ver) =>
        if !ver.String? then Err(NotString("version"))
        else
          var copyright :- OptString(a, "copyright", "copyright", "");
          var generator :- OptString(a, "generator", "generator", "");
          Ok(Metadata(copyright, generator, ver.s, ""))
  }

  // ---------------------------------------------------------------------
  // loadScenes
  // ---------------------------------------------------------------------

  /** One scene: an optional string name and an optional array of node indices (stored as uint32_t). */
  function ParseScene(v: Value): (r: Result<Scene>)
    ensures r.Ok? <==>
      (Has(v, "name") ==> v.members["name"].String?) &&
      (Has(v, "nodes") ==> v.members["nodes"].Array? &&
                           forall k :: 0 <= k < |v.members["nodes"].items| ==> ToInteger(v.members["nodes"].items[k]).Ok?)
    ensures r.Ok? && Has(v, "nodes") ==>
      |r.value.nodes| == |v.members["nodes"].items| &&
      forall k :: 0 <= k < |r.value.nodes| ==> r.value.nodes[k] == ToU32(ToInteger(v.members["nodes"].items[k]).value)
    ensures r.Ok? && !Has(v, "nodes") ==> r.value.nodes == []
  {
    var name :- OptString(v, "name", "scenes[i][name]", "");
    match Find(v, "nodes")
    case None => Ok(Scene(name, []))
    case Some(ns) =>
      if !ns.Array? then Err(NotArray("scenes[i][nodes]"))
      else
        var raw :- Integers(ns.items);
        Ok(Scene(name, seq(|raw|, k requires 0 <= k < |raw| => ToU32(raw[k]))))
  }

  /**
   * The default scene index and the scenes: a present "scene" must be a
   * number; without "scenes" nothing more happens; otherwise "scenes" must
   * be an array, and a still unset default scene becomes scene 0.
   */
  function ParseScenes(asset: Asset, json: Value): (r: Result<Asset>)
    ensures Has(json, "scene") && !json.members["scene"].Number? ==> r == Err(NotNumber("scene"))
    ensures r.Ok? ==> r.value == asset.(scene := r.value.scene, scenes := r.value.scenes)
    ensures r.Ok? && !Has(json, "scenes") ==>
      r.value.scenes == asset.scenes &&
      r.value.scene == (if Has(json, "scene") then ToI32(Trunc(json.members["scene"].n)) else asset.scene)
    ensures r.Ok? && Has(json, "scenes") ==>
      json.members["scenes"].Array? &&
      MapResult(json.members["scenes"].items, ParseScene) == Ok(r.value.scenes) &&
      var given := if Has(json, "scene") then ToI32(Trunc(json.members["scene"].n)) else asset.scene;
      r.value.scene == (if given == -1 then 0 else given)
    ensures Has(json, "scenes") && !json.members["scenes"].Array? ==> r.Err?
  {
    var scene :- OptNumber(json, "scene", "scene", asset.scene, ToI32);
    match Find(json, "scenes")
    case None => Ok(asset.(scene := scene))
    case Some(ss) =>
      if !ss.Array? then Err(NotArray("scenes"))
      else
        var scenes :- MapResult(ss.items, ParseScene);
        Ok(asset.(scene := if scene == -1 then 0 else scene, scenes := scenes))
  }

  method LoadScenes(asset: Asset, json: Value) returns (r: Result<Asset>)
    ensures r == ParseScenes(asset, json)
  {
    var scene := asset.scene;
    var sceneMember := Find(json, "scene");
    if sceneMember.Some? {
      if !sceneMember.value.Number? {
        return Err(NotNumber("scene"));
      }
      scene := ToI32(Trunc(sceneMember.value.n));
    }
    var scenesMember := Find(json, "scenes");
    if scenesMember.None? {
      return Ok(asset.(scene := scene));
    }
    if !scenesMember.value.Array? {
      return Err(NotArray("scenes"));
    }
    if scene == -1 {
      scene := 0;
    }
    var scenes := FillEach(scenesMember.value.items, ParseScene, DEFAULT_SCENE);
    if scenes.Err? {
      return Err(scenes.error);
    }
    r := Ok(asset.(scene := scene, scenes := scenes.value));
  }

  // ---------------------------------------------------------------------
  // loadMeshes
  // ---------------------------------------------------------------------

  /** The attribute map, entry by entry; every value converts to a uint32_t accessor index. */
  function ParseAttributes(m: map<string, Value>): (r: Result<map<string, int>>)
    ensures r.Ok? <==> forall key :: key in m ==> ToInteger(m[key]).Ok?
    ensures r.Ok? ==> r.value.Keys == m.Keys && forall key :: key in m ==> r.value[key] == ToU32(ToInteger(m[key]).value)
  {
    if forall key :: key in m ==> ToInteger(m[key]).Ok? then
      Ok(map key | key in m :: ToU32(ToInteger(m[key]).value))
    else
      Err(TypeError)
  }

  /**
   * One primitive: optional numeric indices, material and mode, and a
   * required object of attributes.
   */
  function ParsePrimitive(v: Value): (r: Result<Primitive>)
    ensures !Has(v, "attributes") && r.Err? ==>
      (r.error in {NotNumber("meshes[i][primitives][j][indices]"), NotNumber("meshes[i][primitives][j][material]"),
                   NotNumber("meshes[i][primitives][j][mode]"), IsRequired("meshes[i][primitives][j][attributes]")})
    ensures r.Ok? ==> Has(v, "attributes") && v.members["attributes"].Object?
    ensures r.Ok? <==>
      (Has(v, "indices") ==> v.members["indices"].Number?) &&
      (Has(v, "material") ==> v.members["material"].Number?) &&
      (Has(v, "mode") ==> v.members["mode"].Number?) &&
      Has(v, "attributes") && v.members["attributes"].Object? &&
      ParseAttributes(v.members["attributes"].members).Ok?
    ensures r.Ok? ==>
      r.value.indices == (if Has(v, "indices") then ToI32(Trunc(v.members["indices"].n)) else -1) &&
      r.value.material == (if Has(v, "material") then ToI32(Trunc(v.members["material"].n)) else -1) &&
      r.value.mode == (if Has(v, "mode") then ToU8(Trunc(v.members["mode"].n)) else ModeCode(Triangles)) &&
      r.value.attributes == ParseAttributes(v.members["attributes"].members).value &&
      r.value.targets == []
  {
    var indices :- OptNumber(v, "indices", "meshes[i][primitives][j][indices]", -1, ToI32);
    var material :- OptNumber(v, "material", "meshes[i][primitives][j][material]", -1, ToI32);
    var mode :- OptNumber(v, "mode", "meshes[i][primitives][j][mode]", ModeCode(Triangles), ToU8);
    match Find(v, "attributes")
    case None => Err(IsRequired("meshes[i][primitives][j][attributes]"))
    case Some(a) =>
      if !a.Object? then Err(NotObject("meshes[i][primitives][j][attributes]"))
      else
        var attributes :- ParseAttributes(a.members);
        Ok(DEFAULT_PRIMITIVE.(indices := indices, material := material, mode := mode, attributes := attributes))
  }

  /** One mesh: an optional string name and a required array of primitives. */
  function ParseMesh(v: Value): (r: Result<Mesh>)
    ensures Has(v, "name") && !v.members["name"].String? ==> r == Err(NotString("meshes[i][name]"))
    ensures !Has(v, "primitives") && r.Err? ==> r.error in {NotString("meshes[i][name]"), IsRequired("meshes[i][primitives]")}
    ensures r.Ok? <==>
      (Has(v, "name") ==> v.members["name"].String?) &&
      Has(v, "primitives") && v.members["primitives"].Array? &&
      forall k :: 0 <= k < |v.members["primitives"].items| ==> ParsePrimitive(v.members["primitives"].items[k]).Ok?
    ensures r.Ok? ==>
      r.value.name == (if Has(v, "name") then v.members["name"].s else "") &&
      r.value.weights == [] &&
      |r.value.primitives| == |v.members["primitives"].items| &&
      forall k :: 0 <= k < |r.value.primitives| ==> ParsePrimitive(v.members["primitives"].items[k]) == Ok(r.value.primitives[k])
  {
    var name :- OptString(v, "name", "meshes[i][name]", "");
    match Find(v, "primitives")
    case None => Err(IsRequired("meshes[i][primitives]"))
    case Some(ps) =>
      if !ps.Array? then Err(NotArray("meshes[i][primitives]"))
      else
        var primitives :- MapResult(ps.items, ParsePrimitive);
        Ok(Mesh(name, [], primitives))
  }

  function ParseMeshes(asset: Asset, json: Value): (r: Result<Asset>)
    ensures !Has(json, "meshes") ==> r == Ok(asset)
    ensures Has(json, "meshes") && !json.members["meshes"].Array? ==> r == Err(NotArray("meshes"))
    ensures r.Ok? ==> r.value == asset.(meshes := r.value.meshes)
    ensures r.Ok? && Has(json, "meshes") ==>
      MapResult(json.members["meshes"].items, ParseMesh) == Ok(r.value.meshes)
  {
    match Find(json, "meshes")
    case None => Ok(asset)
    case Some(ms) =>
      if !ms.Array? then Err(NotArray("meshes"))
      else
        var meshes :- MapResult(ms.items, ParseMesh);
        Ok(asset.(meshes := meshes))
  }

  /** One mesh, with its primitives filled in by a loop. */
  method LoadMesh(v: Value) returns (r: Result<Mesh>)
    ensures r == ParseMesh(v)
  {
    var name := OptString(v, "name", "meshes[i][name]", "");
    if name.Err? {
      return Err(name.error);
    }
    var ps := Find(v, "primitives");
    if ps.None? {
      return Err(IsRequired("meshes[i][primitives]"));
    }
    if !ps.value.Array? {
      return Err(NotArray("meshes[i][primitives]"));
    }
    var primitives := FillEach(ps.value.items, ParsePrimitive, DEFAULT_PRIMITIVE);
    if primitives.Err? {
      return Err(primitives.error);
    }
    r := Ok(Mesh(name.value, [], primitives.value));
  }

  method LoadMeshes(asset: Asset, json: Value) returns (r: Result<Asset>)
    ensures r == ParseMeshes(asset, json)
  {
    var ms := Find(json, "meshes");
    if ms.None? {
      return Ok(asset);
    }
    if !ms.value.Array? {
      return Err(NotArray("meshes"));
    }
    var items := ms.value.items;
    var meshes := seq(|items|, _ => DEFAULT_MESH);
    var i := 0;
    while i < |items|
      invariant 0 <= i <= |items|
      invariant |meshes| == |items|
      invariant forall k :: 0 <= k < i ==> ParseMesh(items[k]) == Ok(meshes[k])
    {
      var m := LoadMesh(items[i]);
      if m.Err? {
        var all := MapResult(items, ParseMesh);
        assert all.Err?;
        return Err(m.error);
      }
      meshes := meshes[i := m.value];
      i := i + 1;
    }
    var all := MapResult(items, ParseMesh);
    assert all.Ok?;
    assert all.value == meshes;
    r := Ok(asset.(meshes := meshes));
  }

  // ---------------------------------------------------------------------
  // loadNodes
  // ---------------------------------------------------------------------

  /** The members of a node checked before "mesh": name, children, skin and matrix. */
  datatype NodeHead = NodeHead(name: string, children: seq<int>, skin: int, given: Option<seq<real>>)

  /** The members of a node checked from "mesh" on: mesh, translation, rotation and scale. */
  datatype NodeTail = NodeTail(mesh: int, translation: seq<real>, rotation: seq<real>, scale: seq<real>)

  function ParseNodeHead(cur: Node, v: Value): (r: Result<NodeHead>)
    ensures r.Ok? <==>
      (Has(v, "name") ==> v.members["name"].String?) &&
      (Has(v, "children") ==> v.members["children"].Array? && Integers(v.members["children"].items).Ok?) &&
      (Has(v, "skin") ==> v.members["skin"].Number?) &&
      FixedNumbers(v, "matrix", 16, "nodes[i][matrix]", "nodes[i][matrix][j]").Ok?
    ensures r.Ok? ==>
      r.value.name == (if Has(v, "name") then v.members["name"].s else cur.name) &&
      r.value.skin == (if Has(v, "skin") then ToI32(Trunc(v.members["skin"].n)) else cur.skin) &&
      r.value.given == FixedNumbers(v, "matrix", 16, "nodes[i][matrix]", "nodes[i][matrix][j]").value
    ensures r.Ok? && Has(v, "children") ==>
      |r.value.children| == |v.members["children"].items| &&
      forall k :: 0 <= k < |r.value.children| ==> r.value.children[k] == ToI32(ToInteger(v.members["children"].items[k]).value)
    ensures r.Ok? && !Has(v, "children") ==> r.value.children == cur.children
  {
    var name :- OptString(v, "name", "nodes[i][name]", cur.name);
    var children :- match Find(v, "children")
      case None => Ok(cur.children)
      case Some(cs) =>
        if !cs.Array? then Err(NotArray("nodes[i][chidren]"))
        else
          var raw :- Integers(cs.items);
          // a uint32_t stored into an int: the two wraps compose to one
          Ok(seq(|raw|, k requires 0 <= k < |raw| => ToI32(raw[k])));
    var skin :- OptNumber(v, "skin", "nodes[i][skin]", cur.skin, ToI32);
    var given :- FixedNumbers(v, "matrix", 16, "nodes[i][matrix]", "nodes[i][matrix][j]");
    Ok(NodeHead(name, children, skin, given))
  }

  function ParseNodeTail(cur: Node, v: Value): (r: Result<NodeTail>)
    ensures r.Ok? <==>
      (Has(v, "mesh") ==> v.members["mesh"].Number?) &&
      FixedNumbers(v, "translation", 3, "nodes[i][translation]", "nodes[i][translation][j]").Ok? &&
      FixedNumbers(v, "rotation", 4, "nodes[i][rotation]", "nodes[i][rotation][j]").Ok? &&
      FixedNumbers(v, "scale", 3, "nodes[i][scale]", "nodes[i][scale][j]").Ok?
    ensures r.Ok? ==>
      r.value.mesh == (if Has(v, "mesh") then ToI32(Trunc(v.members["mesh"].n)) else cur.mesh) &&
      r.value.translation == (if Has(v, "translation") then FixedNumbers(v, "translation", 3, "nodes[i][translation]", "nodes[i][translation][j]").value.value else cur.translation) &&
      r.value.rotation == (if Has(v, "rotation") then FixedNumbers(v, "rotation", 4, "nodes[i][rotation]", "nodes[i][rotation][j]").value.value else cur.rotation) &&
      r.value.scale == (if Has(v, "scale") then FixedNumbers(v, "scale", 3, "nodes[i][scale]", "nodes[i][scale][j]").value.value else cur.scale)
  {
    var mesh :- OptNumber(v, "mesh", "nodes[i][mesh]", cur.mesh, ToI32);
    var t :- FixedNumbers(v, "translation", 3, "nodes[i][translation]", "nodes[i][translation][j]");
    var q :- FixedNumbers(v, "rotation", 4, "nodes[i][rotation]", "nodes[i][rotation][j]");
    var s :- FixedNumbers(v, "scale", 3, "nodes[i][scale]", "nodes[i][scale][j]");
    Ok(NodeTail(mesh, if t.Some? then t.value else cur.translation, if q.Some? then q.value else cur.rotation,
                if s.Some? then s.value else cur.scale))
  }

  /**
   * One node, starting from its current record `cur` (whose matrix a
   * parent may already have replaced). The members are checked in the
   * order name, children, skin, matrix, mesh, translation, rotation,
   * scale; a "matrix" member is multiplied onto the current matrix, and
   * without one the current matrix is multiplied by T*R*S.
   */
  function ParseNode(cur: Node, v: Value): (r: Result<Node>)
    ensures r.Ok? <==> ParseNodeHead(cur, v).Ok? && ParseNodeTail(cur, v).Ok?
    ensures r.Ok? ==>
      var head := ParseNodeHead(cur, v).value;
      var tail := ParseNodeTail(cur, v).value;
      r.value.name == head.name && r.value.children == head.children && r.value.skin == head.skin &&
      r.value.mesh == tail.mesh && r.value.translation == tail.translation &&
      r.value.rotation == tail.rotation && r.value.scale == tail.scale
    ensures r.Ok? && Has(v, "matrix") ==>
      r.value.matrix == Compose(ParseNodeHead(cur, v).value.given.value, cur.matrix)
    ensures r.Ok? && !Has(v, "matrix") ==>
      r.value.matrix == ComposeTrs(cur.matrix, r.value.translation, r.value.rotation, r.value.scale)
    ensures r.Err? && ParseNodeHead(cur, v).Err? ==> r.error == ParseNodeHead(cur, v).error
  {
    var head :- ParseNodeHead(cur, v);
    var tail :- ParseNodeTail(cur, v);
    var matrix := if head.given.Some? then Compose(head.given.value, cur.matrix)
                  else ComposeTrs(cur.matrix, tail.translation, tail.rotation, tail.scale);
    Ok(Node(head.name, head.children, tail.mesh, head.skin, matrix, tail.translation, tail.rotation, tail.scale))
  }

  /** A node without a "matrix" member and without translation, rotation or scale composes its matrix with the default T*R*S. */
  lemma NodeDefaultsTrs(v: Value)
    requires ParseNode(DEFAULT_NODE, v).Ok?
    requires !Has(v, "matrix") && !Has(v, "translation") && !Has(v, "rotation") && !Has(v, "scale")
    ensures ParseNode(DEFAULT_NODE, v).value.matrix == ComposeTrs(Identity, [0.0, 0.0, 0.0], [0.0, 0.0, 0.0, 1.0], [1.0, 1.0, 1.0])
  {
  }

  /** Whether every child index of a node addresses a node of the vector. */
  predicate ChildrenInRange(node: Node, count: int) {
    forall k :: 0 <= k < |node.children| ==> 0 <= node.children[k] < count
  }

  /** After node `node` is loaded, every node it lists as a child receives a copy of its matrix. */
  function HandDownMatrix(ns: seq<Node>, node: Node): (r: seq<Node>)
    ensures |r| == |ns|
  {
    seq(|ns|, m requires 0 <= m < |ns| => if m in node.children then ns[m].(matrix := node.matrix) else ns[m])
  }

  /** How one node is loaded from its current record and its JSON value (`ParseNode` in the loader). */
  type NodeParser = (Node, Value) -> Result<Node>

  /**
   * The node vector after the first `i` nodes of the array are loaded. A
   * child index outside the vector is an out-of-range write in the
   * original, which the model reports as an error.
   */
  function NodesAfter(parse: NodeParser, items: seq<Value>, i: nat): (r: Result<seq<Node>>)
    requires i <= |items|
    ensures r.Ok? ==> |r.value| == |items|
    decreases i
  {
    if i == 0 then Ok(seq(|items|, _ => DEFAULT_NODE))
    else
      var ns :- NodesAfter(parse, items, i - 1);
      NodeStep(parse, ns, i - 1, items[i - 1])
  }

  /** Loading node `i` of the vector `ns` from its JSON value `v`. */
  function NodeStep(parse: NodeParser, ns: seq<Node>, i: nat, v: Value): (r: Result<seq<Node>>)
    requires i < |ns|
    ensures r.Ok? ==> |r.value| == |ns|
    ensures r.Ok? <==> parse(ns[i], v).Ok? && ChildrenInRange(parse(ns[i], v).value, |ns|)
    ensures r.Ok? ==> r.value == HandDownMatrix(ns[i := parse(ns[i], v).value], parse(ns[i], v).value)
  {
    var node :- parse(ns[i], v);
    if !ChildrenInRange(node, |ns|) then Err(OutOfRange("nodes[i][children]"))
    else Ok(HandDownMatrix(ns[i := node], node))
  }

  function ParseNodes(asset: Asset, json: Value): (r: Result<Asset>)
    ensures !Has(json, "nodes") ==> r == Ok(asset)
    ensures Has(json, "nodes") && !json.members["nodes"].Array? ==> r == Err(NotArray("nodes"))
    ensures r.Ok? ==> r.value == asset.(nodes := r.value.nodes)
  {
    match Find(json, "nodes")
    case None => Ok(asset)
    case Some(ns) =>
      if !ns.Array? then Err(NotArray("nodes"))
      else
        var nodes :- NodesAfter(ParseNode, ns.items, |ns.items|);
        Ok(asset.(nodes := nodes))
  }

  method LoadNodes(asset: Asset, json: Value) returns (r: Result<Asset>)
    ensures r == ParseNodes(asset, json)
  {
    var ns := Find(json, "nodes");
    if ns.None? {
      return Ok(asset);
    }
    if !ns.value.Array? {
      return Err(NotArray("nodes"));
    }
    var nodes := LoadNodeArray(ns.value.items);
    if nodes.Err? {
      return Err(nodes.error);
    }
    r := Ok(asset.(nodes := nodes.value));
  }

  /** The loop over the node array. */
  method LoadNodeArray(items: seq<Value>) returns (r: Result<seq<Node>>)
    ensures r == NodesAfter(ParseNode, items, |items|)
  {
    var nodes := seq(|items|, _ => DEFAULT_NODE);
    var i := 0;
    while i < |items|
      invariant 0 <= i <= |items|
      invariant NodesAfter(ParseNode, items, i) == Ok(nodes)
    {
      NodesAfterStep(ParseNode, items, i);
      var next := LoadNode(nodes, i, items[i]);
      if next.Err? {
        NodesErrorStays(ParseNode, items, i + 1);
        return next;
      }
      nodes := next.value;
      i := i + 1;
    }
    r := Ok(nodes);
  }

  /** The loop that copies a node's matrix into each node it lists as a child. */
  method HandDown(nodes: seq<Node>, node: Node) returns (r: seq<Node>)
    requires ChildrenInRange(node, |nodes|)
    ensures r == HandDownMatrix(nodes, node)
  {
    r := nodes;
    var k := 0;
    while k < |node.children|
      invariant 0 <= k <= |node.children|
      invariant |r| == |nodes|
      invariant forall m :: 0 <= m < |r| ==>
        r[m] == (if m in node.children[..k] then nodes[m].(matrix := node.matrix) else nodes[m])
    {
      var c := node.children[k];
      r := r[c := r[c].(matrix := node.matrix)];
      assert node.children[..k + 1] == node.children[..k] + [c];
      k := k + 1;
    }
    assert node.children[..k] == node.children;
  }

  /** Node i of the loop: parse it, then hand its matrix down to its children. */
  method LoadNode(nodes: seq<Node>, i: nat, v: Value) returns (r: Result<seq<Node>>)
    requires i < |nodes|
    ensures r == NodeStep(ParseNode, nodes, i, v)
  {
    var node := ParseNode(nodes[i], v);
    if node.Err? {
      return Err(node.error);
    }
    if !ChildrenInRange(node.value, |nodes|) {
      return Err(OutOfRange("nodes[i][children]"));
    }
    var handed := HandDown(nodes[i := node.value], node.value);
    r := Ok(handed);
  }

  /** The node vector once node `q` is loaded. */
  function LoadedThrough(parse: NodeParser, items: seq<Value>, q: nat): (r: Result<seq<Node>>)
    requires q < |items|
    ensures r == NodesAfter(parse, items, q + 1)
  {
    NodesAfter(parse, items, q + 1)
  }

  /** One more node loaded is one more step. */
  lemma NodesAfterStep(parse: NodeParser, items: seq<Value>, i: nat)
    requires i < |items| && NodesAfter(parse, items, i).Ok?
    ensures NodesAfter(parse, items, i + 1) == NodeStep(parse, NodesAfter(parse, items, i).value, i, items[i])
  {
  }

  /** Once a prefix of the nodes fails to load, every longer prefix fails with the same error. */
  lemma {:induction false} NodesErrorStays(parse: NodeParser, items: seq<Value>, i: nat)
    requires 0 < i <= |items|
    requires NodesAfter(parse, items, i).Err?
    ensures NodesAfter(parse, items, |items|) == NodesAfter(parse, items, i)
    decreases |items| - i
  {
    if i < |items| {
      assert NodesAfter(parse, items, i + 1) == NodesAfter(parse, items, i);
      NodesErrorStays(parse, items, i + 1);
    }
  }

  /** Node `i` after its step: the parsed node, with the matrix it hands down. */
  lemma StepNode(parse: NodeParser, ns: seq<Node>, i: nat, v: Value)
    requires i < |ns| && NodeStep(parse, ns, i, v).Ok?
    ensures var node := parse(ns[i], v).value;
      NodeStep(parse, ns, i, v).value[i] == node
  {
  }

  /** A step leaves node `c` as it was unless `c` is the node loaded or one of its children. */
  lemma StepKeeps(parse: NodeParser, ns: seq<Node>, i: nat, v: Value, c: nat)
    requires i < |ns| && c < |ns| && NodeStep(parse, ns, i, v).Ok?
    requires c != i && c !in parse(ns[i], v).value.children
    ensures NodeStep(parse, ns, i, v).value[c] == ns[c]
  {
  }

  /** A step gives every child of the loaded node the loaded node's matrix. */
  lemma StepHandsDown(parse: NodeParser, ns: seq<Node>, i: nat, v: Value, c: nat)
    requires i < |ns| && c < |ns| && NodeStep(parse, ns, i, v).Ok?
    requires c in parse(ns[i], v).value.children
    ensures NodeStep(parse, ns, i, v).value[c].matrix == parse(ns[i], v).value.matrix
  {
  }

  /**
   * The matrix a node inherits: if node `p` lists `c` as a child, `p`
   * comes before `c`, and no node in between lists `c`, then until `c`
   * itself is loaded its matrix is the one of `p`.
   */
  lemma {:induction false} InheritedMatrix(parse: NodeParser, items: seq<Value>, p: nat, c: nat, j: nat)
    requires p < j <= c < |items|
    requires NodesAfter(parse, items, c + 1).Ok?
    requires NodesAfter(parse, items, p + 1).Ok? && c in NodesAfter(parse, items, p + 1).value[p].children
    requires forall q :: p < q < c ==> LoadedThrough(parse, items, q).Ok? && c !in LoadedThrough(parse, items, q).value[q].children
    ensures NodesAfter(parse, items, j).Ok?
    ensures NodesAfter(parse, items, j).value[c].matrix == NodesAfter(parse, items, p + 1).value[p].matrix
    decreases j - p
  {
    NodesOkBelow(parse, items, c + 1, j);
    if j == p + 1 {
      InheritFirst(parse, items, p, c);
    } else {
      InheritedMatrix(parse, items, p, c, j - 1);
      InheritNext(parse, items, j - 1, c);
    }
  }

  /** The step that loads node `p` gives its child `c` the matrix of `p`. */
  lemma InheritFirst(parse: NodeParser, items: seq<Value>, p: nat, c: nat)
    requires p < c < |items|
    requires NodesAfter(parse, items, p + 1).Ok? && c in NodesAfter(parse, items, p + 1).value[p].children
    ensures NodesAfter(parse, items, p + 1).value[c].matrix == NodesAfter(parse, items, p + 1).value[p].matrix
  {
    var prev := NodesAfter(parse, items, p).value;
    NodesAfterStep(parse, items, p);
    StepNode(parse, prev, p, items[p]);
    StepHandsDown(parse, prev, p, items[p], c);
  }

  /** The step that loads node `q` leaves node `c` alone when `q` does not list it. */
  lemma InheritNext(parse: NodeParser, items: seq<Value>, q: nat, c: nat)
    requires q < c < |items|
    requires LoadedThrough(parse, items, q).Ok? && c !in LoadedThrough(parse, items, q).value[q].children
    ensures NodesAfter(parse, items, q).Ok?
    ensures NodesAfter(parse, items, q + 1).value[c] == NodesAfter(parse, items, q).value[c]
  {
    NodesOkBelow(parse, items, q + 1, q);
    var prev := NodesAfter(parse, items, q).value;
    NodesAfterStep(parse, items, q);
    StepNode(parse, prev, q, items[q]);
    StepKeeps(parse, prev, q, items[q], c);
  }

  /** A prefix of a loadable node array loads. */
  lemma {:induction false} NodesOkBelow(parse: NodeParser, items: seq<Value>, i: nat, j: nat)
    requires j <= i <= |items|
    requires NodesAfter(parse, items, i).Ok?
    ensures NodesAfter(parse, items, j).Ok?
    decreases i - j
  {
    if j < i {
      NodesOkBelow(parse, items, i - 1, j);
    }
  }

  /** Hence the final matrix of a child loaded after its parent is built on the parent's matrix. */
  lemma ChildComposesOnParent(items: seq<Value>, p: nat, c: nat)
    requires p < c < |items|
    requires NodesAfter(ParseNode, items, c + 1).Ok?
    requires NodesAfter(ParseNode, items, p + 1).Ok? && c in NodesAfter(ParseNode, items, p + 1).value[p].children
    requires forall q :: p < q < c ==> LoadedThrough(ParseNode, items, q).Ok? && c !in LoadedThrough(ParseNode, items, q).value[q].children
    ensures var parent := NodesAfter(ParseNode, items, p + 1).value[p].matrix;
      var child := NodesAfter(ParseNode, items, c + 1).value[c].matrix;
      (child.Compose? && child.parent == parent) || (child.ComposeTrs? && child.parent == parent)
  {
    InheritedMatrix(ParseNode, items, p, c, c);
    var prev := NodesAfter(ParseNode, items, c).value;
    assert NodesAfter(ParseNode, items, c + 1) == NodeStep(ParseNode, prev, c, items[c]);
    StepNode(ParseNode, prev, c, items[c]);
  }

  // ---------------------------------------------------------------------
  // loadBufferViews
  // ---------------------------------------------------------------------

  /**
   * One buffer view: optional string name, required numeric buffer and
   * byteLength, optional numeric byteOffset, byteStride and target.
   */
  function ParseBufferView(v: Value): (r: Result<BufferView>)
    ensures !Has(v, "buffer") && r.Err? ==> r.error in {NotString("bufferViews[i][name]"), IsRequired("bufferViews[i][buffer]")}
    ensures r.Ok? <==>
      (Has(v, "name") ==> v.members["name"].String?) &&
      Has(v, "buffer") && v.members["buffer"].Number? &&
      (Has(v, "byteOffset") ==> v.members["byteOffset"].Number?) &&
      Has(v, "byteLength") && v.members["byteLength"].Number? &&
      (Has(v, "byteStride") ==> v.members["byteStride"].Number?) &&
      (Has(v, "target") ==> v.members["target"].Number?)
    ensures r.Ok? ==>
      r.value.name == (if Has(v, "name") then v.members["name"].s else "") &&
      r.value.buffer == ToU32(Trunc(v.members["buffer"].n)) &&
      r.value.byteOffset == (if Has(v, "byteOffset") then ToU32(Trunc(v.members["byteOffset"].n)) else 0) &&
      r.value.byteLength == ToU32(Trunc(v.members["byteLength"].n)) &&
      r.value.byteStride == (if Has(v, "byteStride") then ToU32(Trunc(v.members["byteStride"].n)) else 0) &&
      r.value.target == (if Has(v, "target") then ToU16(Trunc(v.members["target"].n)) else 0)
  {
    var name :- OptString(v, "name", "bufferViews[i][name]", "");
    // an int32_t stored into a uint32_t: the two wraps compose to one
    var buffer :- ReqNumber(v, "buffer", "bufferViews[i][buffer]", ToU32);
    var byteOffset :- OptNumber(v, "byteOffset", "bufferViews[i][byteOffset]", 0, ToU32);
    var byteLength :- ReqNumber(v, "byteLength", "bufferViews[i][byteLength]", ToU32);
    var byteStride :- OptNumber(v, "byteStride", "bufferViews[i][byteStride]", 0, ToU32);
    var target :- OptNumber(v, "target", "bufferViews[i][target]", 0, ToU16);
    Ok(BufferView(name, buffer, byteOffset, byteLength, byteStride, target))
  }

  function ParseBufferViews(asset: Asset, json: Value): (r: Result<Asset>)
    ensures !Has(json, "bufferViews") ==> r == Ok(asset)
    ensures Has(json, "bufferViews") && !json.members["bufferViews"].Array? ==> r == Err(NotArray("bufferViews"))
    ensures r.Ok? ==> r.value == asset.(bufferViews := r.value.bufferViews)
    ensures r.Ok? && Has(json, "bufferViews") ==>
      MapResult(json.members["bufferViews"].items, ParseBufferView) == Ok(r.value.bufferViews)
  {
    match Find(json, "bufferViews")
    case None => Ok(asset)
    case Some(bs) =>
      if !bs.Array? then Err(NotArray("bufferViews"))
      else
        var views :- MapResult(bs.items, ParseBufferView);
        Ok(asset.(bufferViews := views))
  }

  method LoadBufferViews(asset: Asset, json: Value) returns (r: Result<Asset>)
    ensures r == ParseBufferViews(asset, json)
  {
    var bs := Find(json, "bufferViews");
    if bs.None? {
      return Ok(asset);
    }
    if !bs.value.Array? {
      return Err(NotArray("bufferViews"));
    }
    var views := FillEach(bs.value.items, ParseBufferView, DEFAULT_BUFFER_VIEW);
    if views.Err? {
      return Err(views.error);
    }
    r := Ok(asset.(bufferViews := views.value));
  }

  // ---------------------------------------------------------------------
  // loadAccessors
  // ---------------------------------------------------------------------

  /** The name of each accessor type, as glTF 2.0 spells it (section 3.6.2 of the Khronos glTF 2.0 specification). */
  function AccessorTypeName(t: AccessorType): string {
    match t
    case Scalar => "SCALAR"
    case Vec2 => "VEC2"
    case Vec3 => "VEC3"
    case Vec4 => "VEC4"
    case Mat2 => "MAT2"
    case Mat3 => "MAT3"
    case Mat4 => "MAT4"
  }

  /** The accessor type a name denotes; any other string denotes none. */
  function ParseAccessorType(s: string): (r: Option<AccessorType>)
    ensures r.Some? <==>
      s in {"SCALAR", "VEC2", "VEC3", "VEC4", "MAT2", "MAT3", "MAT4"}
  {
    if s == "SCALAR" then Some(Scalar)
    else if s == "VEC2" then Some(Vec2)
    else if s == "VEC3" then Some(Vec3)
    else if s == "VEC4" then Some(Vec4)
    else if s == "MAT2" then Some(Mat2)
    else if s == "MAT3" then Some(Mat3)
    else if s == "MAT4" then Some(Mat4)
    else None
  }

  lemma AccessorTypeRoundTrip(t: AccessorType)
    ensures ParseAccessorType(AccessorTypeName(t)) == Some(t)
  {
  }

  lemma AccessorTypeNameRoundTrip(s: string)
    requires ParseAccessorType(s).Some?
    ensures AccessorTypeName(ParseAccessorType(s).value) == s
  {
  }

  /**
   * One accessor: optional numeric bufferView and byteOffset, required
   * numeric componentType, optional boolean normalized, required numeric
   * count and a required type name out of the seven.
   */
  function ParseAccessor(v: Value): (r: Result<Accessor>)
    ensures r.Ok? <==>
      (Has(v, "bufferView") ==> v.members["bufferView"].Number?) &&
      (Has(v, "byteOffset") ==> v.members["byteOffset"].Number?) &&
      Has(v, "componentType") && v.members["componentType"].Number? &&
      (Has(v, "normalized") ==> v.members["normalized"].Bool?) &&
      Has(v, "count") && v.members["count"].Number? &&
      Has(v, "type") && v.members["type"].String? &&
      ParseAccessorType(v.members["type"].s).Some?
    ensures r.Ok? ==>
      r.value.name == "" &&
      r.value.bufferView == (if Has(v, "bufferView") then ToI32(Trunc(v.members["bufferView"].n)) else -1) &&
      r.value.byteOffset == (if Has(v, "byteOffset") then ToU32(Trunc(v.members["byteOffset"].n)) else 0) &&
      r.value.componentType == ToU16(Trunc(v.members["componentType"].n)) &&
      r.value.normalized == (Has(v, "normalized") && v.members["normalized"].b) &&
      r.value.count == ToU32(Trunc(v.members["count"].n)) &&
      AccessorTypeName(r.value.accessorType) == v.members["type"].s
    ensures Has(v, "type") && v.members["type"].String? && ParseAccessorType(v.members["type"].s).None? ==>
      r.Err? && (r.error.Misformatted? ==> r.error == Misformatted("accessors[i][type]", "is not a valid type"))
  {
    var bufferView :- OptNumber(v, "bufferView", "accessors[i][bufferView]", -1, ToI32);
    var byteOffset :- OptNumber(v, "byteOffset", "accessors[i][byteOffset]", 0, ToU32);
    var componentType :- ReqNumber(v, "componentType", "accessors[i][componentType]", ToU16);
    var normalized :- match Find(v, "normalized")
      case None => Ok(false)
      case Some(x) => if x.Bool? then Ok(x.b) else Err(NotBoolean("accessors[i][normalized]"));
    var count :- ReqNumber(v, "count", "accessors[i][count]", ToU32);
    match Find(v, "type")
    case None => Err(IsRequired("accessors[i][type]"))
    case Some(x) =>
      if !x.String? then Err(NotString("accessors[i][type]"))
      else
        match ParseAccessorType(x.s)
        case None => Err(Misformatted("accessors[i][type]", "is not a valid type"))
        case Some(t) =>
          AccessorTypeNameRoundTrip(x.s);
          Ok(Accessor("", bufferView, byteOffset, componentType, normalized, t, count))
  }

  function ParseAccessors(asset: Asset, json: Value): (r: Result<Asset>)
    ensures !Has(json, "accessors") ==> r == Ok(asset)
    ensures Has(json, "accessors") && !json.members["accessors"].Array? ==> r == Err(NotArray("accessors"))
    ensures r.Ok? ==> r.value == asset.(accessors := r.value.accessors)
    ensures r.Ok? && Has(json, "accessors") ==>
      MapResult(json.members["accessors"].items, ParseAccessor) == Ok(r.value.accessors)
  {
    match Find(json, "accessors")
    case None => Ok(asset)
    case Some(acs) =>
      if !acs.Array? then Err(NotArray("accessors"))
      else
        var accessors :- MapResult(acs.items, ParseAccessor);
        Ok(asset.(accessors := accessors))
  }

  method LoadAccessors(asset: Asset, json: Value) returns (r: Result<Asset>)
    ensures r == ParseAccessors(asset, json)
  {
    var acs := Find(json, "accessors");
    if acs.None? {
      return Ok(asset);
    }
    if !acs.value.Array? {
      return Err(NotArray("accessors"));
    }
    var accessors := FillEach(acs.value.items, ParseAccessor, DEFAULT_ACCESSOR);
    if accessors.Err? {
      return Err(accessors.error);
    }
    r := Ok(asset.(accessors := accessors.value));
  }

  // ---------------------------------------------------------------------
  // loadBuffers
  // ---------------------------------------------------------------------

  /** One buffer: optional string name, required numeric byteLength, optional string uri. */
  function ParseBuffer(v: Value): (r: Result<Buffer>)
    ensures r.Ok? <==>
      (Has(v, "name") ==> v.members["name"].String?) &&
      Has(v, "byteLength") && v.members["byteLength"].Number? &&
      (Has(v, "uri") ==> v.members["uri"].String?)
    ensures (Has(v, "name") ==> v.members["name"].String?) && !Has(v, "byteLength") ==>
      r == Err(IsRequired("buffers[i][byteLength]"))
    ensures r.Ok? ==>
      r.value.name == (if Has(v, "name") then v.members["name"].s else "") &&
      r.value.byteLength == ToU32(Trunc(v.members["byteLength"].n)) &&
      r.value.uri == (if Has(v, "uri") then v.members["uri"].s else "")
  {
    var name :- OptString(v, "name", "buffers[i][name]", "");
    // an int32_t stored into a uint32_t
    var byteLength :- ReqNumber(v, "byteLength", "buffers[i][byteLength]", ToU32);
    var uri :- OptString(v, "uri", "buffers[i][uri]", "");
    Ok(Buffer(name, uri, byteLength))
  }

  /**
   * The buffers from the `i`-th on, read into asset `a`: each buffer is
   * parsed into its slot and its data is read into the asset; the first
   * failure ends the pass.
   */
  function BuffersFrom(num: Numerics, files: map<string, seq<Byte>>, a: Asset, items: seq<Value>, i: nat): (r: Result<Asset>)
    requires i <= |items| == |a.buffers|
    ensures r.Ok? ==> r.value == a.(buffers := r.value.buffers, meshes := r.value.meshes, iV := r.value.iV,
                                    vV := r.value.vV, vnV := r.value.vnV, meshesLength := r.value.meshesLength,
                                    meshesName := r.value.meshesName)
    decreases |items| - i
  {
    if i == |items| then Ok(a)
    else
      var buffer :- ParseBuffer(items[i]);
      var next :- BufferData(num, a.(buffers := a.buffers[i := buffer]), buffer, files);
      BuffersFrom(num, files, next, items, i + 1)
  }

  /** The buffers, when present, must be an array; each buffer's data is read as it is parsed. */
  function ParseBuffers(num: Numerics, files: map<string, seq<Byte>>, asset: Asset, json: Value): (r: Result<Asset>)
    ensures !Has(json, "buffers") ==> r == Ok(asset)
    ensures Has(json, "buffers") && !json.members["buffers"].Array? ==> r == Err(NotArray("buffers"))
    ensures r.Ok? ==> r.value == asset.(buffers := r.value.buffers, meshes := r.value.meshes, iV := r.value.iV,
                                        vV := r.value.vV, vnV := r.value.vnV, meshesLength := r.value.meshesLength,
                                        meshesName := r.value.meshesName)
    ensures r.Ok? && Has(json, "buffers") ==>
      MapResult(json.members["buffers"].items, ParseBuffer) == Ok(r.value.buffers)
  {
    match Find(json, "buffers")
    case None => Ok(asset)
    case Some(bs) =>
      if !bs.Array? then Err(NotArray("buffers"))
      else
        var a := asset.(buffers := seq(|bs.items|, _ => DEFAULT_BUFFER));
        var r := BuffersFrom(num, files, a, bs.items, 0);
        if r.Ok? then
          BuffersRecorded(num, files, a, bs.items, 0);
          MapResultOk(bs.items, ParseBuffer, r.value.buffers);
          r
        else r
  }

  /**
   * Reading the buffers from the `i`-th on leaves the earlier slots
   * alone and puts each later buffer's parsed record in its slot.
   */
  lemma {:induction false} BuffersRecorded(num: Numerics, files: map<string, seq<Byte>>, a: Asset, items: seq<Value>, i: nat)
    requires i <= |items| == |a.buffers|
    requires BuffersFrom(num, files, a, items, i).Ok?
    ensures var r := BuffersFrom(num, files, a, items, i).value;
            |r.buffers| == |items| &&
            (forall k :: 0 <= k < i ==> r.buffers[k] == a.buffers[k]) &&
            (forall k :: i <= k < |items| ==> ParseBuffer(items[k]) == Ok(r.buffers[k]))
    decreases |items| - i
  {
    if i < |items| {
      var next := BuffersSlot(num, files, a, items, i);
      BuffersRecorded(num, files, next, items, i + 1);
      var r := BuffersFrom(num, files, next, items, i + 1).value;
      assert r.buffers[i] == next.buffers[i] == ParseBuffer(items[i]).value;
      assert forall k :: 0 <= k < i ==> r.buffers[k] == next.buffers[k] == a.buffers[k];
    }
  }

  /** A successful step parses one buffer into its slot and leaves the other slots alone. */
  lemma BuffersSlot(num: Numerics, files: map<string, seq<Byte>>, a: Asset, items: seq<Value>, i: nat) returns (next: Asset)
    requires i < |items| == |a.buffers|
    requires BuffersFrom(num, files, a, items, i).Ok?
    ensures ParseBuffer(items[i]).Ok?
    ensures next.buffers == a.buffers[i := ParseBuffer(items[i]).value]
    ensures BuffersFrom(num, files, a, items, i) == BuffersFrom(num, files, next, items, i + 1)
  {
    var buffer := ParseBuffer(items[i]).value;
    next := BufferData(num, a.(buffers := a.buffers[i := buffer]), buffer, files).value;
  }

  /**
   * With exactly one buffer, the names recorded are those of the mesh
   * nodes in order, and that buffer is not one with bytes but no uri.
   */
  lemma OneBufferNames(num: Numerics, files: map<string, seq<Byte>>, asset: Asset, json: Value)
    requires Has(json, "buffers") && json.members["buffers"].Array? && |json.members["buffers"].items| == 1
    requires ParseBuffers(num, files, asset, json).Ok?
    ensures var a := ParseBuffers(num, files, asset, json).value;
            a.meshesName == asset.meshesName + MeshNames(asset.nodes) &&
            !(a.buffers[0].uri == [] && a.buffers[0].byteLength > 0)
  {
    var items := json.members["buffers"].items;
    var a0 := asset.(buffers := seq(|items|, _ => DEFAULT_BUFFER));
    var buffer := ParseBuffer(items[0]).value;
    var a := a0.(buffers := a0.buffers[0 := buffer]);
    var next := BuffersSlot(num, files, a0, items, 0);
    assert BuffersFrom(num, files, next, items, 1) == Ok(next);
    BufferDataAppends(num, a, buffer, files);
  }

  method LoadBuffers(num: Numerics, files: map<string, seq<Byte>>, asset: Asset, json: Value) returns (r: Result<Asset>)
    ensures r == ParseBuffers(num, files, asset, json)
  {
    var bs := Find(json, "buffers");
    if bs.None? {
      return Ok(asset);
    }
    if !bs.value.Array? {
      return Err(NotArray("buffers"));
    }
    var items := bs.value.items;
    var a := asset.(buffers := seq(|items|, _ => DEFAULT_BUFFER));
    ghost var a0 := a;
    var i := 0;
    while i < |items|
      invariant 0 <= i <= |items| == |a.buffers|
      invariant BuffersFrom(num, files, a, items, i) == BuffersFrom(num, files, a0, items, 0)
    {
      var buffer := ParseBuffer(items[i]);
      if buffer.Err? {
        return Err(buffer.error);
      }
      a := a.(buffers := a.buffers[i := buffer.value]);
      var loaded := LoadBufferData(num, a, buffer.value, files);
      if loaded.Err? {
        return loaded;
      }
      a := loaded.value;
      i := i + 1;
    }
    r := Ok(a);
  }

  // ---------------------------------------------------------------------
  // getDirectoryName
  // ---------------------------------------------------------------------

  /** The position of the last '/' of a path, if it has one. */
  function LastSlash(path: string): (r: Option<nat>)
    ensures r.None? <==> '/' !in path
    ensures r.Some? ==> r.value < |path| && path[r.value] == '/' &&
                        forall j :: r.value < j < |path| ==> path[j] != '/'
    decreases |path|
  {
    if path == [] then None
    else if path[|path| - 1] == '/' then Some(|path| - 1)
    else
      var r := LastSlash(path[..|path| - 1]);
      assert forall j :: 0 <= j < |path| - 1 ==> path[..|path| - 1][j] == path[j];
      assert '/' in path[..|path| - 1] <==> '/' in path;
      r
  }

  /** The part of a path before its last '/', or "" when it has none. */
  function DirectoryName(path: string): (r: string)
    ensures '/' !in path ==> r == ""
    ensures '/' in path ==>
      exists i :: 0 <= i < |path| && path[i] == '/' && r == path[..i] &&
                  forall j :: i < j < |path| ==> path[j] != '/'
  {
    match LastSlash(path)
    case None => ""
    case Some(i) => path[..i]
  }

  // ---------------------------------------------------------------------
  // load
  // ---------------------------------------------------------------------

  /**
   * Loading a glTF file: the document (`None` when the file cannot be
   * opened) is read into a fresh asset whose directory name is that of
   * the file, by the parts in their order: the asset metadata, the
   * scenes, the meshes, the nodes, the buffer views, the accessors and
   * the buffers with their data. The first part that fails decides the
   * error.
   */
  function Load(num: Numerics, files: map<string, seq<Byte>>, file: Option<Value>, filename: string): (r: Result<Asset>)
    ensures file.None? ==> r == Err(CannotOpen)
    ensures file.Some? && LoadAsset(file.value).Err? ==> r == Err(LoadAsset(file.value).error)
    ensures r.Ok? ==> file.Some? && LoadAsset(file.value) == Ok(r.value.metadata)
    ensures r.Ok? ==> r.value.dirName == DirectoryName(filename) && r.value.newBufferLength == 0 &&
                      r.value.newMeshes == [] && r.value.newAccessors == [] && r.value.newBufferViews == [] &&
                      r.value.newmeshesLength == []
  {
    match file
    case None => Err(CannotOpen)
    case Some(json) =>
      var asset := EMPTY_ASSET.(dirName := DirectoryName(filename));
      var metadata :- LoadAsset(json);
      var a1 :- ParseScenes(asset.(metadata := metadata), json);
      var a2 :- ParseMeshes(a1, json);
      var a3 :- ParseNodes(a2, json);
      var a4 :- ParseBufferViews(a3, json);
      var a5 :- ParseAccessors(a4, json);
      ParseBuffers(num, files, a5, json)
  }

  /**
   * A file with one buffer: the names recorded for the culling pass are
   * the names of the mesh nodes in the order of the node list.
   */
  lemma LoadOneBuffer(num: Numerics, files: map<string, seq<Byte>>, json: Value, filename: string)
    requires Has(json, "buffers") && json.members["buffers"].Array? && |json.members["buffers"].items| == 1
    requires Load(num, files, Some(json), filename).Ok?
    ensures var a := Load(num, files, Some(json), filename).value;
            a.meshesName == MeshNames(a.nodes) && |a.buffers| == 1
  {
    var asset := EMPTY_ASSET.(dirName := DirectoryName(filename));
    var a1 := ParseScenes(asset.(metadata := LoadAsset(json).value), json).value;
    var a2 := ParseMeshes(a1, json).value;
    var a3 := ParseNodes(a2, json).value;
    var a4 := ParseBufferViews(a3, json).value;
    var a5 := ParseAccessors(a4, json).value;
    assert Load(num, files, Some(json), filename) == ParseBuffers(num, files, a5, json);
    OneBufferNames(num, files, a5, json);
  }

  method LoadFile(num: Numerics, files: map<string, seq<Byte>>, file: Option<Value>, filename: string) returns (r: Result<Asset>)
    ensures r == Load(num, files, file, filename)
  {
    if file.None? {
      return Err(CannotOpen);
    }
    var json := file.value;
    var asset := EMPTY_ASSET.(dirName := DirectoryName(filename));
    var metadata := LoadAsset(json);
    if metadata.Err? {
      return Err(metadata.error);
    }
    asset := asset.(metadata := metadata.value);
    var step := LoadScenes(asset, json);
    if step.Err? {
      return step;
    }
    step := LoadMeshes(step.value, json);
    if step.Err? {
      return step;
    }
    step := LoadNodes(step.value, json);
    if step.Err? {
      return step;
    }
    step := LoadBufferViews(step.value, json);
    if step.Err? {
      return step;
    }
    step := LoadAccessors(step.value, json);
    if step.Err? {
      return step;
    }
    r := LoadBuffers(num, files, step.value, json);
  }
}
