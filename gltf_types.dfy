/**
 * The records of a loaded glTF 2.0 asset, with the default member values
 * they start from, and the records the culling pass builds for its output
 * (the new meshes, accessors and buffer views).
 */
module GltfTypes {
  import opened Errors

  /**
   * A node matrix, kept as the term that built it rather than as 16 floats:
   * the identity default, the product of a "matrix" field with the node's
   * current matrix (the field on the left), or the current matrix times the
   * product T*R*S of the node's translation, rotation and scale.
   */
  datatype Transform =
    | Identity
    | Compose(local: seq<real>, parent: Transform)
    | ComposeTrs(parent: Transform, translation: seq<real>, rotation: seq<real>, scale: seq<real>)

  datatype Scene = Scene(name: string, nodes: seq<int>)

  const DEFAULT_SCENE := Scene("", [])

  datatype Node = Node(name: string, children: seq<int>, mesh: int, skin: int,
                       matrix: Transform, translation: seq<real>, rotation: seq<real>, scale: seq<real>)

  const DEFAULT_NODE := Node("", [], -1, -1, Identity, [0.0, 0.0, 0.0], [0.0, 0.0, 0.0, 1.0], [1.0, 1.0, 1.0])

  /** The primitive topologies, with their uint8_t codes. */
  datatype Mode = Points | Lines | LineLoop | LineStrip | Triangles | TriangleStrip | TriangleFan

  function ModeCode(m: Mode): (c: int)
    ensures 0 <= c <= 6
  {
    match m
    case Points => 0
    case Lines => 1
    case LineLoop => 2
    case LineStrip => 3
    case Triangles => 4
    case TriangleStrip => 5
    case TriangleFan => 6
  }

  /** The named mode of a stored code; codes 7 to 255 name none. */
  function ModeOf(c: int): (m: Option<Mode>)
    ensures m.Some? <==> 0 <= c <= 6
  {
    if c == 0 then Some(Points) else if c == 1 then Some(Lines) else if c == 2 then Some(LineLoop)
    else if c == 3 then Some(LineStrip) else if c == 4 then Some(Triangles)
    else if c == 5 then Some(TriangleStrip) else if c == 6 then Some(TriangleFan) else None
  }

  lemma ModeCodeRoundTrip(m: Mode)
    ensures ModeOf(ModeCode(m)) == Some(m)
  {
  }

  lemma ModeOfRoundTrip(c: int)
    requires ModeOf(c).Some?
    ensures ModeCode(ModeOf(c).value) == c
  {
  }

  /**
   * A primitive; the mode is kept as the stored uint8_t code, because the
   * enumeration with that underlying type holds any such value.
   */
  datatype Primitive = Primitive(indices: int, material: int, mode: int,
                                 attributes: map<string, int>, targets: seq<map<string, int>>)

  const DEFAULT_PRIMITIVE := Primitive(-1, -1, ModeCode(Triangles), map[], [])

  datatype Mesh = Mesh(name: string, weights: seq<real>, primitives: seq<Primitive>)

  const DEFAULT_MESH := Mesh("", [], [])

  datatype Buffer = Buffer(name: string, uri: string, byteLength: int)

  const DEFAULT_BUFFER := Buffer("", "", 0)

  /**
   * A buffer view. The buffer index has no default member value; the
   * vector resize that creates the records value-initialises it to 0.
   */
  datatype BufferView = BufferView(name: string, buffer: int, byteOffset: int, byteLength: int,
                                   byteStride: int, target: int)

  const DEFAULT_BUFFER_VIEW := BufferView("", 0, 0, 0, 0, 0)

  datatype AccessorType = Scalar | Vec2 | Vec3 | Vec4 | Mat2 | Mat3 | Mat4

  /** An accessor; type and count are value-initialised (Scalar and 0) by the resize. */
  datatype Accessor = Accessor(name: string, bufferView: int, byteOffset: int, componentType: int,
                               normalized: bool, accessorType: AccessorType, count: int)

  const DEFAULT_ACCESSOR := Accessor("", -1, 0, 0, false, Scalar, 0)

  /** The records of the culled output. */
  datatype NewMesh = NewMesh(name: string, primitives: seq<Primitive>)

  const DEFAULT_NEW_MESH := NewMesh("", [])

  datatype NewAccessor = NewAccessor(name: string, bufferView: int, byteOffset: int, componentType: int, count: int)

  const DEFAULT_NEW_ACCESSOR := NewAccessor("", -1, 0, 0, 0)

  datatype NewBufferView = NewBufferView(name: string, buffer: int, byteOffset: int, byteLength: int,
                                         byteStride: int, target: int)

  const DEFAULT_NEW_BUFFER_VIEW := NewBufferView("", 0, 0, 0, 0, 0)

  datatype Metadata = Metadata(copyright: string, generator: string, version: string, minVersion: string)

  /**
   * A loaded asset: the glTF records, the directory of the file, the
   * vertex positions (vV), normals (vnV) and shifted triangle indices (iV)
   * gathered from the binary buffers, the triangle count and name of each
   * mesh node, and the records of the culled output.
   */
  datatype Asset = Asset(
    metadata: Metadata,
    accessors: seq<Accessor>,
    buffers: seq<Buffer>,
    bufferViews: seq<BufferView>,
    meshes: seq<Mesh>,
    nodes: seq<Node>,
    scene: int,
    scenes: seq<Scene>,
    dirName: string,
    vV: seq<real>,
    vnV: seq<real>,
    iV: seq<int>,
    meshesLength: seq<int>,
    meshesName: seq<string>,
    newBufferLength: int,
    newmeshesLength: seq<int>,
    newBufferViews: seq<NewBufferView>,
    newAccessors: seq<NewAccessor>,
    newMeshes: seq<NewMesh>)

  const EMPTY_ASSET := Asset(Metadata("", "", "", ""), [], [], [], [], [], -1, [], "",
                             [], [], [], [], [], 0, [], [], [], [])
}
