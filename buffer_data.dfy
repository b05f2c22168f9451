/**
 * Reading the binary buffer of a glTF asset: for every node with a mesh,
 * the triangle indices of its first primitive are shifted by the number of
 * vertices read so far and appended to one index list, the positions are
 * placed by the node's matrix and appended to one vertex list, the normals
 * are appended to one normal list, and the triangle count and the name of
 * the node are recorded.
 *
 * The file is a sequence of bytes read through a stream; float decoding
 * and the placement of a vertex by a node matrix are parameters.
 */
module GltfBuffers {
  import opened Errors
  import opened Ints
  import opened GltfTypes

  /**
   * A binary input stream: the file's bytes (each 0..255) and whether it
   * is still good. A file that cannot be opened is a stream that is not
   * good; once a seek or a read fails, every later read yields nothing.
   */
  datatype Stream = Stream(data: seq<Byte>, good: bool)

  function OpenStream(file: Option<seq<Byte>>): (st: Stream)
    ensures st.good <==> file.Some?
  {
    match file
    case None => Stream([], false)
    case Some(bytes) => Stream(bytes, true)
  }

  /**
   * Seek to `offset` from the beginning, then read up to `n` bytes: the
   * bytes read (whose count is what `gcount` reports) and the stream after.
   * A seek before the beginning fails. A read that yields fewer bytes than
   * asked (none at all when `n` is negative) fails the stream; a read of
   * zero bytes keeps it good wherever the seek went.
   */
  function Read(st: Stream, offset: int, n: int): (r: (seq<Byte>, Stream))
    ensures r.1.data == st.data
    ensures |r.0| <= (if n > 0 then n else 0)
    ensures !st.good ==> r == ([], st)
    ensures st.good && (offset < 0 || n < 0) ==> r == ([], st.(good := false))
    ensures st.good && 0 <= offset && n == 0 ==> r == ([], st)
    ensures r.0 != [] ==> st.good && 0 <= offset && offset + |r.0| <= |st.data| && r.0 == st.data[offset..offset + |r.0|]
    ensures st.good && 0 <= offset && 0 <= n && offset + n <= |st.data| ==> r == (st.data[offset..offset + n], st)
    ensures st.good && 0 <= offset && 0 < n && offset + n > |st.data| ==>
              r == (if offset < |st.data| then st.data[offset..] else [], st.(good := false))
  {
    if !st.good then ([], st)
    else if offset < 0 || n < 0 then ([], st.(good := false))
    else if n == 0 then
      assert offset <= |st.data| ==> st.data[offset..offset] == [];
      ([], st)
    else if offset >= |st.data| then ([], st.(good := false))
    else if offset + n <= |st.data| then (st.data[offset..offset + n], st)
    else (st.data[offset..], st.(good := false))
  }

  // ---------------------------------------------------------------------
  // Decoding the bytes read
  // ---------------------------------------------------------------------

  /** A byte of a file. */
  type Byte = x: int | 0 <= x < 256

  function Pow256(k: nat): (p: nat)
    ensures p >= 1
  {
    if k == 0 then 1 else 256 * Pow256(k - 1)
  }

  /** The unsigned little-endian number the bytes spell. */
  function LittleEndian(bs: seq<Byte>): (x: int)
    ensures 0 <= x < Pow256(|bs|)
  {
    if bs == [] then 0
    else
      bs[0] + 256 * LittleEndian(bs[1..])
  }

  /**
   * Element `j` of width `w` of the buffer the bytes were read into. A
   * cell the read did not fill holds whatever the new buffer held; the
   * model takes 0 for it.
   */
  function Element(bs: seq<Byte>, j: int, w: nat): (x: int)
    ensures 0 <= x < Pow256(w)
  {
    if 0 <= j && (j + 1) * w <= |bs| then
      LittleEndian(bs[j * w..(j + 1) * w])
    else 0
  }

  /** The index widths in bytes of the component types 5121, 5123 and 5125. */
  function IndexWidth(componentType: int): (w: Option<nat>)
    ensures w.Some? <==> componentType in {5121, 5123, 5125}
    ensures w.Some? ==> w.value in {1, 2, 4}
  {
    if componentType == 5121 then Some(1)
    else if componentType == 5123 then Some(2)
    else if componentType == 5125 then Some(4)
    else None
  }

  /**
   * An index shifted by the vertex count so far. An 8- or 16-bit index is
   * promoted to int and added; a 32-bit index is added in unsigned
   * arithmetic and the sum is stored into an int.
   */
  function Shift(e: int, offset: int, w: nat): int {
    if w == 4 then ToI32(e + offset) else e + offset
  }

  /** The number of triples the loop reads for `n` elements: whole triples, the last one possibly reaching past `n`. */
  function Triples(n: nat): nat {
    (n + 2) / 3
  }

  /** The number of indices the loop pushes for `n` elements. */
  function TripleCover(n: nat): nat {
    3 * Triples(n)
  }

  /** A triple that starts before `n` is one the loop reads. */
  lemma TriplesStep(n: nat, t: nat)
    requires 3 * t < n
    ensures t + 1 <= Triples(n)
  {
  }

  /** The loop stops at the first triple that starts at or after `n`. */
  lemma TriplesEnd(n: nat, t: nat)
    requires n <= 3 * t && t <= Triples(n)
    ensures t == Triples(n)
  {
  }

  /** A read of `d` bytes of floats pushes the vertices it counts, plus one when the floats end in a partial triple. */
  lemma CoverVsVertices(d: nat)
    ensures TripleCover(d / 4) - 3 * (d / 12) in {0, 3}
  {
    var q := d / 4;
    assert d / 12 == q / 3;
  }

  /** The shifted indices pushed for the bytes `bs` of one mesh's index data. */
  function IndexRun(bs: seq<Byte>, w: nat, offset: int): (run: seq<int>)
    requires w > 0
    ensures |run| == TripleCover(|bs| / w)
  {
    seq(TripleCover(|bs| / w), k => Shift(Element(bs, k, w), offset, w))
  }

  /**
   * The indices of one mesh, shifted by the vertex count `offset`: an 8-
   * or 16-bit index `e` becomes exactly `offset + e`, so it lies in
   * `[offset, offset + 256^w)` and subtracting the offset gives back the
   * index the file holds.
   */
  lemma IndexRunShifted(bs: seq<Byte>, w: nat, offset: int, k: nat)
    requires w in {1, 2} && k < |IndexRun(bs, w, offset)|
    ensures IndexRun(bs, w, offset)[k] - offset == Element(bs, k, w)
    ensures offset <= IndexRun(bs, w, offset)[k] < offset + Pow256(w)
  {
  }

  /** A 32-bit index is shifted modulo 2^32 and stored as a signed int. */
  lemma IndexRunShiftedWide(bs: seq<Byte>, offset: int, k: nat)
    requires k < |IndexRun(bs, 4, offset)|
    ensures (IndexRun(bs, 4, offset)[k] - (Element(bs, k, 4) + offset)) % U32_MOD == 0
    ensures I32_MIN <= IndexRun(bs, 4, offset)[k] < I32_MIN + U32_MOD
  {
  }

  /**
   * The triangle count recorded for a mesh is the number of whole
   * triples read, and the indices pushed are three per recorded triangle
   * exactly when the elements read form whole triples.
   */
  lemma TriangleCountMatchesRun(bs: seq<Byte>, w: nat, offset: int)
    requires w > 0
    ensures 3 * (|bs| / w / 3) <= |IndexRun(bs, w, offset)| <= 3 * (|bs| / w / 3) + 3
    ensures |IndexRun(bs, w, offset)| == 3 * (|bs| / w / 3) <==> (|bs| / w) % 3 == 0
  {
  }

  /** How floats are decoded from their bit patterns and how a node matrix places a vertex. */
  datatype Numerics = Numerics(floatOf: int -> real, place: (Transform, real, real, real) -> (real, real, real))

  /** The three floats starting at float `j` of the positions read, placed by the node matrix `m`. */
  function PlacedAt(num: Numerics, m: Transform, bs: seq<Byte>, j: nat): seq<real>
  {
    var p := num.place(m, num.floatOf(Element(bs, j, 4)), num.floatOf(Element(bs, j + 1, 4)),
                       num.floatOf(Element(bs, j + 2, 4)));
    [p.0, p.1, p.2]
  }

  /** Vertex `t` of the positions read, placed by the node matrix `m`. */
  function Placed(num: Numerics, m: Transform, bs: seq<Byte>, t: nat): seq<real>
  {
    PlacedAt(num, m, bs, 3 * t)
  }

  /** The first `t` placed vertices, three coordinates each. */
  function PlacedUpTo(num: Numerics, m: Transform, bs: seq<Byte>, t: nat): (run: seq<real>)
    ensures |run| == 3 * t
  {
    if t == 0 then [] else PlacedUpTo(num, m, bs, t - 1) + Placed(num, m, bs, t - 1)
  }

  /** The placed positions pushed for the bytes `bs` of one mesh's position data: one vertex per three floats. */
  function PositionRun(num: Numerics, m: Transform, bs: seq<Byte>): (run: seq<real>)
    ensures |run| == TripleCover(|bs| / 4)
  {
    PlacedUpTo(num, m, bs, Triples(|bs| / 4))
  }

  /** The normals pushed for the bytes `bs` of one mesh's normal data, as read. */
  function NormalRun(num: Numerics, bs: seq<Byte>): (run: seq<real>)
    ensures |run| == TripleCover(|bs| / 4)
  {
    seq(TripleCover(|bs| / 4), k => num.floatOf(Element(bs, k, 4)))
  }

  // ---------------------------------------------------------------------
  // The loops that push one mesh's data
  // ---------------------------------------------------------------------

  /** The next triple of the indices pushed. */
  lemma IndexRunTriple(bs: seq<Byte>, w: nat, offset: int, j: nat)
    requires w > 0 && j + 3 <= |IndexRun(bs, w, offset)|
    ensures IndexRun(bs, w, offset)[..j + 3] ==
            IndexRun(bs, w, offset)[..j] + [Shift(Element(bs, j, w), offset, w), Shift(Element(bs, j + 1, w), offset, w),
                                            Shift(Element(bs, j + 2, w), offset, w)]
  {
    var run := IndexRun(bs, w, offset);
    assert run[..j + 3] == run[..j] + [run[j], run[j + 1], run[j + 2]];
  }

  method PushIndices(iV: seq<int>, bs: seq<Byte>, w: nat, offset: int) returns (r: seq<int>)
    requires w > 0
    ensures r == iV + IndexRun(bs, w, offset)
  {
    r := iV;
    var n := |bs| / w;
    var j := 0;
    ghost var t := 0;
    while j < n
      invariant j == 3 * t && t <= Triples(n)
      invariant r == iV + IndexRun(bs, w, offset)[..j]
    {
      TriplesStep(n, t);
      IndexRunTriple(bs, w, offset, j);
      var a, b, c := Shift(Element(bs, j, w), offset, w), Shift(Element(bs, j + 1, w), offset, w),
                     Shift(Element(bs, j + 2, w), offset, w);
      r := r + [a, b, c];
      j := j + 3;
      t := t + 1;
    }
    TriplesEnd(n, t);
    assert IndexRun(bs, w, offset)[..j] == IndexRun(bs, w, offset);
  }

  lemma PlacedUpToNext(num: Numerics, m: Transform, bs: seq<Byte>, t: nat, j: nat)
    requires j == 3 * t
    ensures PlacedUpTo(num, m, bs, t + 1) == PlacedUpTo(num, m, bs, t) + PlacedAt(num, m, bs, j)
  {
  }

  lemma SeqAppendAssoc<T>(a: seq<T>, b: seq<T>, c: seq<T>)
    ensures (a + b) + c == a + (b + c)
  {
  }

  method PushPositions(vV: seq<real>, num: Numerics, m: Transform, bs: seq<Byte>) returns (r: seq<real>)
    ensures r == vV + PositionRun(num, m, bs)
  {
    r := vV;
    var n := |bs| / 4;
    var j := 0;
    ghost var t := 0;
    while j < n
      invariant j == 3 * t && t <= Triples(n)
      invariant r == vV + PlacedUpTo(num, m, bs, t)
    {
      TriplesStep(n, t);
      PlacedUpToNext(num, m, bs, t, j);
      SeqAppendAssoc(vV, PlacedUpTo(num, m, bs, t), PlacedAt(num, m, bs, j));
      r := r + PlacedAt(num, m, bs, j);
      j := j + 3;
      t := t + 1;
    }
    TriplesEnd(n, t);
  }

  /** The next triple of the normals pushed. */
  lemma NormalRunTriple(num: Numerics, bs: seq<Byte>, j: nat)
    requires j + 3 <= |NormalRun(num, bs)|
    ensures NormalRun(num, bs)[..j + 3] ==
            NormalRun(num, bs)[..j] + [num.floatOf(Element(bs, j, 4)), num.floatOf(Element(bs, j + 1, 4)),
                                       num.floatOf(Element(bs, j + 2, 4))]
  {
    var run := NormalRun(num, bs);
    assert run[..j + 3] == run[..j] + [run[j], run[j + 1], run[j + 2]];
  }

  method PushNormals(vnV: seq<real>, num: Numerics, bs: seq<Byte>) returns (r: seq<real>)
    ensures r == vnV + NormalRun(num, bs)
  {
    r := vnV;
    var n := |bs| / 4;
    var j := 0;
    ghost var t := 0;
    while j < n
      invariant j == 3 * t && t <= Triples(n)
      invariant r == vnV + NormalRun(num, bs)[..j]
    {
      TriplesStep(n, t);
      NormalRunTriple(num, bs, j);
      r := r + [num.floatOf(Element(bs, j, 4)), num.floatOf(Element(bs, j + 1, 4)), num.floatOf(Element(bs, j + 2, 4))];
      j := j + 3;
      t := t + 1;
    }
    TriplesEnd(n, t);
    assert NormalRun(num, bs)[..j] == NormalRun(num, bs);
  }

  // ---------------------------------------------------------------------
  // One node
  // ---------------------------------------------------------------------

  /** What the pass over the nodes accumulates. */
  datatype Gather = Gather(meshes: seq<Mesh>, iV: seq<int>, vV: seq<real>, vnV: seq<real>,
                           meshesLength: seq<int>, meshesName: seq<string>, stream: Stream, nodesOffset: int)

  /** The accessor and buffer view behind an accessor index, with the file offset of its data. */
  datatype Source = Source(accessor: Accessor, view: BufferView, offset: int)

  /**
   * The accessor at index `a` and its buffer view. Indexing either vector
   * out of range is undefined in the original, and an error here.
   */
  function SourceOf(accessors: seq<Accessor>, views: seq<BufferView>, a: int, what: string): (r: Result<Source>)
    ensures r.Ok? <==> 0 <= a < |accessors| && 0 <= accessors[a].bufferView < |views|
    ensures r.Ok? ==> r.value.accessor == accessors[a] && r.value.view == views[accessors[a].bufferView] &&
                      r.value.offset == ToI32(accessors[a].byteOffset + views[accessors[a].bufferView].byteOffset)
  {
    if !(0 <= a < |accessors|) then Err(OutOfRange(what))
    else
      var acc := accessors[a];
      if !(0 <= acc.bufferView < |views|) then Err(OutOfRange(what))
      else
        var view := views[acc.bufferView];
        // the two uint32_t offsets are added modulo 2^32, then stored into an int
        Ok(Source(acc, view, ToI32(acc.byteOffset + view.byteOffset)))
  }

  /**
   * Looking up an attribute with `operator[]` inserts it with value 0
   * when absent; the uint32_t accessor index is then stored into an int.
   */
  function Attribute(attributes: map<string, int>, key: string): (r: (int, map<string, int>))
    ensures r.1 == attributes[key := if key in attributes then attributes[key] else 0]
    ensures r.0 == ToI32(r.1[key])
  {
    var value := if key in attributes then attributes[key] else 0;
    (ToI32(value), attributes[key := value])
  }

  /**
   * The parts of one mesh node's step that its first primitive decides
   * before anything is allocated: the meshes with the two attributes
   * inserted, the source of the indices, and the accessor indices of
   * POSITION and NORMAL, which are looked up later.
   */
  datatype Refs = Refs(meshes: seq<Mesh>, indices: Source, position: int, normal: int)

  function RefsOf(g: Gather, accessors: seq<Accessor>, views: seq<BufferView>, node: Node): (r: Result<Refs>)
    ensures r.Ok? ==> 0 <= node.mesh < |g.meshes| && |g.meshes[node.mesh].primitives| > 0
    ensures r.Ok? ==> |r.value.meshes| == |g.meshes|
  {
    if !(0 <= node.mesh < |g.meshes|) then Err(OutOfRange("meshes[mesh]"))
    else
      var mesh := g.meshes[node.mesh];
      if |mesh.primitives| == 0 then Err(OutOfRange("primitives[0]"))
      else
        var prim := mesh.primitives[0];
        var (position, attrs1) := Attribute(prim.attributes, "POSITION");
        var (normal, attrs2) := Attribute(attrs1, "NORMAL");
        var meshes := g.meshes[node.mesh := mesh.(primitives := mesh.primitives[0 := prim.(attributes := attrs2)])];
        var indices :- SourceOf(accessors, views, prim.indices, "accessors[indices]");
        Ok(Refs(meshes, indices, position, normal))
  }

  /** The source of the positions, looked up once the indices are read. */
  function PositionsOf(accessors: seq<Accessor>, views: seq<BufferView>, refs: Refs): Result<Source> {
    SourceOf(accessors, views, refs.position, "accessors[POSITION]")
  }

  /** The source of the normals, looked up once the positions are pushed. */
  function NormalsOf(accessors: seq<Accessor>, views: seq<BufferView>, refs: Refs): Result<Source> {
    SourceOf(accessors, views, refs.normal, "accessors[NORMAL]")
  }

  /**
   * What one node's step promises when it succeeds: a node without a
   * mesh changes nothing; otherwise the step reads the same
   * file, keeps the number of meshes, records the name of a mesh node,
   * only appends to the index, vertex and normal lists, records at most
   * one triangle count, and counts whole vertices into `nodesOffset`: the
   * vertices pushed are three coordinates per counted vertex plus at most
   * one partial vertex, and the indices pushed are three per counted
   * triangle plus at most one partial triangle.
   */
  predicate Appends(g: Gather, node: Node, r: Result<Gather>) {
    r.Ok? ==>
      var h := r.value;
      (node.mesh == -1 ==> h == g) &&
      h.stream.data == g.stream.data && |h.meshes| == |g.meshes| &&
      h.meshesName == g.meshesName + (if node.mesh != -1 then [node.name] else []) &&
      h.nodesOffset >= g.nodesOffset &&
      |h.iV| >= |g.iV| && h.iV[..|g.iV|] == g.iV &&
      |h.vV| >= |g.vV| && h.vV[..|g.vV|] == g.vV &&
      |h.vnV| >= |g.vnV| && h.vnV[..|g.vnV|] == g.vnV &&
      |g.meshesLength| <= |h.meshesLength| <= |g.meshesLength| + (if node.mesh != -1 then 1 else 0) &&
      h.meshesLength[..|g.meshesLength|] == g.meshesLength &&
      (|h.vV| - |g.vV|) - 3 * (h.nodesOffset - g.nodesOffset) in {0, 3} &&
      (|h.meshesLength| == |g.meshesLength| ==> h.iV == g.iV) &&
      (|h.meshesLength| > |g.meshesLength| ==>
         0 <= (|h.iV| - |g.iV|) - 3 * h.meshesLength[|g.meshesLength|] <= 3)
  }

  /**
   * One node of the pass. A node without a mesh changes nothing. A mesh
   * node's indices are read (when their component type is 5121, 5123 or
   * 5125), shifted by the vertex count so far and counted; its positions
   * are read, counted into the vertex count (12 bytes a vertex) and
   * placed by the node's matrix; its normals are read as they are. Each
   * read goes into a new array of the accessor's count (times three for
   * floats), and a negative count stored into an `int` makes that `new[]`
   * throw. The lookups and allocations fail in the source's order: mesh,
   * primitive and index accessor; the index array; the POSITION accessor;
   * the position array; the NORMAL accessor; the normal array.
   */
  function NodeData(num: Numerics, accessors: seq<Accessor>, views: seq<BufferView>, g: Gather, node: Node): (r: Result<Gather>)
    ensures node.mesh == -1 ==> r == Ok(g)
    ensures node.mesh != -1 && RefsOf(g, accessors, views, node).Err? ==> r == Err(RefsOf(g, accessors, views, node).error)
    ensures node.mesh != -1 && RefsOf(g, accessors, views, node).Ok? ==>
              var refs := RefsOf(g, accessors, views, node).value;
              var p, n := PositionsOf(accessors, views, refs), NormalsOf(accessors, views, refs);
              (IndexData(g, refs.indices).Err? ==> r == Err(BadArrayLength("indices"))) &&
              (IndexData(g, refs.indices).Ok? && p.Err? ==> r == Err(p.error)) &&
              (IndexData(g, refs.indices).Ok? && p.Ok? && ToI32(p.value.accessor.count) < 0 ==>
                 r == Err(BadArrayLength("positions"))) &&
              (IndexData(g, refs.indices).Ok? && p.Ok? && ToI32(p.value.accessor.count) >= 0 && n.Err? ==>
                 r == Err(n.error)) &&
              (IndexData(g, refs.indices).Ok? && p.Ok? && ToI32(p.value.accessor.count) >= 0 && n.Ok? ==>
                 (r.Err? <==> ToI32(n.value.accessor.count) < 0) && (r.Err? ==> r.error == BadArrayLength("normals")))
    ensures node.mesh != -1 && RefsOf(g, accessors, views, node).Ok? &&
            NegativeCount(accessors, views, RefsOf(g, accessors, views, node).value) ==>
              r.Err? && r.error.BadArrayLength?
  {
    if node.mesh == -1 then Ok(g)
    else
      var refs :- RefsOf(g, accessors, views, node);
      var indexed :- IndexData(g, refs.indices);
      var (iV, meshesLength, st1) := indexed;
      var positions :- PositionsOf(accessors, views, refs);
      var positionsCount := ToI32(positions.accessor.count);
      if positionsCount * 3 < 0 then Err(BadArrayLength("positions"))
      else
        var (pbs, st2) := Read(st1, positions.offset, positionsCount * 3 * 4);
        var normals :- NormalsOf(accessors, views, refs);
        var normalCount := ToI32(normals.accessor.count);
        if normalCount * 3 < 0 then Err(BadArrayLength("normals"))
        else
          var (nbs, st3) := Read(st2, normals.offset, normalCount * 3 * 4);
          Ok(Gather(refs.meshes, iV, g.vV + PositionRun(num, node.matrix, pbs), g.vnV + NormalRun(num, nbs),
                    meshesLength, g.meshesName + [node.name], st3, g.nodesOffset + |pbs| / 12))
  }

  /**
   * The index array is allocated before the POSITION accessor is looked
   * up: an index accessor of 0x8000_0000 one-byte elements, whose count is
   * negative once stored into an `int`, makes the step fail with
   * bad_array_new_length although POSITION names an accessor that does not
   * exist.
   */
  lemma IndexAllocationBeforePositionLookup(num: Numerics, g: Gather, node: Node)
    requires node.mesh == 0 && |g.meshes| == 1
    requires g.meshes[0].primitives == [DEFAULT_PRIMITIVE.(indices := 0, attributes := map["POSITION" := 5])]
    ensures var accessors := [DEFAULT_ACCESSOR.(bufferView := 0, componentType := 5121, count := 0x8000_0000)];
            PositionsOf(accessors, [DEFAULT_BUFFER_VIEW], RefsOf(g, accessors, [DEFAULT_BUFFER_VIEW], node).value).Err? &&
            NodeData(num, accessors, [DEFAULT_BUFFER_VIEW], g, node) == Err(BadArrayLength("indices"))
  {
    assert ToI32(0x8000_0000) < 0;
  }

  /**
   * Whether the step reaches a `new[]` of negative length: the index
   * array, or, once the POSITION accessor is found, the position array, or,
   * once the NORMAL accessor is found too, the normal array.
   */
  predicate NegativeCount(accessors: seq<Accessor>, views: seq<BufferView>, refs: Refs) {
    var p, n := PositionsOf(accessors, views, refs), NormalsOf(accessors, views, refs);
    (IndexWidth(refs.indices.accessor.componentType).Some? && ToI32(refs.indices.accessor.count) < 0) ||
    (p.Ok? && (ToI32(p.value.accessor.count) < 0 || (n.Ok? && ToI32(n.value.accessor.count) < 0)))
  }

  /**
   * The indices of a mesh node, when their component type is known: they
   * are read into a new array of `count` elements, shifted and pushed,
   * and the number of whole triples read is recorded as the mesh's
   * triangle count. The byte length asked for is the count times the
   * width in `uint32_t` arithmetic, stored into an `int`.
   */
  function IndexData(g: Gather, src: Source): (r: Result<(seq<int>, seq<int>, Stream)>)
    ensures r.Err? <==> IndexWidth(src.accessor.componentType).Some? && ToI32(src.accessor.count) < 0
    ensures r.Err? ==> r.error == BadArrayLength("indices")
    ensures IndexWidth(src.accessor.componentType).None? ==> r == Ok((g.iV, g.meshesLength, g.stream))
  {
    var width := IndexWidth(src.accessor.componentType);
    if width.Some? then
      if ToI32(src.accessor.count) < 0 then Err(BadArrayLength("indices"))
      else
        var (ibs, st1) := Read(g.stream, src.offset, ToI32(src.accessor.count * width.value));
        Ok((g.iV + IndexRun(ibs, width.value, g.nodesOffset), g.meshesLength + [|ibs| / width.value / 3], st1))
    else Ok((g.iV, g.meshesLength, g.stream))
  }

  /** Every node's step keeps the promises of `Appends`. */
  lemma NodeDataAppends(num: Numerics, accessors: seq<Accessor>, views: seq<BufferView>, g: Gather, node: Node)
    ensures Appends(g, node, NodeData(num, accessors, views, g, node))
  {
    var r := NodeData(num, accessors, views, g, node);
    if node.mesh != -1 && r.Ok? {
      var refs := RefsOf(g, accessors, views, node).value;
      var (iV, meshesLength, st1) := IndexData(g, refs.indices).value;
      var positions := PositionsOf(accessors, views, refs).value;
      var (pbs, st2) := Read(st1, positions.offset, ToI32(positions.accessor.count) * 3 * 4);
      var normals := NormalsOf(accessors, views, refs).value;
      var (nbs, st3) := Read(st2, normals.offset, ToI32(normals.accessor.count) * 3 * 4);
      var h := Gather(refs.meshes, iV, g.vV + PositionRun(num, node.matrix, pbs), g.vnV + NormalRun(num, nbs),
                      meshesLength, g.meshesName + [node.name], st3, g.nodesOffset + |pbs| / 12);
      assert r == Ok(h);
      IndexDataAppends(g, refs.indices);
      CoverVsVertices(|pbs|);
      assert h.vV[..|g.vV|] == g.vV && h.vnV[..|g.vnV|] == g.vnV;
    }
  }

  /** The index branch only appends to the indices and records at most one count, three indices a triangle. */
  lemma IndexDataAppends(g: Gather, src: Source)
    requires IndexData(g, src).Ok?
    ensures var (iV, ml, st) := IndexData(g, src).value;
            st.data == g.stream.data && |iV| >= |g.iV| && iV[..|g.iV|] == g.iV &&
            |g.meshesLength| <= |ml| <= |g.meshesLength| + 1 && ml[..|g.meshesLength|] == g.meshesLength &&
            (|ml| == |g.meshesLength| ==> iV == g.iV) &&
            (|ml| > |g.meshesLength| ==> 0 <= (|iV| - |g.iV|) - 3 * ml[|g.meshesLength|] <= 3)
  {
    var width := IndexWidth(src.accessor.componentType);
    if width.Some? {
      var (ibs, st1) := Read(g.stream, src.offset, ToI32(src.accessor.count * width.value));
      TriangleCountMatchesRun(ibs, width.value, g.nodesOffset);
      assert (g.meshesLength + [|ibs| / width.value / 3])[..|g.meshesLength|] == g.meshesLength;
    }
  }

  /** One node of the pass, step by step as the original pushes its data. */
  method LoadNodeData(num: Numerics, accessors: seq<Accessor>, views: seq<BufferView>, g: Gather, node: Node)
    returns (r: Result<Gather>)
    ensures r == NodeData(num, accessors, views, g, node)
  {
    if node.mesh == -1 {
      return Ok(g);
    }
    var refs := RefsOf(g, accessors, views, node);
    if refs.Err? {
      return Err(refs.error);
    }
    var rf := refs.value;
    var meshesName := g.meshesName + [node.name];
    var indexed := LoadIndices(g, rf.indices);
    if indexed.Err? {
      return Err(indexed.error);
    }
    var iV, meshesLength, st := indexed.value.0, indexed.value.1, indexed.value.2;
    var found := PositionsOf(accessors, views, rf);
    if found.Err? {
      return Err(found.error);
    }
    var positions := found.value;
    var positionsCount := ToI32(positions.accessor.count);
    if positionsCount * 3 < 0 {
      return Err(BadArrayLength("positions"));
    }
    var st1 := st;
    var readP := Read(st1, positions.offset, positionsCount * 3 * 4);
    var pbs := readP.0;
    st := readP.1;
    var nodesOffset := g.nodesOffset + |pbs| / 12;
    var vV := PushPositions(g.vV, num, node.matrix, pbs);
    found := NormalsOf(accessors, views, rf);
    if found.Err? {
      return Err(found.error);
    }
    var normals := found.value;
    var normalCount := ToI32(normals.accessor.count);
    if normalCount * 3 < 0 {
      return Err(BadArrayLength("normals"));
    }
    var st2 := st;
    var readN := Read(st2, normals.offset, normalCount * 3 * 4);
    var nbs := readN.0;
    st := readN.1;
    var vnV := PushNormals(g.vnV, num, nbs);
    r := Ok(Gather(rf.meshes, iV, vV, vnV, meshesLength, meshesName, st, nodesOffset));
  }

  /** The indices of a mesh node, pushed one triple at a time. */
  method LoadIndices(g: Gather, src: Source) returns (r: Result<(seq<int>, seq<int>, Stream)>)
    ensures r == IndexData(g, src)
  {
    var iV, meshesLength, st := g.iV, g.meshesLength, g.stream;
    var width := IndexWidth(src.accessor.componentType);
    if width.Some? {
      if ToI32(src.accessor.count) < 0 {
        return Err(BadArrayLength("indices"));
      }
      var read := Read(st, src.offset, ToI32(src.accessor.count * width.value));
      var ibs := read.0;
      st := read.1;
      iV := PushIndices(iV, ibs, width.value, g.nodesOffset);
      meshesLength := meshesLength + [|ibs| / width.value / 3];
    }
    r := Ok((iV, meshesLength, st));
  }

  // ---------------------------------------------------------------------
  // The pass over the nodes
  // ---------------------------------------------------------------------

  /** One step of the pass over the nodes. */
  type Step = (Gather, Node) -> Result<Gather>

  /** The step of the loader: one node's data, read from the accessors and buffer views. */
  function NodeStep(num: Numerics, accessors: seq<Accessor>, views: seq<BufferView>): Step
  {
    (g, node) => NodeData(num, accessors, views, g, node)
  }

  lemma NodeStepAppends(num: Numerics, accessors: seq<Accessor>, views: seq<BufferView>)
    ensures forall g, node :: Appends(g, node, NodeStep(num, accessors, views)(g, node))
  {
    forall g, node ensures Appends(g, node, NodeStep(num, accessors, views)(g, node)) {
      NodeDataAppends(num, accessors, views, g, node);
      assert NodeStep(num, accessors, views)(g, node) == NodeData(num, accessors, views, g, node);
    }
  }

  /** The pass over the first `i` nodes, from the state `g0`; the first failing node ends it. */
  function GatherAfter(step: Step, g0: Gather, nodes: seq<Node>, i: nat): (r: Result<Gather>)
    requires i <= |nodes|
    ensures i == 0 ==> r == Ok(g0)
  {
    if i == 0 then Ok(g0)
    else
      var g :- GatherAfter(step, g0, nodes, i - 1);
      step(g, nodes[i - 1])
  }

  /** One more node extends the pass by one step. */
  lemma GatherAfterNext(step: Step, g0: Gather, nodes: seq<Node>, i: nat, g: Gather)
    requires i < |nodes| && GatherAfter(step, g0, nodes, i) == Ok(g)
    ensures GatherAfter(step, g0, nodes, i + 1) == step(g, nodes[i])
  {
  }

  /** One more node: the pass goes on with its result, or ends with its error. */
  lemma GatherNext(step: Step, g0: Gather, nodes: seq<Node>, i: nat, g: Gather, r: Result<Gather>)
    requires i < |nodes| && GatherAfter(step, g0, nodes, i) == Ok(g) && r == step(g, nodes[i])
    ensures r.Ok? ==> GatherAfter(step, g0, nodes, i + 1) == r
    ensures r.Err? ==> GatherAfter(step, g0, nodes, |nodes|) == r
  {
    GatherAfterNext(step, g0, nodes, i, g);
    if r.Err? {
      GatherErrorStays(step, g0, nodes, i + 1, |nodes|);
    }
  }

  /** Once a node fails, the pass fails with that node's error. */
  lemma {:induction false} GatherErrorStays(step: Step, g0: Gather, nodes: seq<Node>, i: nat, k: nat)
    requires i <= k <= |nodes|
    requires GatherAfter(step, g0, nodes, i).Err?
    ensures GatherAfter(step, g0, nodes, k) == GatherAfter(step, g0, nodes, i)
    decreases k
  {
    if k > i {
      GatherErrorStays(step, g0, nodes, i, k - 1);
    }
  }

  /** The names of the nodes that have a mesh, in order. */
  function MeshNames(nodes: seq<Node>): (names: seq<string>)
    ensures |names| <= |nodes|
  {
    if nodes == [] then []
    else
      var last := nodes[|nodes| - 1];
      MeshNames(nodes[..|nodes| - 1]) + (if last.mesh != -1 then [last.name] else [])
  }

  /**
   * The pass records the names of the mesh nodes in order, keeps the
   * number of meshes, and records at most one triangle count per mesh
   * node, appending to the counts it started from.
   */
  lemma {:induction false} GatherNames(step: Step, g0: Gather, nodes: seq<Node>, i: nat)
    requires i <= |nodes|
    requires forall g, node :: Appends(g, node, step(g, node))
    requires GatherAfter(step, g0, nodes, i).Ok?
    ensures var g := GatherAfter(step, g0, nodes, i).value;
            |g.meshes| == |g0.meshes| && g.meshesName == g0.meshesName + MeshNames(nodes[..i]) &&
            |g0.meshesLength| <= |g.meshesLength| <= |g0.meshesLength| + |MeshNames(nodes[..i])| &&
            g.meshesLength[..|g0.meshesLength|] == g0.meshesLength
    decreases i
  {
    if i > 0 {
      GatherNames(step, g0, nodes, i - 1);
      var p := GatherAfter(step, g0, nodes, i - 1).value;
      var node := nodes[i - 1];
      assert Appends(p, node, step(p, node));
      var g := step(p, node).value;
      assert nodes[..i][..i - 1] == nodes[..i - 1];
      assert MeshNames(nodes[..i]) == MeshNames(nodes[..i - 1]) + (if node.mesh != -1 then [node.name] else []);
      assert g.meshesLength[..|g0.meshesLength|] == g.meshesLength[..|p.meshesLength|][..|g0.meshesLength|];
    }
  }

  /**
   * The vertex count `nodesOffset` counts the whole vertices read: the
   * coordinates pushed are three per counted vertex, plus at most one
   * partial vertex per mesh node.
   */
  lemma {:induction false} GatherVertices(step: Step, g0: Gather, nodes: seq<Node>, i: nat)
    requires i <= |nodes|
    requires forall g, node :: Appends(g, node, step(g, node))
    requires GatherAfter(step, g0, nodes, i).Ok?
    ensures var g := GatherAfter(step, g0, nodes, i).value;
            g0.nodesOffset <= g.nodesOffset &&
            3 * (g.nodesOffset - g0.nodesOffset) <= |g.vV| - |g0.vV| <=
              3 * (g.nodesOffset - g0.nodesOffset) + 3 * |MeshNames(nodes[..i])|
    decreases i
  {
    if i > 0 {
      GatherVertices(step, g0, nodes, i - 1);
      var p := GatherAfter(step, g0, nodes, i - 1).value;
      var node := nodes[i - 1];
      assert Appends(p, node, step(p, node));
      assert nodes[..i][..i - 1] == nodes[..i - 1];
      assert MeshNames(nodes[..i]) == MeshNames(nodes[..i - 1]) + (if node.mesh != -1 then [node.name] else []);
    }
  }

  /**
   * The indices pushed are three per counted triangle, plus at most one
   * partial triangle per recorded count.
   */
  lemma {:induction false} GatherIndices(step: Step, g0: Gather, nodes: seq<Node>, i: nat)
    requires i <= |nodes|
    requires forall g, node :: Appends(g, node, step(g, node))
    requires GatherAfter(step, g0, nodes, i).Ok?
    ensures var g := GatherAfter(step, g0, nodes, i).value;
            |g0.meshesLength| <= |g.meshesLength| &&
            3 * (Total(g.meshesLength) - Total(g0.meshesLength)) <= |g.iV| - |g0.iV| <=
              3 * (Total(g.meshesLength) - Total(g0.meshesLength)) + 3 * (|g.meshesLength| - |g0.meshesLength|)
    decreases i
  {
    if i > 0 {
      GatherIndices(step, g0, nodes, i - 1);
      var p := GatherAfter(step, g0, nodes, i - 1).value;
      var node := nodes[i - 1];
      assert Appends(p, node, step(p, node));
      StepIndices(p, node, step(p, node));
    }
  }

  /** One node's step pushes three indices per triangle it counts, up to one partial triple per count. */
  lemma StepIndices(g: Gather, node: Node, r: Result<Gather>)
    requires Appends(g, node, r) && r.Ok?
    ensures |g.meshesLength| <= |r.value.meshesLength| <= |g.meshesLength| + 1
    ensures 3 * (Total(r.value.meshesLength) - Total(g.meshesLength)) <= |r.value.iV| - |g.iV| <=
              3 * (Total(r.value.meshesLength) - Total(g.meshesLength)) + 3 * (|r.value.meshesLength| - |g.meshesLength|)
  {
    var h := r.value;
    if |h.meshesLength| > |g.meshesLength| {
      assert h.meshesLength == g.meshesLength + [h.meshesLength[|g.meshesLength|]];
      TotalAppend(g.meshesLength, h.meshesLength[|g.meshesLength|]);
    } else {
      assert h.meshesLength == g.meshesLength;
    }
  }

  /** The pass over the nodes, one node at a time. */
  method LoadNodesData(num: Numerics, accessors: seq<Accessor>, views: seq<BufferView>, g0: Gather, nodes: seq<Node>)
    returns (r: Result<Gather>)
    ensures r == GatherAfter(NodeStep(num, accessors, views), g0, nodes, |nodes|)
  {
    var g := g0;
    var i := 0;
    while i < |nodes|
      invariant 0 <= i <= |nodes|
      invariant GatherAfter(NodeStep(num, accessors, views), g0, nodes, i) == Ok(g)
    {
      var step := LoadNodeData(num, accessors, views, g, nodes[i]);
      GatherNext(NodeStep(num, accessors, views), g0, nodes, i, g, step);
      if step.Err? {
        return step;
      }
      g := step.value;
      i := i + 1;
    }
    r := Ok(g);
  }

  // ---------------------------------------------------------------------
  // One buffer
  // ---------------------------------------------------------------------

  /** The stream opened on a uri: not good when no such file exists. */
  function OpenUri(files: map<string, seq<Byte>>, uri: string): (st: Stream)
    ensures (st.good <==> uri in files)
  {
    OpenStream(if uri in files then Some(files[uri]) else None)
  }

  /** What the pass over the nodes starts from for one buffer: the vertex count restarts at 0. */
  function StartOf(asset: Asset, files: map<string, seq<Byte>>, uri: string): (g: Gather)
    ensures g.nodesOffset == 0
  {
    Gather(asset.meshes, asset.iV, asset.vV, asset.vnV, asset.meshesLength, asset.meshesName, OpenUri(files, uri), 0)
  }

  /**
   * The data of one buffer. A buffer with bytes but no uri is refused.
   * Otherwise the file the uri names is opened and every node is passed
   * over; only the meshes (whose first primitive gains any missing
   * POSITION and NORMAL attribute) and the gathered vectors change.
   */
  function BufferData(num: Numerics, asset: Asset, buffer: Buffer, files: map<string, seq<Byte>>): (r: Result<Asset>)
    ensures buffer.uri == [] && buffer.byteLength > 0 ==> r == Err(Misformatted("buffers[i]", "is not empty but has no uri"))
    ensures r.Ok? ==> r.value == asset.(meshes := r.value.meshes, iV := r.value.iV, vV := r.value.vV, vnV := r.value.vnV,
                                        meshesLength := r.value.meshesLength, meshesName := r.value.meshesName)
  {
    if buffer.uri == [] && buffer.byteLength > 0 then Err(Misformatted("buffers[i]", "is not empty but has no uri"))
    else
      var g0 := StartOf(asset, files, buffer.uri);
      var g :- GatherAfter(NodeStep(num, asset.accessors, asset.bufferViews), g0, asset.nodes, |asset.nodes|);
      Ok(asset.(meshes := g.meshes, iV := g.iV, vV := g.vV, vnV := g.vnV,
                meshesLength := g.meshesLength, meshesName := g.meshesName))
  }

  /**
   * What reading one buffer's data does to the asset: it keeps the number
   * of meshes, records the names of the mesh nodes in order, only appends
   * to the index, vertex and normal lists, records at most one triangle
   * count per mesh node, and pushes at least three indices per triangle
   * counted.
   */
  lemma BufferDataAppends(num: Numerics, asset: Asset, buffer: Buffer, files: map<string, seq<Byte>>)
    ensures var r := BufferData(num, asset, buffer, files);
            r.Ok? ==>
              |r.value.meshes| == |asset.meshes| && r.value.meshesName == asset.meshesName + MeshNames(asset.nodes) &&
              |r.value.iV| >= |asset.iV| && r.value.iV[..|asset.iV|] == asset.iV &&
              |r.value.vV| >= |asset.vV| && r.value.vV[..|asset.vV|] == asset.vV &&
              |r.value.vnV| >= |asset.vnV| && r.value.vnV[..|asset.vnV|] == asset.vnV &&
              |asset.meshesLength| <= |r.value.meshesLength| <= |asset.meshesLength| + |MeshNames(asset.nodes)| &&
              3 * (Total(r.value.meshesLength) - Total(asset.meshesLength)) <= |r.value.iV| - |asset.iV|
  {
    var r := BufferData(num, asset, buffer, files);
    if r.Ok? {
      var g0 := StartOf(asset, files, buffer.uri);
      var step := NodeStep(num, asset.accessors, asset.bufferViews);
      NodeStepAppends(num, asset.accessors, asset.bufferViews);
      GatherNames(step, g0, asset.nodes, |asset.nodes|);
      GatherIndices(step, g0, asset.nodes, |asset.nodes|);
      GatherPrefixes(step, g0, asset.nodes, |asset.nodes|);
      assert asset.nodes[..|asset.nodes|] == asset.nodes;
    }
  }

  /**
   * Reaching a mesh node one of whose arrays would have a negative length
   * makes the whole buffer fail with `std::bad_array_new_length`.
   */
  lemma BufferDataRefusesNegativeCount(num: Numerics, asset: Asset, buffer: Buffer, files: map<string, seq<Byte>>,
                                       i: nat, g: Gather)
    requires !(buffer.uri == [] && buffer.byteLength > 0)
    requires i < |asset.nodes|
    requires GatherAfter(NodeStep(num, asset.accessors, asset.bufferViews), StartOf(asset, files, buffer.uri), asset.nodes, i) == Ok(g)
    requires asset.nodes[i].mesh != -1
    requires RefsOf(g, asset.accessors, asset.bufferViews, asset.nodes[i]).Ok?
    requires NegativeCount(asset.accessors, asset.bufferViews, RefsOf(g, asset.accessors, asset.bufferViews, asset.nodes[i]).value)
    ensures BufferData(num, asset, buffer, files).Err?
    ensures BufferData(num, asset, buffer, files).error.BadArrayLength?
  {
    var step := NodeStep(num, asset.accessors, asset.bufferViews);
    var r := NodeData(num, asset.accessors, asset.bufferViews, g, asset.nodes[i]);
    assert step(g, asset.nodes[i]) == r;
    GatherNext(step, StartOf(asset, files, buffer.uri), asset.nodes, i, g, r);
  }

  /** The pass only appends to the index, vertex and normal lists. */
  lemma {:induction false} GatherPrefixes(step: Step, g0: Gather, nodes: seq<Node>, i: nat)
    requires i <= |nodes|
    requires forall g, node :: Appends(g, node, step(g, node))
    requires GatherAfter(step, g0, nodes, i).Ok?
    ensures var g := GatherAfter(step, g0, nodes, i).value;
            |g.iV| >= |g0.iV| && g.iV[..|g0.iV|] == g0.iV &&
            |g.vV| >= |g0.vV| && g.vV[..|g0.vV|] == g0.vV &&
            |g.vnV| >= |g0.vnV| && g.vnV[..|g0.vnV|] == g0.vnV
    decreases i
  {
    if i > 0 {
      GatherPrefixes(step, g0, nodes, i - 1);
      var p := GatherAfter(step, g0, nodes, i - 1).value;
      assert Appends(p, nodes[i - 1], step(p, nodes[i - 1]));
      var g := GatherAfter(step, g0, nodes, i).value;
      assert g.iV[..|g0.iV|] == g.iV[..|p.iV|][..|g0.iV|];
      assert g.vV[..|g0.vV|] == g.vV[..|p.vV|][..|g0.vV|];
      assert g.vnV[..|g0.vnV|] == g.vnV[..|p.vnV|][..|g0.vnV|];
    }
  }

  /** One buffer's data, loaded with the pass over the nodes. */
  method LoadBufferData(num: Numerics, asset: Asset, buffer: Buffer, files: map<string, seq<Byte>>) returns (r: Result<Asset>)
    ensures r == BufferData(num, asset, buffer, files)
  {
    if buffer.uri == [] && buffer.byteLength > 0 {
      return Err(Misformatted("buffers[i]", "is not empty but has no uri"));
    }
    var gathered := LoadNodesData(num, asset.accessors, asset.bufferViews, StartOf(asset, files, buffer.uri), asset.nodes);
    if gathered.Err? {
      return Err(gathered.error);
    }
    var g := gathered.value;
    r := Ok(asset.(meshes := g.meshes, iV := g.iV, vV := g.vV, vnV := g.vnV,
                   meshesLength := g.meshesLength, meshesName := g.meshesName));
  }
}
