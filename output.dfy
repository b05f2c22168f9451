/**
 * The records that describe the new binary buffer, laid out in
 * occlusionCulling after the mesh loop, and the two passes as a whole:
 * occlusionCulling writes the kept triangles to sceneTest.bin and fills
 * the new records of the asset, outputCulledModel writes the culled
 * triangles to sceneTestCulled.bin.
 *
 * Both passes use the corrected mesh loop (MeshLayout.IntendedMeshes).
 */
module Output {
  import opened Errors
  import opened Ints
  import opened Triangles
  import opened GltfTypes
  import opened PostPass
  import opened MeshLayout

  // ---------------------------------------------------------------------
  // Buffer views
  // ---------------------------------------------------------------------

  const ARRAY_BUFFER := 34962
  const ELEMENT_ARRAY_BUFFER := 34963

  /**
   * newBufferViews resized to two and filled: the vertex floats at the
   * start of buffer 0, the indices right after them, both with a stride
   * of three 4-byte items.
   */
  function BufferViews(byteLengthVertex: int, byteLengthIndex: int): (views: seq<NewBufferView>)
    ensures |views| == 2
    ensures views[0].target == ARRAY_BUFFER && views[1].target == ELEMENT_ARRAY_BUFFER
    ensures views[0].buffer == 0 && views[1].buffer == 0 && views[0].name == "" && views[1].name == ""
    ensures views[0].byteStride == 12 && views[1].byteStride == 12
    ensures views[0].byteOffset == 0 && views[0].byteLength == byteLengthVertex
    ensures views[1].byteOffset == views[0].byteOffset + views[0].byteLength && views[1].byteLength == byteLengthIndex
  {
    [NewBufferView("", 0, 0, byteLengthVertex, 12, ARRAY_BUFFER),
     NewBufferView("", 0, byteLengthVertex, byteLengthIndex, 12, ELEMENT_ARRAY_BUFFER)]
  }

  /** The buffer-view statements of occlusionCulling; the buffer is exactly as long as the two views. */
  method LayoutBufferViews(byteLengthVertex: int, byteLengthIndex: int) returns (views: seq<NewBufferView>, bufferLength: int)
    ensures views == BufferViews(byteLengthVertex, byteLengthIndex)
    ensures bufferLength == views[1].byteOffset + views[1].byteLength
  {
    views := [DEFAULT_NEW_BUFFER_VIEW, DEFAULT_NEW_BUFFER_VIEW];
    views := views[0 := views[0].(target := ARRAY_BUFFER, buffer := 0, byteLength := byteLengthVertex, byteStride := 4 * 3)];
    views := views[1 := views[1].(target := ELEMENT_ARRAY_BUFFER, buffer := 0, byteOffset := views[0].byteLength)];
    views := views[1 := views[1].(byteLength := byteLengthIndex, byteStride := 4 * 3)];
    bufferLength := views[0].byteLength + views[1].byteLength;
  }

  // ---------------------------------------------------------------------
  // Accessors
  // ---------------------------------------------------------------------

  const UNSIGNED_INT := 5125
  const FLOAT := 5126

  /**
   * Accessor q belongs to the pair of emitted mesh j = q / 2: the even one
   * reads its indices from view 1, the odd one its vertex positions from
   * view 0, both three per triangle, each pair right after the one before.
   */
  function AccessorAt(counts: seq<int>, q: nat): NewAccessor
    requires q / 2 < |counts|
  {
    var j := q / 2;
    if q % 2 == 0 then NewAccessor("", 1, 12 * Total(counts[..j]), UNSIGNED_INT, 3 * counts[j])
    else NewAccessor("", 0, 36 * Total(counts[..j]), FLOAT, 3 * counts[j])
  }

  /**
   * newAccessors resized to n = IndicesAttrIndex and filled pair by pair
   * from newmeshesLength; both vector accesses are unchecked, so a pair
   * past newmeshesLength, or an odd n, is an error, and so is a negative n,
   * which the resize refuses.
   */
  function Accessors(counts: seq<int>, n: int): (r: Result<seq<NewAccessor>>)
    ensures r.Ok? <==> 0 <= n && n % 2 == 0 && n / 2 <= |counts|
    ensures r.Ok? ==> |r.value| == n
  {
    if n < 0 then Err(LengthError("newAccessors"))
    else if (n + 1) / 2 > |counts| then Err(OutOfRange("newmeshesLength[j]"))
    else if n % 2 == 1 then Err(OutOfRange("newAccessors[i + 1]"))
    else Ok(seq(n, q requires 0 <= q < n => AccessorAt(counts, q)))
  }

  /** The accessor loop of occlusionCulling. */
  method LayoutAccessors(counts: seq<int>, n: int) returns (r: Result<seq<NewAccessor>>)
    ensures r == Accessors(counts, n)
  {
    if n < 0 {
      return Err(LengthError("newAccessors"));
    }
    var accessors := seq(n, _ => DEFAULT_NEW_ACCESSOR);
    var byteOffset0, byteOffset1 := 0, 0;
    var i, j := 0, 0;
    while i < n
      invariant 0 <= i <= n && i == 2 * j && j <= |counts| && |accessors| == n
      invariant byteOffset0 == 12 * Total(counts[..j]) && byteOffset1 == 36 * Total(counts[..j])
      invariant forall q :: 0 <= q < i ==> accessors[q] == AccessorAt(counts, q)
      invariant forall q :: i <= q < n ==> accessors[q] == DEFAULT_NEW_ACCESSOR
    {
      if !(j < |counts|) {
        assert (n + 1) / 2 > |counts|;
        return Err(OutOfRange("newmeshesLength[j]"));
      }
      PairAt(counts, j);
      ghost var before := accessors;
      accessors := accessors[i := accessors[i].(bufferView := 1, byteOffset := byteOffset0, count := counts[j] * 3,
                                                componentType := UNSIGNED_INT)];
      byteOffset0 := byteOffset0 + accessors[i].count * 4;
      if !(i + 1 < n) {
        assert n == 2 * j + 1 && (n + 1) / 2 == j + 1;
        return Err(OutOfRange("newAccessors[i + 1]"));
      }
      accessors := accessors[i + 1 := accessors[i + 1].(bufferView := 0, byteOffset := byteOffset1, componentType := FLOAT,
                                                        count := counts[j] * 3)];
      byteOffset1 := byteOffset1 + accessors[i + 1].count * 12;
      assert accessors == before[i := AccessorAt(counts, i)][i + 1 := AccessorAt(counts, i + 1)];
      PairWritten(counts, before, accessors, i, n);
      assert counts[..j + 1] == counts[..j] + [counts[j]];
      TotalAppend(counts[..j], counts[j]);
      i, j := i + 2, j + 1;
    }
    assert accessors == seq(n, q requires 0 <= q < n => AccessorAt(counts, q));
    r := Ok(accessors);
  }

  /** Writing pair i / 2 over the defaults extends the accessors filled so far by one pair. */
  lemma PairWritten(counts: seq<int>, before: seq<NewAccessor>, after: seq<NewAccessor>, i: nat, n: int)
    requires i % 2 == 0 && i / 2 < |counts| && i + 1 < n == |before|
    requires forall q :: 0 <= q < i ==> before[q] == AccessorAt(counts, q)
    requires forall q :: i <= q < n ==> before[q] == DEFAULT_NEW_ACCESSOR
    requires after == before[i := AccessorAt(counts, i)][i + 1 := AccessorAt(counts, i + 1)]
    ensures |after| == n
    ensures forall q :: 0 <= q < i + 2 ==> after[q] == AccessorAt(counts, q)
    ensures forall q :: i + 2 <= q < n ==> after[q] == DEFAULT_NEW_ACCESSOR
  {
  }

  /** Pair j of the accessors: the defaults with view, offset, count and component type set. */
  lemma PairAt(counts: seq<int>, j: nat)
    requires j < |counts|
    ensures AccessorAt(counts, 2 * j) ==
            DEFAULT_NEW_ACCESSOR.(bufferView := 1, byteOffset := 12 * Total(counts[..j]), count := counts[j] * 3,
                                  componentType := UNSIGNED_INT)
    ensures AccessorAt(counts, 2 * j + 1) ==
            DEFAULT_NEW_ACCESSOR.(bufferView := 0, byteOffset := 36 * Total(counts[..j]), componentType := FLOAT,
                                  count := counts[j] * 3)
  {
    assert (2 * j) / 2 == j && (2 * j + 1) / 2 == j && (2 * j) % 2 == 0 && (2 * j + 1) % 2 == 1;
  }

  /**
   * The accessors of n / 2 pairs: every index accessor reads unsigned
   * ints from view 1 and every vertex accessor floats from view 0, each
   * three per triangle of its mesh.
   */
  lemma AccessorsKinds(counts: seq<int>, n: int)
    requires Accessors(counts, n).Ok?
    ensures var a := Accessors(counts, n).value;
            0 <= n == |a| && n % 2 == 0 && n / 2 <= |counts| &&
            forall q :: 0 <= q < n ==>
              a[q].bufferView == (if q % 2 == 0 then 1 else 0) &&
              a[q].componentType == (if q % 2 == 0 then UNSIGNED_INT else FLOAT) &&
              a[q].count == 3 * counts[q / 2]
  {
  }

  /**
   * The accessors are packed: the first two start at offset 0, each starts
   * where the one two places before it ends (4 bytes per index, 12 per
   * vertex), and the last two end after 12 and 36 bytes per triangle
   * counted.
   */
  lemma AccessorsTile(counts: seq<int>, n: int)
    requires Accessors(counts, n).Ok?
    ensures var a := Accessors(counts, n).value;
            (0 < n ==> a[0].byteOffset == 0 && a[1].byteOffset == 0) &&
            (forall q :: 0 <= q < n - 2 ==>
               a[q + 2].byteOffset == a[q].byteOffset + (if q % 2 == 0 then 4 else 12) * a[q].count) &&
            (0 < n ==> a[n - 2].byteOffset + 4 * a[n - 2].count == 12 * Total(counts[..n / 2]) &&
                       a[n - 1].byteOffset + 12 * a[n - 1].count == 36 * Total(counts[..n / 2]))
  {
    var a := Accessors(counts, n).value;
    forall q | 0 <= q < n - 2
      ensures a[q + 2].byteOffset == a[q].byteOffset + (if q % 2 == 0 then 4 else 12) * a[q].count
    {
      AccessorsStep(counts, n, q);
    }
    if 0 < n {
      AccessorsLast(counts, n);
    }
  }

  /** Accessor q + 2 starts where accessor q ends. */
  lemma AccessorsStep(counts: seq<int>, n: int, q: nat)
    requires Accessors(counts, n).Ok? && q + 2 < n
    ensures var a := Accessors(counts, n).value;
            a[q + 2].byteOffset == a[q].byteOffset + (if q % 2 == 0 then 4 else 12) * a[q].count
  {
    AccessorsNext(counts, n, q);
    assert (q + 2) / 2 == q / 2 + 1 && (q + 2) % 2 == q % 2;
  }

  /** The last pair ends after 12 and 36 bytes per triangle counted. */
  lemma AccessorsLast(counts: seq<int>, n: int)
    requires Accessors(counts, n).Ok? && 0 < n
    ensures var a := Accessors(counts, n).value;
            a[n - 2].byteOffset + 4 * a[n - 2].count == 12 * Total(counts[..n / 2]) &&
            a[n - 1].byteOffset + 12 * a[n - 1].count == 36 * Total(counts[..n / 2])
  {
    AccessorsNext(counts, n, n - 2);
    AccessorsNext(counts, n, n - 1);
    assert (n - 2) / 2 + 1 == n / 2 && (n - 1) / 2 + 1 == n / 2 && (n - 2) % 2 == 0 && (n - 1) % 2 == 1;
  }

  /** Accessor q ends where the pair after it starts. */
  lemma AccessorsNext(counts: seq<int>, n: int, q: nat)
    requires Accessors(counts, n).Ok? && q < n
    ensures var a := Accessors(counts, n).value;
            a[q].byteOffset + (if q % 2 == 0 then 4 else 12) * a[q].count ==
            (if q % 2 == 0 then 12 else 36) * Total(counts[..q / 2 + 1])
  {
    var j := q / 2;
    assert counts[..j + 1] == counts[..j] + [counts[j]];
    TotalAppend(counts[..j], counts[j]);
  }

  // ---------------------------------------------------------------------
  // The two passes
  // ---------------------------------------------------------------------

  /** What the passes leave: the asset with its new records, and the contents of the two files. */
  datatype Passes = Passes(asset: Asset, keptFile: seq<Word>, culledFile: seq<Word>)

  /** The new records of an asset as the loader leaves them: empty. */
  predicate Fresh(asset: Asset) {
    asset.newMeshes == [] && asset.newmeshesLength == [] && asset.newAccessors == [] && asset.newBufferViews == []
  }

  /** sceneTestCulled.bin: the vertices of the culled triangles, then their index runs. */
  function CulledFile(asset: Asset, tris: seq<Triangle>, positions: seq<Vec3>): Result<seq<Word>>
    requires InRange(tris, |positions|)
  {
    var culled :- IntendedMeshes(asset.meshesLength, asset.meshesName, true, tris);
    Ok(VertexWords(tris, positions, true) + culled.out)
  }

  /**
   * occlusionCulling after rendering: sceneTest.bin holds the vertices of
   * the kept triangles and then their index runs; the asset gets the new
   * meshes, their triangle counts, the two buffer views, the buffer length
   * and the accessors; then outputCulledModel writes the culled file.
   */
  function Culling(asset: Asset, tris: seq<Triangle>, positions: seq<Vec3>): Result<Passes>
    requires Fresh(asset) && InRange(tris, |positions|)
  {
    var kept :- IntendedMeshes(asset.meshesLength, asset.meshesName, false, tris);
    var byteLengthVertex := 36 * Count(tris, false);
    var views := BufferViews(byteLengthVertex, kept.byteLengthIndex);
    var accessors :- Accessors(kept.newmeshesLength, kept.attrIndex);
    var culledFile :- CulledFile(asset, tris, positions);
    Ok(Passes(asset.(newMeshes := kept.newMeshes, newmeshesLength := kept.newmeshesLength, newBufferViews := views,
                     newBufferLength := byteLengthVertex + kept.byteLengthIndex, newAccessors := accessors),
              VertexWords(tris, positions, false) + kept.out, culledFile))
  }

  /** outputCulledModel: the two loops with the selection inverted; the asset is only read. */
  method OutputCulledModel(asset: Asset, tris: seq<Triangle>, positions: seq<Vec3>) returns (r: Result<seq<Word>>)
    requires InRange(tris, |positions|)
    ensures r == CulledFile(asset, tris, positions)
  {
    var vertices, byteLengthVertexCulled := WriteVertices(tris, positions, true);
    var culled := LayoutMeshesIntended(asset.meshesLength, asset.meshesName, true, tris);
    if culled.Err? {
      return Err(culled.error);
    }
    r := Ok(vertices + culled.value.out);
  }

  /** occlusionCulling from the first loop on. */
  method OcclusionCulling(asset: Asset, tris: seq<Triangle>, positions: seq<Vec3>) returns (r: Result<Passes>)
    requires Fresh(asset) && InRange(tris, |positions|)
    ensures r == Culling(asset, tris, positions)
  {
    var vertices, byteLengthVertex := WriteVertices(tris, positions, false);
    var kept := LayoutMeshesIntended(asset.meshesLength, asset.meshesName, false, tris);
    if kept.Err? {
      assert Culling(asset, tris, positions) == Err(kept.error);
      return Err(kept.error);
    }
    var k := kept.value;
    var views, bufferLength := LayoutBufferViews(byteLengthVertex, k.byteLengthIndex);
    var accessors := LayoutAccessors(k.newmeshesLength, k.attrIndex);
    if accessors.Err? {
      assert Culling(asset, tris, positions) == Err(accessors.error);
      return Err(accessors.error);
    }
    var culledFile := OutputCulledModel(asset, tris, positions);
    if culledFile.Err? {
      assert Culling(asset, tris, positions) == Err(culledFile.error);
      return Err(culledFile.error);
    }
    var a := asset.(newMeshes := k.newMeshes, newmeshesLength := k.newmeshesLength,
                    newBufferViews := views, newBufferLength := bufferLength, newAccessors := accessors.value);
    r := Ok(Passes(a, vertices + k.out, culledFile.value));
    assert Culling(asset, tris, positions) == r;
  }

  // ---------------------------------------------------------------------
  // What the passes promise
  // ---------------------------------------------------------------------

  /** The indices of run m: 0 .. 3 counts[m] - 1, right after the runs before it. */
  lemma {:induction false} RunsAt(counts: seq<int>, m: nat)
    requires m < |counts| && forall q :: 0 <= q < |counts| ==> counts[q] >= 0
    ensures 0 <= Total(counts[..m]) && Total(counts[..m + 1]) == Total(counts[..m]) + counts[m]
    ensures 3 * Total(counts[..m + 1]) <= |Runs(counts)|
    ensures Runs(counts)[3 * Total(counts[..m])..3 * Total(counts[..m]) + 3 * counts[m]] == Ascending(3 * counts[m])
    decreases |counts|
  {
    assert counts[..m + 1] == counts[..m] + [counts[m]];
    TotalAppend(counts[..m], counts[m]);
    TotalNonNegative(counts[..m]);
    var front := counts[..|counts| - 1];
    RunsLength(front);
    if m == |counts| - 1 {
      assert counts[..m] == front;
    } else {
      RunsAt(front, m);
      assert front[..m] == counts[..m] && front[..m + 1] == counts[..m + 1];
      assert Runs(counts)[..|Runs(front)|] == Runs(front);
    }
  }

  /**
   * The results of the passes on a well-sized scene, in terms of the
   * meshes with kept (runs) and culled (culledRuns) triangles.
   */
  predicate Expected(asset: Asset, tris: seq<Triangle>, positions: seq<Vec3>, o: Passes)
    requires InRange(tris, |positions|) && WellSized(asset.meshesLength, asset.meshesName, tris)
  {
    var runs := KeptRuns(asset, tris);
    var culledRuns := SelectedMeshes(asset.meshesLength, tris, true, |asset.meshesLength|);
    o.keptFile == VertexWords(tris, positions, false) + Runs(Counts(runs)) &&
    o.culledFile == VertexWords(tris, positions, true) + Runs(Counts(culledRuns)) &&
    Total(Counts(runs)) == Count(tris, false) && Total(Counts(culledRuns)) == Count(tris, true) &&
    o.asset.newmeshesLength == Counts(runs) &&
    o.asset.newMeshes == NewMeshesFrom(asset.meshesName, runs, |asset.meshesLength|, false, true) &&
    o.asset.newBufferViews == BufferViews(36 * Count(tris, false), 12 * Count(tris, false)) &&
    o.asset.newBufferLength == 48 * Count(tris, false) &&
    Accessors(Counts(runs), 2 * |runs|) == Ok(o.asset.newAccessors)
  }

  /** The two passes succeed on a well-sized scene, with the Expected results. */
  lemma CullingValue(asset: Asset, tris: seq<Triangle>, positions: seq<Vec3>)
    requires Fresh(asset) && InRange(tris, |positions|) && WellSized(asset.meshesLength, asset.meshesName, tris)
    ensures Culling(asset, tris, positions).Ok?
    ensures Expected(asset, tris, positions, Culling(asset, tris, positions).value)
  {
    IntendedMeshesCorrect(asset.meshesLength, asset.meshesName, false, tris);
    IntendedMeshesCorrect(asset.meshesLength, asset.meshesName, true, tris);
    var kept := IntendedMeshes(asset.meshesLength, asset.meshesName, false, tris).value;
    AllPairsOk(kept.newmeshesLength);
    assert Accessors(kept.newmeshesLength, kept.attrIndex).Ok?;
    assert CulledFile(asset, tris, positions).Ok?;
  }

  /** One accessor pair per count is always within newmeshesLength. */
  lemma AllPairsOk(counts: seq<int>)
    ensures Accessors(counts, 2 * |counts|).Ok?
  {
    assert (2 * |counts| + 1) / 2 == |counts| && (2 * |counts|) % 2 == 0;
  }

  /**
   * The files and the buffer: nine floats and three indices per triangle
   * of each file, every triangle in exactly one of them, and the buffer
   * length and the two views are the byte size of sceneTest.bin, the
   * vertex floats first and the indices after them.
   */
  lemma CullingFiles(asset: Asset, tris: seq<Triangle>, positions: seq<Vec3>, o: Passes)
    requires InRange(tris, |positions|) && WellSized(asset.meshesLength, asset.meshesName, tris)
    requires Expected(asset, tris, positions, o)
    ensures var views := o.asset.newBufferViews;
            |o.keptFile| == 12 * Count(tris, false) && |o.culledFile| == 12 * Count(tris, true) &&
            |o.keptFile| + |o.culledFile| == 12 * |tris| &&
            o.asset.newBufferLength == 4 * |o.keptFile| &&
            |views| == 2 && views[0].byteOffset == 0 &&
            views[0].byteLength == 4 * |VertexWords(tris, positions, false)| &&
            views[1].byteOffset == views[0].byteLength &&
            views[1].byteOffset + views[1].byteLength == o.asset.newBufferLength
  {
    var runs := KeptRuns(asset, tris);
    var culledRuns := SelectedMeshes(asset.meshesLength, tris, true, |asset.meshesLength|);
    RunsLength(Counts(runs));
    RunsLength(Counts(culledRuns));
    CountsPartition(tris);
  }

  /**
   * The new meshes: one per mesh with a kept triangle, in order, named
   * after that mesh and pointing at accessor pair 2m, 2m + 1; their
   * triangle counts add up to the kept triangles; and the accessor pairs
   * fill the two views exactly.
   */
  lemma CullingMeshes(asset: Asset, tris: seq<Triangle>, positions: seq<Vec3>, o: Passes)
    requires InRange(tris, |positions|) && WellSized(asset.meshesLength, asset.meshesName, tris)
    requires Expected(asset, tris, positions, o)
    ensures |o.asset.newmeshesLength| == |KeptRuns(asset, tris)| && Total(o.asset.newmeshesLength) == Count(tris, false)
    ensures |o.asset.newMeshes| == |asset.meshesLength| && |o.asset.newAccessors| == 2 * |KeptRuns(asset, tris)|
    ensures |o.asset.newBufferViews| == 2
    ensures forall m :: 0 <= m < |KeptRuns(asset, tris)| ==>
              o.asset.newmeshesLength[m] == KeptRuns(asset, tris)[m].count &&
              o.asset.newMeshes[m] == Emitted(DEFAULT_NEW_MESH, asset.meshesName[KeptRuns(asset, tris)[m].mesh], 2 * m)
    ensures 0 < |KeptRuns(asset, tris)| ==>
              LastPairEnd(o.asset.newAccessors, 0) == o.asset.newBufferViews[1].byteLength &&
              LastPairEnd(o.asset.newAccessors, 1) == o.asset.newBufferViews[0].byteLength
  {
    MeshRecords(asset.meshesName, KeptRuns(asset, tris), |asset.meshesLength|, Count(tris, false), o.asset);
  }

  /** The runs of the kept pass: the meshes with a kept triangle, each with its count. */
  function KeptRuns(asset: Asset, tris: seq<Triangle>): (runs: seq<Run>)
    requires WellSized(asset.meshesLength, asset.meshesName, tris)
    ensures |runs| <= |asset.meshesLength| <= |asset.meshesName|
    ensures forall m :: 0 <= m < |runs| ==> 0 <= runs[m].mesh < |asset.meshesLength| && runs[m].count >= 1
  {
    SelectedMeshes(asset.meshesLength, tris, false, |asset.meshesLength|)
  }

  /** Where the last index (k = 0) or vertex (k = 1) accessor ends, in bytes from the start of its view. */
  function LastPairEnd(a: seq<NewAccessor>, k: nat): int
    requires 2 <= |a| && k < 2
  {
    if k == 0 then a[|a| - 2].byteOffset + 4 * a[|a| - 2].count
    else a[|a| - 1].byteOffset + 12 * a[|a| - 1].count
  }

  /** The new records of an asset laid out from the runs of a pass that writes `total` triangles. */
  lemma MeshRecords(names: seq<string>, runs: seq<Run>, n: nat, total: int, a: Asset)
    requires |runs| <= n && |runs| <= |names| && forall m :: 0 <= m < |runs| ==> 0 <= runs[m].mesh < |names|
    requires a.newmeshesLength == Counts(runs) && Total(Counts(runs)) == total
    requires a.newMeshes == NewMeshesFrom(names, runs, n, false, true)
    requires a.newBufferViews == BufferViews(36 * total, 12 * total)
    requires Accessors(Counts(runs), 2 * |runs|) == Ok(a.newAccessors)
    ensures |a.newmeshesLength| == |runs| && Total(a.newmeshesLength) == total
    ensures |a.newMeshes| == n && |a.newAccessors| == 2 * |runs| && |a.newBufferViews| == 2
    ensures forall m :: 0 <= m < |runs| ==>
              a.newmeshesLength[m] == runs[m].count &&
              a.newMeshes[m] == Emitted(DEFAULT_NEW_MESH, names[runs[m].mesh], 2 * m)
    ensures 0 < |runs| ==>
              LastPairEnd(a.newAccessors, 0) == a.newBufferViews[1].byteLength &&
              LastPairEnd(a.newAccessors, 1) == a.newBufferViews[0].byteLength
  {
    PairsEnd(Counts(runs), a.newAccessors);
  }

  /** All pairs of accessors of the given counts: the last pair ends after 12 and 36 bytes per triangle. */
  lemma PairsEnd(counts: seq<int>, a: seq<NewAccessor>)
    requires Accessors(counts, 2 * |counts|) == Ok(a)
    ensures |a| == 2 * |counts|
    ensures 0 < |counts| ==> LastPairEnd(a, 0) == 12 * Total(counts) && LastPairEnd(a, 1) == 36 * Total(counts)
  {
    if 0 < |counts| {
      var j := |counts| - 1;
      PairNext(counts, a, j);
      assert counts[..j + 1] == counts;
      LastPairAt(a, j);
    }
  }

  /** The last pair of 2 * j + 2 accessors is pair j. */
  lemma LastPairAt(a: seq<NewAccessor>, j: nat)
    requires |a| == 2 * j + 2
    ensures LastPairEnd(a, 0) == a[2 * j].byteOffset + 4 * a[2 * j].count
    ensures LastPairEnd(a, 1) == a[2 * j + 1].byteOffset + 12 * a[2 * j + 1].count
  {
  }

  /** Pair j ends where pair j + 1 starts: 12 bytes of indices and 36 of vertices per triangle. */
  lemma PairNext(counts: seq<int>, a: seq<NewAccessor>, j: nat)
    requires Accessors(counts, 2 * |counts|) == Ok(a) && j < |counts|
    ensures 2 * j + 1 < |a|
    ensures a[2 * j].byteOffset + 4 * a[2 * j].count == 12 * Total(counts[..j + 1])
    ensures a[2 * j + 1].byteOffset + 12 * a[2 * j + 1].count == 36 * Total(counts[..j + 1])
  {
    assert (2 * j) / 2 == j && (2 * j + 1) / 2 == j && (2 * j) % 2 == 0 && (2 * j + 1) % 2 == 1;
    assert counts[..j + 1] == counts[..j] + [counts[j]];
    TotalAppend(counts[..j], counts[j]);
  }

  /**
   * Resolving the index accessor of new mesh m through view 1 gives the
   * indices 0, 1, ..., count - 1, each a vertex of the mesh's own POSITION
   * accessor.
   */
  lemma CullingIndices(asset: Asset, tris: seq<Triangle>, positions: seq<Vec3>, o: Passes, m: nat)
    requires InRange(tris, |positions|) && WellSized(asset.meshesLength, asset.meshesName, tris)
    requires Expected(asset, tris, positions, o)
    requires m < |KeptRuns(asset, tris)|
    ensures 2 * m + 1 < |o.asset.newAccessors| && |o.asset.newBufferViews| == 2
    ensures o.asset.newAccessors[2 * m].bufferView == 1 && o.asset.newAccessors[2 * m + 1].bufferView == 0
    ensures o.asset.newAccessors[2 * m + 1].count == o.asset.newAccessors[2 * m].count
    ensures o.asset.newBufferViews[1].byteOffset + o.asset.newAccessors[2 * m].byteOffset == 4 * WordOffset(asset, tris, positions, m)
    ensures AscendingAt(o.keptFile, WordOffset(asset, tris, positions, m), o.asset.newAccessors[2 * m].count)
  {
    var v := VertexWords(tris, positions, false);
    var counts := Counts(KeptRuns(asset, tris));
    KeptLayout(asset, tris, positions, o);
    IndexThroughView(v, counts, o.asset.newAccessors, o.asset.newBufferViews, o.keptFile, m, WordOffset(asset, tris, positions, m));
  }

  /** The kept pass's file and records, in the terms of the index layout. */
  lemma KeptLayout(asset: Asset, tris: seq<Triangle>, positions: seq<Vec3>, o: Passes)
    requires InRange(tris, |positions|) && WellSized(asset.meshesLength, asset.meshesName, tris)
    requires Expected(asset, tris, positions, o)
    ensures var v, counts := VertexWords(tris, positions, false), Counts(KeptRuns(asset, tris));
            (forall q :: 0 <= q < |counts| ==> counts[q] >= 0) &&
            o.keptFile == v + Runs(counts) && Accessors(counts, 2 * |counts|) == Ok(o.asset.newAccessors) &&
            |o.asset.newBufferViews| == 2 && o.asset.newBufferViews[1].byteOffset == 4 * |v|
  {
    var runs := KeptRuns(asset, tris);
    var counts := Counts(runs);
    forall q | 0 <= q < |counts| ensures counts[q] >= 0 {
      assert counts[q] == runs[q].count >= 1;
    }
  }

  /** Where the indices of new mesh m start in sceneTest.bin, in 4-byte words: after the vertices and the earlier runs. */
  function WordOffset(asset: Asset, tris: seq<Triangle>, positions: seq<Vec3>, m: nat): int
    requires InRange(tris, |positions|) && WellSized(asset.meshesLength, asset.meshesName, tris)
    requires m < |KeptRuns(asset, tris)|
  {
    |VertexWords(tris, positions, false)| + 3 * Total(Counts(KeptRuns(asset, tris))[..m])
  }

  /**
   * The index accessor of pair m, resolved through a view that starts
   * right after the words v, covers its run of the index data.
   */
  lemma IndexThroughView(v: seq<Word>, counts: seq<int>, a: seq<NewAccessor>, views: seq<NewBufferView>, file: seq<Word>, m: nat, w: int)
    requires forall q :: 0 <= q < |counts| ==> counts[q] >= 0
    requires Accessors(counts, 2 * |counts|) == Ok(a) && file == v + Runs(counts) && m < |counts|
    requires |views| == 2 && views[1].byteOffset == 4 * |v|
    requires w == |v| + 3 * Total(counts[..m])
    ensures 2 * m + 1 < |a| && a[2 * m].bufferView == 1 && a[2 * m + 1].bufferView == 0
    ensures a[2 * m + 1].count == a[2 * m].count
    ensures views[1].byteOffset + a[2 * m].byteOffset == 4 * w
    ensures AscendingAt(file, w, a[2 * m].count)
  {
    IndexRun(v, counts, a, file, m);
  }

  /** Words w .. w + c - 1 of the file exist and hold the indices 0, 1, ..., c - 1. */
  predicate AscendingAt(file: seq<Word>, w: int, c: int) {
    0 <= w && 0 <= c && w + c <= |file| && file[w..w + c] == Ascending(c)
  }

  /**
   * In a file of words v followed by the index runs of the given counts,
   * the index accessor of pair m, read from byte 4 |v| on, sees the
   * indices 0 .. 3 counts[m] - 1.
   */
  lemma IndexRun(v: seq<Word>, counts: seq<int>, a: seq<NewAccessor>, file: seq<Word>, m: nat)
    requires forall q :: 0 <= q < |counts| ==> counts[q] >= 0
    requires Accessors(counts, 2 * |counts|) == Ok(a) && file == v + Runs(counts) && m < |counts|
    ensures 2 * m + 1 < |a| && a[2 * m].bufferView == 1 && a[2 * m + 1].bufferView == 0
    ensures a[2 * m + 1].count == a[2 * m].count == 3 * counts[m]
    ensures a[2 * m].byteOffset == 12 * Total(counts[..m]) >= 0
    ensures |v| + 3 * Total(counts[..m]) + a[2 * m].count <= |file|
    ensures file[|v| + 3 * Total(counts[..m])..|v| + 3 * Total(counts[..m]) + 3 * counts[m]] == Ascending(3 * counts[m])
  {
    AccessorPair(counts, a, m);
    RunAfter(v, counts, m);
  }

  /** Pair m of the accessors: the indices from view 1 and the positions from view 0, after the runs before it. */
  lemma AccessorPair(counts: seq<int>, a: seq<NewAccessor>, m: nat)
    requires Accessors(counts, 2 * |counts|) == Ok(a) && m < |counts|
    ensures 2 * m + 1 < |a| && a[2 * m].bufferView == 1 && a[2 * m + 1].bufferView == 0
    ensures a[2 * m + 1].count == a[2 * m].count == 3 * counts[m]
    ensures a[2 * m].byteOffset == 12 * Total(counts[..m])
  {
    assert (2 * m) / 2 == m && (2 * m + 1) / 2 == m && (2 * m) % 2 == 0;
  }

  /** Run m of the index data, in a file that starts with the words v. */
  lemma RunAfter(v: seq<Word>, counts: seq<int>, m: nat)
    requires forall q :: 0 <= q < |counts| ==> counts[q] >= 0
    requires m < |counts|
    ensures 0 <= Total(counts[..m]) && |v| + 3 * Total(counts[..m]) + 3 * counts[m] <= |v + Runs(counts)|
    ensures (v + Runs(counts))[|v| + 3 * Total(counts[..m])..|v| + 3 * Total(counts[..m]) + 3 * counts[m]] ==
            Ascending(3 * counts[m])
  {
    var lo, len, w := 3 * Total(counts[..m]), 3 * counts[m], Runs(counts);
    RunsAt(counts, m);
    assert 0 <= lo && lo + len <= |w| && w[lo..lo + len] == Ascending(len);
    SliceAfter(v, w, lo, len);
  }

  /** The words of w, read after a prefix v. */
  lemma SliceAfter<T>(v: seq<T>, w: seq<T>, lo: int, len: int)
    requires 0 <= lo && 0 <= len && lo + len <= |w|
    ensures (v + w)[|v| + lo..|v| + lo + len] == w[lo..lo + len]
  {
  }
}
