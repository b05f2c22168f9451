/**
 * The second loop of a pass in main.cpp: it walks the triangles once
 * more, cuts them into the meshes of meshesLength, and for every mesh
 * that has a selected triangle records its triangle count
 * (newmeshesLength), names it, gives it an indices and a POSITION
 * accessor, and writes its indices as a run that starts from 0.
 *
 * The loop's variables are the fields of a Layout; one iteration is the
 * function Step, and the loop as a whole the fold LayoutAfter.
 */
module MeshLayout {
  import opened Errors
  import opened Ints
  import opened Triangles
  import opened GltfTypes
  import opened PostPass

  // ---------------------------------------------------------------------
  // Index runs
  // ---------------------------------------------------------------------

  /** The indices 0, 1, ..., n - 1 (none when n <= 0). */
  function Ascending(n: int): (w: seq<Word>)
    ensures |w| == if n < 0 then 0 else n
    ensures forall q :: 0 <= q < |w| ==> w[q] == IndexWord(q)
  {
    seq(if n < 0 then 0 else n, q => IndexWord(q))
  }

  /** The index data of meshes with the given triangle counts: three indices per triangle, each mesh from 0. */
  function Runs(counts: seq<int>): seq<Word> {
    if counts == [] then [] else Runs(counts[..|counts| - 1]) + Ascending(3 * counts[|counts| - 1])
  }

  lemma RunsAppend(counts: seq<int>, c: int)
    ensures Runs(counts + [c]) == Runs(counts) + Ascending(3 * c)
  {
    assert (counts + [c])[..|counts|] == counts;
  }

  lemma {:induction false} RunsLength(counts: seq<int>)
    requires forall m :: 0 <= m < |counts| ==> counts[m] >= 0
    ensures |Runs(counts)| == 3 * Total(counts)
    decreases |counts|
  {
    if counts != [] {
      RunsLength(counts[..|counts| - 1]);
    }
  }

  /** Writing k, k + 1, k + 2 after the run 0 .. k - 1 extends the run. */
  lemma AscendingNext(k: nat)
    ensures Ascending(k) + [IndexWord(k), IndexWord(k + 1), IndexWord(k + 2)] == Ascending(k + 3)
  {
  }

  // ---------------------------------------------------------------------
  // The loop
  // ---------------------------------------------------------------------

  /** The variables of the mesh loop, and the asset vectors it fills. */
  datatype Layout = Layout(
    j: int,                      // the entry of meshesLength being filled
    k: int,                      // the next index to write
    trianglesN: int,             // triangles seen of mesh j
    meshesIndex: int,            // meshes closed so far (with a selected triangle)
    attrIndex: int,              // IndicesAttrIndex: the next accessor
    flag: bool,                  // FLAG: a mesh was closed in this iteration
    newMeshesNum: int,           // selected triangles of the open mesh
    newMeshes: seq<NewMesh>,
    newmeshesLength: seq<int>,
    out: seq<Word>,              // the indices written to the file
    byteLengthIndex: int)

  /**
   * The state before the loop. The new meshes are resized to one per entry
   * of meshesLength; the vector is empty before, so they are all defaults.
   */
  function StartLayout(meshesLength: seq<int>): (s: Layout)
    ensures |s.newMeshes| == |meshesLength|
  {
    Layout(0, 0, 0, 0, 0, false, 0, seq(|meshesLength|, _ => DEFAULT_NEW_MESH), [], [], 0)
  }

  /**
   * A mesh of the new file: its primitives are resized to one, and that
   * primitive gets accessor `attr` for its indices and `attr + 1` for its
   * POSITION attribute.
   */
  function Emitted(m: NewMesh, name: string, attr: int): (e: NewMesh)
    ensures e.name == name && |e.primitives| == 1
    ensures e.primitives[0].indices == attr
    ensures "POSITION" in e.primitives[0].attributes && e.primitives[0].attributes["POSITION"] == attr + 1
  {
    var p := if m.primitives == [] then DEFAULT_PRIMITIVE else m.primitives[0];
    NewMesh(name, [p.(indices := attr, attributes := p.attributes["POSITION" := attr + 1])])
  }

  /**
   * Naming and filling newMeshes[meshesIndex] with the entry `nameIndex`
   * of meshesName; both are unchecked vector accesses.
   */
  function EmitMesh(names: seq<string>, s: Layout, nameIndex: int): (r: Result<Layout>)
    ensures !(0 <= nameIndex < |names|) ==> r == Err(OutOfRange("meshesName[meshesIndex]"))
    ensures 0 <= nameIndex < |names| && !(0 <= s.meshesIndex < |s.newMeshes|) ==>
              r == Err(OutOfRange("newMeshes[meshesIndex]"))
    ensures r.Ok? ==> r.value == s.(newMeshes := s.newMeshes[s.meshesIndex := Emitted(s.newMeshes[s.meshesIndex], names[nameIndex], s.attrIndex)],
                                    attrIndex := s.attrIndex + 2)
  {
    if !(0 <= nameIndex < |names|) then Err(OutOfRange("meshesName[meshesIndex]"))
    else if !(0 <= s.meshesIndex < |s.newMeshes|) then Err(OutOfRange("newMeshes[meshesIndex]"))
    else
      Ok(s.(newMeshes := s.newMeshes[s.meshesIndex := Emitted(s.newMeshes[s.meshesIndex], names[nameIndex], s.attrIndex)],
            attrIndex := s.attrIndex + 2))
  }

  /**
   * The head of an iteration: when mesh j is full (or this is the last
   * triangle) a mesh with selected triangles is emitted and, unless this
   * is the last triangle, the next mesh is opened with k back at 0; a mesh
   * without selected triangles is passed over. The culled pass emits
   * nothing. `byMesh` names the emitted mesh after mesh j instead of
   * after the count of meshes emitted so far.
   */
  function Close(meshesLength: seq<int>, names: seq<string>, culled: bool, s: Layout, last: bool, byMesh: bool): Result<Layout>
    requires 0 <= s.j < |meshesLength|
  {
    if s.trianglesN == meshesLength[s.j] || last then
      if s.newMeshesNum != 0 then
        var e :- if culled then Ok(s) else EmitMesh(names, s, if byMesh then s.j else s.meshesIndex);
        Ok(if last then e else e.(k := 0, trianglesN := 0, meshesIndex := e.meshesIndex + 1, j := e.j + 1, flag := true))
      else
        Ok(s.(trianglesN := 0, j := s.j + 1))
    else
      Ok(s)
  }

  /** The tail of an iteration for a selected triangle: its indices k, k + 1, k + 2. */
  function Write(s: Layout): Layout {
    s.(newMeshesNum := s.newMeshesNum + 1,
       out := s.out + [IndexWord(s.k), IndexWord(s.k + 1), IndexWord(s.k + 2)],
       k := s.k + 3,
       byteLengthIndex := s.byteLengthIndex + 12)
  }

  /**
   * One iteration for triangle t. meshesLength[j] is read first, so j out
   * of range is an error; after a close the open mesh's count goes to
   * newmeshesLength (not in the culled pass) and restarts from 0.
   */
  function Step(meshesLength: seq<int>, names: seq<string>, culled: bool, s: Layout, t: Triangle, last: bool, byMesh: bool): Result<Layout> {
    if !(0 <= s.j < |meshesLength|) then Err(OutOfRange("meshesLength[j]"))
    else
      var c :- Close(meshesLength, names, culled, s.(flag := false), last, byMesh);
      var c := c.(trianglesN := c.trianglesN + 1);
      var c := if c.flag || last then
                 c.(newmeshesLength := if culled then c.newmeshesLength else c.newmeshesLength + [c.newMeshesNum], newMeshesNum := 0)
               else c;
      Ok(if Selected(t, culled) then Write(c) else c)
  }

  /**
   * The state after the first i iterations. As written (`intended` false)
   * the iteration of the last triangle takes the `last` branches and names
   * meshes by the emitted count; the intended loop does neither.
   */
  function LayoutAfter(meshesLength: seq<int>, names: seq<string>, culled: bool, tris: seq<Triangle>, i: nat, intended: bool): Result<Layout>
    requires i <= |tris|
    decreases i
  {
    if i == 0 then Ok(StartLayout(meshesLength))
    else
      var s :- LayoutAfter(meshesLength, names, culled, tris, i - 1, intended);
      Step(meshesLength, names, culled, s, tris[i - 1], !intended && i == |tris|, intended)
  }

  /** An error in some iteration is the error of the whole loop. */
  lemma {:induction false} LayoutErrorStays(meshesLength: seq<int>, names: seq<string>, culled: bool, tris: seq<Triangle>,
                                            i: nat, n: nat, intended: bool)
    requires i <= n <= |tris| && LayoutAfter(meshesLength, names, culled, tris, i, intended).Err?
    ensures LayoutAfter(meshesLength, names, culled, tris, n, intended) == LayoutAfter(meshesLength, names, culled, tris, i, intended)
    decreases n
  {
    if n > i {
      LayoutErrorStays(meshesLength, names, culled, tris, i, n - 1, intended);
    }
  }

  /** One more iteration of the loop. */
  lemma LayoutAfterNext(meshesLength: seq<int>, names: seq<string>, culled: bool, tris: seq<Triangle>, i: nat, intended: bool, s: Layout)
    requires i < |tris| && LayoutAfter(meshesLength, names, culled, tris, i, intended) == Ok(s)
    ensures LayoutAfter(meshesLength, names, culled, tris, i + 1, intended) ==
            Step(meshesLength, names, culled, s, tris[i], !intended && i + 1 == |tris|, intended)
  {
  }

  /** The mesh loop as written. */
  function Meshes(meshesLength: seq<int>, names: seq<string>, culled: bool, tris: seq<Triangle>): Result<Layout> {
    LayoutAfter(meshesLength, names, culled, tris, |tris|, false)
  }

  /**
   * The mesh loop as intended: meshes close only when full, each named
   * after its own entry of meshesName, and the open mesh is closed after
   * the loop.
   */
  function IntendedMeshes(meshesLength: seq<int>, names: seq<string>, culled: bool, tris: seq<Triangle>): Result<Layout> {
    var s :- LayoutAfter(meshesLength, names, culled, tris, |tris|, true);
    Finish(names, culled, s)
  }

  /** After the intended loop: the open mesh, when it has selected triangles, is emitted and recorded. */
  function Finish(names: seq<string>, culled: bool, s: Layout): Result<Layout> {
    if s.newMeshesNum == 0 then Ok(s)
    else
      var e :- if culled then Ok(s) else EmitMesh(names, s, s.j);
      Ok(Closed(e, culled))
  }

  function Closed(e: Layout, culled: bool): Layout {
    e.(meshesIndex := e.meshesIndex + 1,
       newmeshesLength := if culled then e.newmeshesLength else e.newmeshesLength + [e.newMeshesNum],
       newMeshesNum := 0)
  }

  /**
   * The mesh loop of occlusionCulling (culled false) and of
   * outputCulledModel (culled true), statement by statement.
   */
  method LayoutMeshes(meshesLength: seq<int>, names: seq<string>, culled: bool, tris: seq<Triangle>) returns (r: Result<Layout>)
    ensures r == Meshes(meshesLength, names, culled, tris)
  {
    var s := StartLayout(meshesLength);
    var i := 0;
    while i < |tris|
      invariant 0 <= i <= |tris|
      invariant LayoutAfter(meshesLength, names, culled, tris, i, false) == Ok(s)
    {
      LayoutAfterNext(meshesLength, names, culled, tris, i, false, s);
      r := LayoutIteration(meshesLength, names, culled, s, tris[i], i == |tris| - 1, false);
      if r.Err? {
        LayoutErrorStays(meshesLength, names, culled, tris, i + 1, |tris|, false);
        return;
      }
      s := r.value;
      i := i + 1;
    }
    r := Ok(s);
  }

  /**
   * The corrected mesh loop: meshes close only when full and take the name
   * of their own entry of meshesName, and the open mesh is closed after
   * the loop.
   */
  method LayoutMeshesIntended(meshesLength: seq<int>, names: seq<string>, culled: bool, tris: seq<Triangle>) returns (r: Result<Layout>)
    ensures r == IntendedMeshes(meshesLength, names, culled, tris)
  {
    var s := StartLayout(meshesLength);
    var i := 0;
    while i < |tris|
      invariant 0 <= i <= |tris|
      invariant LayoutAfter(meshesLength, names, culled, tris, i, true) == Ok(s)
    {
      LayoutAfterNext(meshesLength, names, culled, tris, i, true, s);
      r := LayoutIteration(meshesLength, names, culled, s, tris[i], false, true);
      if r.Err? {
        LayoutErrorStays(meshesLength, names, culled, tris, i + 1, |tris|, true);
        return;
      }
      s := r.value;
      i := i + 1;
    }
    IntendedAfterLoop(meshesLength, names, culled, tris, s);
    r := FinishLayout(names, culled, s);
  }

  lemma IntendedAfterLoop(meshesLength: seq<int>, names: seq<string>, culled: bool, tris: seq<Triangle>, s: Layout)
    requires LayoutAfter(meshesLength, names, culled, tris, |tris|, true) == Ok(s)
    ensures IntendedMeshes(meshesLength, names, culled, tris) == Finish(names, culled, s)
  {
  }

  /** The close after the corrected loop. */
  method FinishLayout(names: seq<string>, culled: bool, s: Layout) returns (r: Result<Layout>)
    ensures r == Finish(names, culled, s)
  {
    if s.newMeshesNum == 0 {
      return Ok(s);
    }
    var e := s;
    if !culled {
      var emitted := EmitStatements(names, s, s.j);
      if emitted.Err? {
        return emitted;
      }
      e := emitted.value;
    }
    var newmeshesLength := if culled then e.newmeshesLength else e.newmeshesLength + [e.newMeshesNum];
    r := Ok(e.(meshesIndex := e.meshesIndex + 1, newmeshesLength := newmeshesLength, newMeshesNum := 0));
  }

  /**
   * One iteration of the mesh loop, as the statements of the source;
   * `byMesh` takes the name of the emitted mesh from entry j of meshesName.
   */
  method LayoutIteration(meshesLength: seq<int>, names: seq<string>, culled: bool, s: Layout, t: Triangle, last: bool, byMesh: bool)
    returns (r: Result<Layout>)
    ensures r == Step(meshesLength, names, culled, s, t, last, byMesh)
  {
    if !(0 <= s.j < |meshesLength|) {
      return Err(OutOfRange("meshesLength[j]"));
    }
    var head := CloseStatements(meshesLength, names, culled, s.(flag := false), last, byMesh);
    if head.Err? {
      return head;
    }
    var j, k, trianglesN, meshesIndex, attrIndex, flag := head.value.j, head.value.k, head.value.trianglesN,
      head.value.meshesIndex, head.value.attrIndex, head.value.flag;
    var newMeshesNum, newMeshes, newmeshesLength, out, byteLengthIndex := head.value.newMeshesNum,
      head.value.newMeshes, head.value.newmeshesLength, head.value.out, head.value.byteLengthIndex;
    trianglesN := trianglesN + 1;
    if flag || last {
      if !culled {
        newmeshesLength := newmeshesLength + [newMeshesNum];
      }
      newMeshesNum := 0;
    }
    if Selected(t, culled) {
      newMeshesNum := newMeshesNum + 1;
      out := out + [IndexWord(k), IndexWord(k + 1), IndexWord(k + 2)];
      k := k + 3;
      byteLengthIndex := byteLengthIndex + 12;
    }
    r := Ok(Layout(j, k, trianglesN, meshesIndex, attrIndex, flag, newMeshesNum, newMeshes, newmeshesLength, out, byteLengthIndex));
  }

  /** The head of an iteration, as the statements of the source. */
  method CloseStatements(meshesLength: seq<int>, names: seq<string>, culled: bool, s: Layout, last: bool, byMesh: bool)
    returns (r: Result<Layout>)
    requires 0 <= s.j < |meshesLength|
    ensures r == Close(meshesLength, names, culled, s, last, byMesh)
  {
    var j, k, trianglesN, meshesIndex, attrIndex, flag := s.j, s.k, s.trianglesN, s.meshesIndex, s.attrIndex, s.flag;
    var newMeshes := s.newMeshes;
    if trianglesN == meshesLength[j] || last {
      if s.newMeshesNum != 0 {
        if !culled {
          var emitted := EmitStatements(names, s, if byMesh then j else meshesIndex);
          if emitted.Err? {
            return emitted;
          }
          newMeshes, attrIndex := emitted.value.newMeshes, emitted.value.attrIndex;
        }
        if !last {
          k := 0;
          trianglesN := 0;
          meshesIndex := meshesIndex + 1;
          j := j + 1;
          flag := true;
        }
      } else {
        trianglesN := 0;
        j := j + 1;
      }
    }
    r := Ok(s.(j := j, k := k, trianglesN := trianglesN, meshesIndex := meshesIndex, attrIndex := attrIndex,
               flag := flag, newMeshes := newMeshes));
  }

  /** Naming and filling newMeshes[meshesIndex], as the statements of the source. */
  method EmitStatements(names: seq<string>, s: Layout, nameIndex: int) returns (r: Result<Layout>)
    ensures r == EmitMesh(names, s, nameIndex)
  {
    var newMeshes, attrIndex := s.newMeshes, s.attrIndex;
    if !(0 <= nameIndex < |names|) {
      return Err(OutOfRange("meshesName[meshesIndex]"));
    }
    if !(0 <= s.meshesIndex < |newMeshes|) {
      return Err(OutOfRange("newMeshes[meshesIndex]"));
    }
    var m := newMeshes[s.meshesIndex].(name := names[nameIndex]);
    var p := if m.primitives == [] then DEFAULT_PRIMITIVE else m.primitives[0];
    p := p.(indices := attrIndex);
    attrIndex := attrIndex + 1;
    p := p.(attributes := p.attributes["POSITION" := attrIndex]);
    attrIndex := attrIndex + 1;
    newMeshes := newMeshes[s.meshesIndex := m.(primitives := [p])];
    r := Ok(s.(newMeshes := newMeshes, attrIndex := attrIndex));
  }

  // ---------------------------------------------------------------------
  // The meshes of meshesLength
  // ---------------------------------------------------------------------

  /** Every mesh of meshesLength has at least one triangle. */
  predicate Positive(meshesLength: seq<int>) {
    forall q :: 0 <= q < |meshesLength| ==> meshesLength[q] >= 1
  }

  /** The first triangle of mesh j: the number of triangles of the meshes before it. */
  function Start(meshesLength: seq<int>, j: nat): (r: int)
    requires j <= |meshesLength|
    ensures Positive(meshesLength) ==> r >= j
  {
    if j == 0 then 0 else Start(meshesLength, j - 1) + meshesLength[j - 1]
  }

  /** The number of selected triangles among tris[a..b]. */
  function CountIn(tris: seq<Triangle>, a: nat, b: nat, culled: bool): (c: nat)
    requires a <= b <= |tris|
    ensures c <= b - a
    decreases b
  {
    if a == b then 0 else CountIn(tris, a, b - 1, culled) + (if Selected(tris[b - 1], culled) then 1 else 0)
  }

  lemma {:induction false} CountInPrefix(tris: seq<Triangle>, n: nat, culled: bool)
    requires n <= |tris|
    ensures CountIn(tris, 0, n, culled) == Count(tris[..n], culled)
    decreases n
  {
    if n > 0 {
      CountInPrefix(tris, n - 1, culled);
      assert tris[..n][..n - 1] == tris[..n - 1];
    }
  }

  lemma {:induction false} CountInSplit(tris: seq<Triangle>, a: nat, m: nat, b: nat, culled: bool)
    requires a <= m <= b <= |tris|
    ensures CountIn(tris, a, b, culled) == CountIn(tris, a, m, culled) + CountIn(tris, m, b, culled)
    decreases b
  {
    if b > m {
      CountInSplit(tris, a, m, b - 1, culled);
    }
  }

  /** A mesh that has selected triangles, and how many. */
  datatype Run = Run(mesh: int, count: int)

  function Counts(runs: seq<Run>): (c: seq<int>)
    ensures |c| == |runs| && forall m :: 0 <= m < |runs| ==> c[m] == runs[m].count
  {
    seq(|runs|, m requires 0 <= m < |runs| => runs[m].count)
  }

  /**
   * The meshes before mesh j that have at least one selected triangle, in
   * order, each with the number of its selected triangles.
   */
  function SelectedMeshes(meshesLength: seq<int>, tris: seq<Triangle>, culled: bool, j: nat): (runs: seq<Run>)
    requires Positive(meshesLength) && j <= |meshesLength| && Start(meshesLength, j) <= |tris|
    ensures |runs| <= j
    ensures forall m :: 0 <= m < |runs| ==> 0 <= runs[m].mesh < j && runs[m].count >= 1
    decreases j
  {
    if j == 0 then []
    else
      var c := CountIn(tris, Start(meshesLength, j - 1), Start(meshesLength, j), culled);
      SelectedMeshes(meshesLength, tris, culled, j - 1) + (if c == 0 then [] else [Run(j - 1, c)])
  }

  /** Mesh j joins the selected meshes exactly when it has a selected triangle. */
  lemma SelectedMeshesNext(meshesLength: seq<int>, tris: seq<Triangle>, culled: bool, j: nat)
    requires Positive(meshesLength) && j < |meshesLength| && Start(meshesLength, j + 1) <= |tris|
    ensures var c := CountIn(tris, Start(meshesLength, j), Start(meshesLength, j + 1), culled);
            SelectedMeshes(meshesLength, tris, culled, j + 1) ==
            if c == 0 then SelectedMeshes(meshesLength, tris, culled, j)
            else SelectedMeshes(meshesLength, tris, culled, j) + [Run(j, c)]
  {
    var c := CountIn(tris, Start(meshesLength, j), Start(meshesLength, j + 1), culled);
    if c == 0 {
      assert SelectedMeshes(meshesLength, tris, culled, j) + [] == SelectedMeshes(meshesLength, tris, culled, j);
    }
  }

  /** The new meshes when the runs are emitted in order, each named after its mesh (byMesh) or its position. */
  function NewMeshesFrom(names: seq<string>, runs: seq<Run>, n: nat, culled: bool, byMesh: bool): (ms: seq<NewMesh>)
    requires |runs| <= |names| && forall m :: 0 <= m < |runs| ==> 0 <= runs[m].mesh < |names|
    ensures |ms| == n
  {
    seq(n, m requires 0 <= m < n =>
             if culled || m >= |runs| then DEFAULT_NEW_MESH
             else Emitted(DEFAULT_NEW_MESH, names[if byMesh then runs[m].mesh else m], 2 * m))
  }

  /** Emitting one more run changes the new meshes at its position only. */
  lemma NewMeshesAppend(names: seq<string>, runs: seq<Run>, r: Run, n: nat, byMesh: bool)
    requires |runs| < |names| && |runs| < n && 0 <= r.mesh < |names|
    requires forall m :: 0 <= m < |runs| ==> 0 <= runs[m].mesh < |names|
    ensures NewMeshesFrom(names, runs, n, false, byMesh)[|runs| :=
              Emitted(DEFAULT_NEW_MESH, names[if byMesh then r.mesh else |runs|], 2 * |runs|)] ==
            NewMeshesFrom(names, runs + [r], n, false, byMesh)
  {
  }

  /**
   * The assumptions under which the loop reads only what exists: every mesh
   * has a triangle, the meshes hold all the triangles, and every mesh has a
   * name.
   */
  predicate WellSized(meshesLength: seq<int>, names: seq<string>, tris: seq<Triangle>) {
    Positive(meshesLength) && Start(meshesLength, |meshesLength|) == |tris| && |names| >= |meshesLength|
  }

  /** Triangle i is the (trianglesN + 1)-th of mesh j. */
  predicate Cursor(meshesLength: seq<int>, tris: seq<Triangle>, i: nat, j: int, trianglesN: int)
    requires Positive(meshesLength)
  {
    0 <= j < |meshesLength| && 0 <= trianglesN <= meshesLength[j] && Start(meshesLength, j) + trianglesN == i <= |tris|
  }

  /** The counters before iteration i: selected triangles of the open mesh and so far, and meshes emitted. */
  predicate Tally(meshesLength: seq<int>, tris: seq<Triangle>, culled: bool, i: nat, s: Layout)
    requires Positive(meshesLength) && Cursor(meshesLength, tris, i, s.j, s.trianglesN)
  {
    s.newMeshesNum == CountIn(tris, Start(meshesLength, s.j), i, culled) &&
    s.k == 3 * s.newMeshesNum &&
    s.byteLengthIndex == 12 * CountIn(tris, 0, i, culled) &&
    s.meshesIndex == |SelectedMeshes(meshesLength, tris, culled, s.j)| &&
    s.attrIndex == (if culled then 0 else 2 * |SelectedMeshes(meshesLength, tris, culled, s.j)|)
  }

  /** The indices written: a run from 0 per emitted mesh, then 0 .. k - 1 for the open one. */
  predicate IndexOut(runs: seq<Run>, s: Layout) {
    s.out == Runs(Counts(runs)) + Ascending(s.k)
  }

  /** The triangle counts recorded: one per emitted mesh (none in the culled pass). */
  predicate Recorded(runs: seq<Run>, culled: bool, s: Layout) {
    s.newmeshesLength == if culled then [] else Counts(runs)
  }

  /** The new meshes: the emitted ones named and given their accessors, the rest defaults. */
  predicate Named(names: seq<string>, runs: seq<Run>, n: nat, culled: bool, byMesh: bool, s: Layout)
    requires |runs| <= |names| && forall m :: 0 <= m < |runs| ==> 0 <= runs[m].mesh < |names|
  {
    s.newMeshes == NewMeshesFrom(names, runs, n, culled, byMesh)
  }

  /**
   * The state before iteration i while meshes close only when full: the
   * meshes before j are done and the selected ones among them emitted in
   * order; mesh j has seen trianglesN triangles, newMeshesNum of them
   * selected, and its indices so far run from 0 to k - 1.
   */
  predicate Open(meshesLength: seq<int>, names: seq<string>, culled: bool, tris: seq<Triangle>, i: nat, s: Layout, byMesh: bool)
    requires WellSized(meshesLength, names, tris)
  {
    Cursor(meshesLength, tris, i, s.j, s.trianglesN) &&
    Tally(meshesLength, tris, culled, i, s) &&
    var runs := SelectedMeshes(meshesLength, tris, culled, s.j);
    IndexOut(runs, s) && Recorded(runs, culled, s) && Named(names, runs, |meshesLength|, culled, byMesh, s)
  }

  /** Open from its parts, given the meshes selected before the open one. */
  lemma OpenFrom(meshesLength: seq<int>, names: seq<string>, culled: bool, tris: seq<Triangle>, i: nat, w: Layout, byMesh: bool, runs: seq<Run>)
    requires WellSized(meshesLength, names, tris)
    requires Cursor(meshesLength, tris, i, w.j, w.trianglesN) && Tally(meshesLength, tris, culled, i, w)
    requires SelectedMeshes(meshesLength, tris, culled, w.j) == runs
    requires IndexOut(runs, w) && Recorded(runs, culled, w) && Named(names, runs, |meshesLength|, culled, byMesh, w)
    ensures Open(meshesLength, names, culled, tris, i, w, byMesh)
  {
  }

  lemma IndexOutWrite(runs: seq<Run>, s: Layout, w: Layout)
    requires IndexOut(runs, s) && s.k >= 0
    requires w.out == s.out + [IndexWord(s.k), IndexWord(s.k + 1), IndexWord(s.k + 2)] && w.k == s.k + 3
    ensures IndexOut(runs, w)
  {
    AscendingNext(s.k);
  }

  lemma IndexOutEmit(runs: seq<Run>, m: int, c: int, s: Layout, w: Layout, selected: bool)
    requires IndexOut(runs, s) && s.k == 3 * c && c >= 0
    requires w.out == s.out + (if selected then [IndexWord(0), IndexWord(1), IndexWord(2)] else [])
    requires w.k == if selected then 3 else 0
    ensures IndexOut(runs + [Run(m, c)], w)
  {
    var runs' := runs + [Run(m, c)];
    assert Counts(runs') == Counts(runs) + [c];
    RunsAppend(Counts(runs), c);
    assert Runs(Counts(runs')) == s.out;
    if selected {
      AscendingNext(0);
      assert Ascending(0) == [];
      assert w.out == Runs(Counts(runs')) + Ascending(3);
    } else {
      assert Ascending(0) == [];
      assert w.out == Runs(Counts(runs')) + Ascending(0);
    }
  }

  lemma RecordedEmit(runs: seq<Run>, r: Run, culled: bool, s: Layout, w: Layout)
    requires Recorded(runs, culled, s)
    requires w.newmeshesLength == if culled then s.newmeshesLength else s.newmeshesLength + [r.count]
    ensures Recorded(runs + [r], culled, w)
  {
    assert Counts(runs + [r]) == Counts(runs) + [r.count];
  }

  /** Mesh j stays open: the triangle is counted in it. */
  lemma OpenKeep(meshesLength: seq<int>, names: seq<string>, culled: bool, tris: seq<Triangle>, i: nat, s: Layout, byMesh: bool, w: Layout)
    requires WellSized(meshesLength, names, tris) && i < |tris| && Open(meshesLength, names, culled, tris, i, s, byMesh)
    requires s.trianglesN != meshesLength[s.j]
    requires var c := s.(flag := false, trianglesN := s.trianglesN + 1);
             w == if Selected(tris[i], culled) then Write(c) else c
    ensures Open(meshesLength, names, culled, tris, i + 1, w, byMesh)
  {
    var runs := SelectedMeshes(meshesLength, tris, culled, s.j);
    KeepCounters(meshesLength, names, culled, tris, i, s, byMesh, w);
    if Selected(tris[i], culled) {
      IndexOutWrite(runs, s, w);
    }
    OpenFrom(meshesLength, names, culled, tris, i + 1, w, byMesh, runs);
  }

  /** The counters when mesh j stays open: it has seen one triangle more. */
  lemma KeepCounters(meshesLength: seq<int>, names: seq<string>, culled: bool, tris: seq<Triangle>, i: nat, s: Layout, byMesh: bool, w: Layout)
    requires WellSized(meshesLength, names, tris) && i < |tris| && Open(meshesLength, names, culled, tris, i, s, byMesh)
    requires s.trianglesN != meshesLength[s.j]
    requires var c := s.(flag := false, trianglesN := s.trianglesN + 1);
             w == if Selected(tris[i], culled) then Write(c) else c
    ensures Cursor(meshesLength, tris, i + 1, w.j, w.trianglesN) && Tally(meshesLength, tris, culled, i + 1, w)
  {
    var sel := if Selected(tris[i], culled) then 1 else 0;
    assert CountIn(tris, Start(meshesLength, s.j), i + 1, culled) == CountIn(tris, Start(meshesLength, s.j), i, culled) + sel;
    assert CountIn(tris, 0, i + 1, culled) == CountIn(tris, 0, i, culled) + sel;
  }

  /** When mesh j is full at triangle i, mesh j + 1 exists and starts at i. */
  lemma NextMeshOpens(meshesLength: seq<int>, names: seq<string>, culled: bool, tris: seq<Triangle>, i: nat, s: Layout, byMesh: bool)
    requires WellSized(meshesLength, names, tris) && i < |tris| && Open(meshesLength, names, culled, tris, i, s, byMesh)
    requires s.trianglesN == meshesLength[s.j]
    ensures s.j + 1 < |meshesLength| && Start(meshesLength, s.j + 1) == i
    ensures s.newMeshesNum == 0 ==> SelectedMeshes(meshesLength, tris, culled, s.j + 1) == SelectedMeshes(meshesLength, tris, culled, s.j)
    ensures s.newMeshesNum != 0 ==> SelectedMeshes(meshesLength, tris, culled, s.j + 1) ==
                                    SelectedMeshes(meshesLength, tris, culled, s.j) + [Run(s.j, s.newMeshesNum)]
  {
    var j := s.j;
    assert Start(meshesLength, j + 1) == i;
    assert j + 1 != |meshesLength|;
    SelectedMeshesNext(meshesLength, tris, culled, j);
  }

  /** Mesh j is full and has no selected triangle: it is passed over and mesh j + 1 opened. */
  lemma OpenSkip(meshesLength: seq<int>, names: seq<string>, culled: bool, tris: seq<Triangle>, i: nat, s: Layout, byMesh: bool, w: Layout)
    requires WellSized(meshesLength, names, tris) && i < |tris| && Open(meshesLength, names, culled, tris, i, s, byMesh)
    requires s.trianglesN == meshesLength[s.j] && s.newMeshesNum == 0
    requires var c := s.(flag := false, trianglesN := 1, j := s.j + 1);
             w == if Selected(tris[i], culled) then Write(c) else c
    ensures Open(meshesLength, names, culled, tris, i + 1, w, byMesh)
  {
    SkipFieldsOf(s, Selected(tris[i], culled), w);
    OpenAfterSkip(meshesLength, names, culled, tris, i, s, byMesh, w);
  }

  /** The state after passing over mesh j, field by field; `sel` tells whether the iteration's triangle is selected. */
  predicate SkipFields(s: Layout, sel: bool, w: Layout) {
    var n := if sel then 1 else 0;
    w.j == s.j + 1 && w.trianglesN == 1 && w.meshesIndex == s.meshesIndex && w.attrIndex == s.attrIndex &&
    w.newMeshesNum == s.newMeshesNum + n && w.k == s.k + 3 * n && w.byteLengthIndex == s.byteLengthIndex + 12 * n &&
    w.out == s.out + (if sel then [IndexWord(s.k), IndexWord(s.k + 1), IndexWord(s.k + 2)] else []) &&
    w.newmeshesLength == s.newmeshesLength && w.newMeshes == s.newMeshes
  }

  lemma SkipFieldsOf(s: Layout, sel: bool, w: Layout)
    requires var c := s.(flag := false, trianglesN := 1, j := s.j + 1);
             w == if sel then Write(c) else c
    ensures SkipFields(s, sel, w)
  {
    if !sel {
      assert s.out + [] == s.out;
    }
  }

  lemma OpenAfterSkip(meshesLength: seq<int>, names: seq<string>, culled: bool, tris: seq<Triangle>, i: nat, s: Layout, byMesh: bool, w: Layout)
    requires WellSized(meshesLength, names, tris) && i < |tris| && Open(meshesLength, names, culled, tris, i, s, byMesh)
    requires s.trianglesN == meshesLength[s.j] && s.newMeshesNum == 0
    requires SkipFields(s, Selected(tris[i], culled), w)
    ensures Open(meshesLength, names, culled, tris, i + 1, w, byMesh)
  {
    NextMeshOpens(meshesLength, names, culled, tris, i, s, byMesh);
    var runs := SelectedMeshes(meshesLength, tris, culled, s.j);
    SkipCounters(meshesLength, culled, tris, i, s, w);
    if Selected(tris[i], culled) {
      IndexOutWrite(runs, s, w);
    } else {
      assert w.out == s.out && w.k == s.k;
    }
    OpenFrom(meshesLength, names, culled, tris, i + 1, w, byMesh, runs);
  }

  /** The counters when mesh j is passed over: mesh j + 1 is open at triangle i + 1. */
  lemma SkipCounters(meshesLength: seq<int>, culled: bool, tris: seq<Triangle>, i: nat, s: Layout, w: Layout)
    requires Positive(meshesLength) && i < |tris|
    requires Cursor(meshesLength, tris, i, s.j, s.trianglesN) && Tally(meshesLength, tris, culled, i, s)
    requires s.j + 1 < |meshesLength| && Start(meshesLength, s.j + 1) == i
    requires SelectedMeshes(meshesLength, tris, culled, s.j + 1) == SelectedMeshes(meshesLength, tris, culled, s.j)
    requires s.newMeshesNum == 0
    requires SkipFields(s, Selected(tris[i], culled), w)
    ensures Cursor(meshesLength, tris, i + 1, w.j, w.trianglesN) && Tally(meshesLength, tris, culled, i + 1, w)
  {
    CursorOpens(meshesLength, tris, i, s.j + 1);
    var sel := if Selected(tris[i], culled) then 1 else 0;
    assert CountIn(tris, i, i + 1, culled) == sel;
    assert CountIn(tris, 0, i + 1, culled) == CountIn(tris, 0, i, culled) + sel;
  }

  /** Triangle i is the first of mesh j: after it, mesh j has seen one triangle. */
  lemma CursorOpens(meshesLength: seq<int>, tris: seq<Triangle>, i: nat, j: nat)
    requires Positive(meshesLength) && j < |meshesLength| && Start(meshesLength, j) == i < |tris|
    ensures Cursor(meshesLength, tris, i + 1, j, 1)
  {
  }

  /** The state after emitting mesh j and opening mesh j + 1 with k at 0. */
  function Reopened(e: Layout, culled: bool): Layout {
    e.(flag := true, k := 0, trianglesN := 1, meshesIndex := e.meshesIndex + 1, j := e.j + 1,
       newmeshesLength := if culled then e.newmeshesLength else e.newmeshesLength + [e.newMeshesNum],
       newMeshesNum := 0)
  }

  /**
   * The state after emitting mesh j and opening mesh j + 1, field by
   * field; `sel` tells whether the triangle of the iteration is selected.
   */
  predicate EmitFields(names: seq<string>, culled: bool, s: Layout, byMesh: bool, sel: bool, w: Layout) {
    var n := if sel then 1 else 0;
    w.j == s.j + 1 && w.trianglesN == 1 && w.meshesIndex == s.meshesIndex + 1 &&
    w.newMeshesNum == n && w.k == 3 * n && w.byteLengthIndex == s.byteLengthIndex + 12 * n &&
    w.attrIndex == s.attrIndex + (if culled then 0 else 2) &&
    w.out == s.out + (if sel then [IndexWord(0), IndexWord(1), IndexWord(2)] else []) &&
    w.newmeshesLength == (if culled then s.newmeshesLength else s.newmeshesLength + [s.newMeshesNum]) &&
    (culled ==> w.newMeshes == s.newMeshes) &&
    (!culled ==> var e := EmitMesh(names, s, if byMesh then s.j else s.meshesIndex); e.Ok? && w.newMeshes == e.value.newMeshes)
  }

  lemma EmitFieldsOf(names: seq<string>, culled: bool, s: Layout, byMesh: bool, sel: bool, w: Layout)
    requires culled || EmitMesh(names, s, if byMesh then s.j else s.meshesIndex).Ok?
    requires var e := if culled then s else EmitMesh(names, s, if byMesh then s.j else s.meshesIndex).value;
             w == if sel then Write(Reopened(e, culled)) else Reopened(e, culled)
    ensures EmitFields(names, culled, s, byMesh, sel, w)
  {
  }

  /** Mesh j is full and has selected triangles: it is emitted and mesh j + 1 opened with k at 0. */
  lemma OpenEmit(meshesLength: seq<int>, names: seq<string>, culled: bool, tris: seq<Triangle>, i: nat, s: Layout, byMesh: bool, w: Layout)
    requires WellSized(meshesLength, names, tris) && i < |tris| && Open(meshesLength, names, culled, tris, i, s, byMesh)
    requires s.trianglesN == meshesLength[s.j] && s.newMeshesNum != 0
    requires EmitFields(names, culled, s, byMesh, Selected(tris[i], culled), w)
    ensures Open(meshesLength, names, culled, tris, i + 1, w, byMesh)
  {
    EmitCounters(meshesLength, names, culled, tris, i, s, byMesh, w);
    EmitOutput(meshesLength, names, culled, tris, i, s, byMesh, w);
  }

  /** The counters after emitting mesh j: mesh j + 1 is open at triangle i + 1. */
  lemma EmitCounters(meshesLength: seq<int>, names: seq<string>, culled: bool, tris: seq<Triangle>, i: nat, s: Layout, byMesh: bool, w: Layout)
    requires WellSized(meshesLength, names, tris) && i < |tris| && Open(meshesLength, names, culled, tris, i, s, byMesh)
    requires s.trianglesN == meshesLength[s.j] && s.newMeshesNum != 0
    requires EmitFields(names, culled, s, byMesh, Selected(tris[i], culled), w)
    ensures Cursor(meshesLength, tris, i + 1, w.j, w.trianglesN) && Tally(meshesLength, tris, culled, i + 1, w)
  {
    NextMeshOpens(meshesLength, names, culled, tris, i, s, byMesh);
    CursorOpens(meshesLength, tris, i, s.j + 1);
  }

  /** The output after emitting mesh j: it joins the emitted meshes with its count and name. */
  lemma EmitOutput(meshesLength: seq<int>, names: seq<string>, culled: bool, tris: seq<Triangle>, i: nat, s: Layout, byMesh: bool, w: Layout)
    requires WellSized(meshesLength, names, tris) && i < |tris| && Open(meshesLength, names, culled, tris, i, s, byMesh)
    requires s.trianglesN == meshesLength[s.j] && s.newMeshesNum != 0
    requires EmitFields(names, culled, s, byMesh, Selected(tris[i], culled), w)
    requires Cursor(meshesLength, tris, i + 1, w.j, w.trianglesN) && Tally(meshesLength, tris, culled, i + 1, w)
    ensures Open(meshesLength, names, culled, tris, i + 1, w, byMesh)
  {
    NextMeshOpens(meshesLength, names, culled, tris, i, s, byMesh);
    var runs := SelectedMeshes(meshesLength, tris, culled, s.j);
    var r := Run(s.j, s.newMeshesNum);
    IndexOutEmit(runs, s.j, s.newMeshesNum, s, w, Selected(tris[i], culled));
    RecordedEmit(runs, r, culled, s, w);
    NamedEmit(names, runs, r, |meshesLength|, culled, byMesh, s, w, if byMesh then s.j else s.meshesIndex);
    assert w.j == s.j + 1;
    OpenFrom(meshesLength, names, culled, tris, i + 1, w, byMesh, runs + [r]);
  }

  /** Emitting run r names new mesh |runs| and leaves the other new meshes as they were. */
  lemma NamedEmit(names: seq<string>, runs: seq<Run>, r: Run, n: nat, culled: bool, byMesh: bool, s: Layout, w: Layout, nameIndex: int)
    requires |runs| < |names| && |runs| < n && 0 <= r.mesh < |names|
    requires forall m :: 0 <= m < |runs| ==> 0 <= runs[m].mesh < |names|
    requires Named(names, runs, n, culled, byMesh, s)
    requires s.meshesIndex == |runs| && s.attrIndex == (if culled then 0 else 2 * |runs|)
    requires nameIndex == if byMesh then r.mesh else |runs|
    requires culled ==> w.newMeshes == s.newMeshes
    requires !culled ==> var e := EmitMesh(names, s, nameIndex); e.Ok? && w.newMeshes == e.value.newMeshes
    ensures |runs + [r]| <= |names| && forall m :: 0 <= m < |runs + [r]| ==> 0 <= (runs + [r])[m].mesh < |names|
    ensures Named(names, runs + [r], n, culled, byMesh, w)
  {
    if culled {
      assert NewMeshesFrom(names, runs + [r], n, culled, byMesh) == NewMeshesFrom(names, runs, n, culled, byMesh);
    } else {
      NewMeshesAppend(names, runs, r, n, byMesh);
    }
  }

  /** Emitting is possible while Open: mesh j and its name exist. */
  lemma EmitInRange(meshesLength: seq<int>, names: seq<string>, culled: bool, tris: seq<Triangle>, i: nat, s: Layout, byMesh: bool)
    requires WellSized(meshesLength, names, tris) && Open(meshesLength, names, culled, tris, i, s, byMesh)
    ensures EmitMesh(names, s, if byMesh then s.j else s.meshesIndex).Ok?
  {
  }

  /** An iteration in which mesh j stays open. */
  lemma StepKeeps(meshesLength: seq<int>, names: seq<string>, culled: bool, s: Layout, t: Triangle, byMesh: bool)
    requires 0 <= s.j < |meshesLength| && s.trianglesN != meshesLength[s.j]
    ensures var c := s.(flag := false, trianglesN := s.trianglesN + 1);
            Step(meshesLength, names, culled, s, t, false, byMesh) == Ok(if Selected(t, culled) then Write(c) else c)
  {
  }

  /** An iteration that passes over the full mesh j without selected triangles. */
  lemma StepSkips(meshesLength: seq<int>, names: seq<string>, culled: bool, s: Layout, t: Triangle, byMesh: bool)
    requires 0 <= s.j < |meshesLength| && s.trianglesN == meshesLength[s.j] && s.newMeshesNum == 0
    ensures var c := s.(flag := false, trianglesN := 1, j := s.j + 1);
            Step(meshesLength, names, culled, s, t, false, byMesh) == Ok(if Selected(t, culled) then Write(c) else c)
  {
  }

  /** An iteration that emits the full mesh j. */
  lemma StepEmits(meshesLength: seq<int>, names: seq<string>, culled: bool, s: Layout, t: Triangle, byMesh: bool)
    requires 0 <= s.j < |meshesLength| && s.trianglesN == meshesLength[s.j] && s.newMeshesNum != 0
    requires culled || EmitMesh(names, s, if byMesh then s.j else s.meshesIndex).Ok?
    ensures var e := if culled then s else EmitMesh(names, s, if byMesh then s.j else s.meshesIndex).value;
            Step(meshesLength, names, culled, s, t, false, byMesh) ==
            Ok(if Selected(t, culled) then Write(Reopened(e, culled)) else Reopened(e, culled))
  {
  }

  /** An iteration that is not the last one keeps Open. */
  lemma StepOpen(meshesLength: seq<int>, names: seq<string>, culled: bool, tris: seq<Triangle>, i: nat, s: Layout, byMesh: bool)
    requires WellSized(meshesLength, names, tris) && i < |tris| && Open(meshesLength, names, culled, tris, i, s, byMesh)
    ensures Step(meshesLength, names, culled, s, tris[i], false, byMesh).Ok?
    ensures Open(meshesLength, names, culled, tris, i + 1, Step(meshesLength, names, culled, s, tris[i], false, byMesh).value, byMesh)
  {
    var t := tris[i];
    if s.trianglesN != meshesLength[s.j] {
      var c := s.(flag := false, trianglesN := s.trianglesN + 1);
      StepKeeps(meshesLength, names, culled, s, t, byMesh);
      OpenKeep(meshesLength, names, culled, tris, i, s, byMesh, if Selected(t, culled) then Write(c) else c);
    } else if s.newMeshesNum == 0 {
      var c := s.(flag := false, trianglesN := 1, j := s.j + 1);
      StepSkips(meshesLength, names, culled, s, t, byMesh);
      OpenSkip(meshesLength, names, culled, tris, i, s, byMesh, if Selected(t, culled) then Write(c) else c);
    } else {
      EmitInRange(meshesLength, names, culled, tris, i, s, byMesh);
      var e := if culled then s else EmitMesh(names, s, if byMesh then s.j else s.meshesIndex).value;
      StepEmits(meshesLength, names, culled, s, t, byMesh);
      EmitFieldsOf(names, culled, s, byMesh, Selected(t, culled),
                   if Selected(t, culled) then Write(Reopened(e, culled)) else Reopened(e, culled));
      OpenEmit(meshesLength, names, culled, tris, i, s, byMesh,
               if Selected(t, culled) then Write(Reopened(e, culled)) else Reopened(e, culled));
    }
  }

  /** The state before the loop is Open at triangle 0. */
  lemma StartOpen(meshesLength: seq<int>, names: seq<string>, culled: bool, tris: seq<Triangle>, byMesh: bool)
    requires WellSized(meshesLength, names, tris) && 0 < |tris|
    ensures Open(meshesLength, names, culled, tris, 0, StartLayout(meshesLength), byMesh)
  {
    var s := StartLayout(meshesLength);
    assert Ascending(0) == [];
    assert NewMeshesFrom(names, [], |meshesLength|, culled, byMesh) == s.newMeshes;
    assert Cursor(meshesLength, tris, 0, s.j, s.trianglesN);
  }

  /**
   * Every iteration but the last one as written, and every iteration of
   * the intended loop, keeps Open.
   */
  lemma {:induction false} LayoutOpen(meshesLength: seq<int>, names: seq<string>, culled: bool, tris: seq<Triangle>, i: nat, intended: bool)
    requires WellSized(meshesLength, names, tris) && 0 < |tris| && i <= |tris| && (intended || i < |tris|)
    ensures LayoutAfter(meshesLength, names, culled, tris, i, intended).Ok?
    ensures Open(meshesLength, names, culled, tris, i, LayoutAfter(meshesLength, names, culled, tris, i, intended).value, intended)
    decreases i
  {
    if i == 0 {
      StartOpen(meshesLength, names, culled, tris, intended);
    } else {
      LayoutOpen(meshesLength, names, culled, tris, i - 1, intended);
      var s := LayoutAfter(meshesLength, names, culled, tris, i - 1, intended).value;
      StepOpen(meshesLength, names, culled, tris, i - 1, s, intended);
    }
  }

  /** The selected meshes hold all the selected triangles of the meshes before j. */
  lemma {:induction false} SelectedMeshesTotal(meshesLength: seq<int>, tris: seq<Triangle>, culled: bool, j: nat)
    requires Positive(meshesLength) && j <= |meshesLength| && Start(meshesLength, j) <= |tris|
    ensures Total(Counts(SelectedMeshes(meshesLength, tris, culled, j))) == CountIn(tris, 0, Start(meshesLength, j), culled)
    decreases j
  {
    if j > 0 {
      SelectedMeshesTotal(meshesLength, tris, culled, j - 1);
      var runs := SelectedMeshes(meshesLength, tris, culled, j - 1);
      var a, b := Start(meshesLength, j - 1), Start(meshesLength, j);
      var c := CountIn(tris, a, b, culled);
      assert SelectedMeshes(meshesLength, tris, culled, j) == runs + (if c == 0 then [] else [Run(j - 1, c)]);
      CountInSplit(tris, 0, a, b, culled);
      if c != 0 {
        TotalCountsAppend(runs, Run(j - 1, c));
      } else {
        assert runs + [] == runs;
      }
    }
  }

  lemma TotalCountsAppend(runs: seq<Run>, r: Run)
    ensures Total(Counts(runs + [r])) == Total(Counts(runs)) + r.count
  {
    assert Counts(runs + [r]) == Counts(runs) + [r.count];
    TotalAppend(Counts(runs), r.count);
  }

  /** At the end of the intended loop the open mesh is the last one, and it is full. */
  lemma LastMeshOpen(meshesLength: seq<int>, names: seq<string>, culled: bool, tris: seq<Triangle>, s: Layout)
    requires WellSized(meshesLength, names, tris) && 0 < |tris| && Open(meshesLength, names, culled, tris, |tris|, s, true)
    ensures s.j == |meshesLength| - 1 && Start(meshesLength, s.j + 1) == |tris|
  {
    StartGrows(meshesLength, s.j + 1, |meshesLength|);
  }

  /** The meshes after mesh j hold at least one triangle each. */
  lemma {:induction false} StartGrows(meshesLength: seq<int>, j: nat, n: nat)
    requires Positive(meshesLength) && j <= n <= |meshesLength|
    ensures Start(meshesLength, n) >= Start(meshesLength, j) + (n - j)
    decreases n
  {
    if n > j {
      StartGrows(meshesLength, j, n - 1);
    }
  }

  /** Closing a mesh with selected triangles after the loop records it as one more run. */
  lemma ClosedRuns(names: seq<string>, runs: seq<Run>, n: nat, culled: bool, s: Layout, w: Layout)
    requires |runs| < |names| && |runs| < n && 0 <= s.j < |names| && s.newMeshesNum != 0
    requires forall m :: 0 <= m < |runs| ==> 0 <= runs[m].mesh < |names|
    requires IndexOut(runs, s) && Recorded(runs, culled, s) && Named(names, runs, n, culled, true, s)
    requires s.k == 3 * s.newMeshesNum && s.meshesIndex == |runs| && s.attrIndex == (if culled then 0 else 2 * |runs|)
    requires culled || EmitMesh(names, s, s.j).Ok?
    requires w == Closed(if culled then s else EmitMesh(names, s, s.j).value, culled)
    ensures var runs' := runs + [Run(s.j, s.newMeshesNum)];
            w.out == Runs(Counts(runs')) && Recorded(runs', culled, w) && Named(names, runs', n, culled, true, w) &&
            w.meshesIndex == |runs'| && w.attrIndex == (if culled then 0 else 2 * |runs'|) &&
            w.byteLengthIndex == s.byteLengthIndex
  {
    var r := Run(s.j, s.newMeshesNum);
    assert Counts(runs + [r]) == Counts(runs) + [s.newMeshesNum];
    RunsAppend(Counts(runs), s.newMeshesNum);
    if !culled {
      NewMeshesAppend(names, runs, r, n, true);
    }
  }

  lemma FinishEmits(names: seq<string>, culled: bool, s: Layout)
    requires s.newMeshesNum != 0 && (culled || EmitMesh(names, s, s.j).Ok?)
    ensures Finish(names, culled, s) == Ok(Closed(if culled then s else EmitMesh(names, s, s.j).value, culled))
  {
  }

  /** Closing the last mesh after the intended loop: it is emitted when it has selected triangles. */
  lemma IntendedFinish(meshesLength: seq<int>, names: seq<string>, culled: bool, tris: seq<Triangle>, s: Layout)
    requires WellSized(meshesLength, names, tris) && 0 < |tris| && Open(meshesLength, names, culled, tris, |tris|, s, true)
    ensures Finish(names, culled, s).Ok?
    ensures var r := Finish(names, culled, s).value;
            var runs := SelectedMeshes(meshesLength, tris, culled, |meshesLength|);
            r.meshesIndex == |runs| &&
            r.attrIndex == (if culled then 0 else 2 * |runs|) &&
            Recorded(runs, culled, r) && r.out == Runs(Counts(runs)) &&
            r.byteLengthIndex == s.byteLengthIndex &&
            Named(names, runs, |meshesLength|, culled, true, r)
  {
    if s.newMeshesNum != 0 {
      IntendedFinishEmits(meshesLength, names, culled, tris, s);
    } else {
      IntendedFinishEmpty(meshesLength, names, culled, tris, s);
    }
  }

  /** The last mesh has selected triangles: closing it records one more run. */
  lemma IntendedFinishEmits(meshesLength: seq<int>, names: seq<string>, culled: bool, tris: seq<Triangle>, s: Layout)
    requires WellSized(meshesLength, names, tris) && 0 < |tris| && Open(meshesLength, names, culled, tris, |tris|, s, true)
    requires s.newMeshesNum != 0
    ensures Finish(names, culled, s).Ok?
    ensures var r := Finish(names, culled, s).value;
            var runs := SelectedMeshes(meshesLength, tris, culled, |meshesLength|);
            r.meshesIndex == |runs| &&
            r.attrIndex == (if culled then 0 else 2 * |runs|) &&
            Recorded(runs, culled, r) && r.out == Runs(Counts(runs)) &&
            r.byteLengthIndex == s.byteLengthIndex &&
            Named(names, runs, |meshesLength|, culled, true, r)
  {
    LastMeshOpen(meshesLength, names, culled, tris, s);
    SelectedMeshesNext(meshesLength, tris, culled, s.j);
    var runs := SelectedMeshes(meshesLength, tris, culled, s.j);
    FinishEmits(names, culled, s);
    ClosedRuns(names, runs, |meshesLength|, culled, s, Finish(names, culled, s).value);
  }

  /** The last mesh has no selected triangle: closing it changes nothing. */
  lemma IntendedFinishEmpty(meshesLength: seq<int>, names: seq<string>, culled: bool, tris: seq<Triangle>, s: Layout)
    requires WellSized(meshesLength, names, tris) && 0 < |tris| && Open(meshesLength, names, culled, tris, |tris|, s, true)
    requires s.newMeshesNum == 0
    ensures Finish(names, culled, s) == Ok(s)
    ensures var runs := SelectedMeshes(meshesLength, tris, culled, |meshesLength|);
            s.meshesIndex == |runs| &&
            s.attrIndex == (if culled then 0 else 2 * |runs|) &&
            Recorded(runs, culled, s) && s.out == Runs(Counts(runs)) &&
            Named(names, runs, |meshesLength|, culled, true, s)
  {
    LastMeshOpen(meshesLength, names, culled, tris, s);
    SelectedMeshesNext(meshesLength, tris, culled, s.j);
    var before := SelectedMeshes(meshesLength, tris, culled, s.j);
    assert CountIn(tris, Start(meshesLength, s.j), Start(meshesLength, s.j + 1), culled) == 0;
    assert SelectedMeshes(meshesLength, tris, culled, |meshesLength|) == before;
    assert Ascending(0) == [];
    assert s.out == Runs(Counts(before)) + [];
  }

  /**
   * The intended mesh loop, when every mesh has a triangle, the meshes hold
   * all the triangles and every mesh has a name: newmeshesLength holds the
   * selected-triangle count of each mesh that has one, in order; each such
   * mesh's indices run from 0; every emitted mesh is named after its own
   * mesh and holds the accessor pair 2m, 2m + 1; and the index bytes are
   * 12 per selected triangle, all of them covered by the recorded counts.
   */
  lemma IntendedMeshesCorrect(meshesLength: seq<int>, names: seq<string>, culled: bool, tris: seq<Triangle>)
    requires WellSized(meshesLength, names, tris)
    ensures IntendedMeshes(meshesLength, names, culled, tris).Ok?
    ensures var r := IntendedMeshes(meshesLength, names, culled, tris).value;
            var runs := SelectedMeshes(meshesLength, tris, culled, |meshesLength|);
            r.newmeshesLength == (if culled then [] else Counts(runs)) &&
            r.out == Runs(Counts(runs)) &&
            r.byteLengthIndex == 12 * Count(tris, culled) &&
            Total(Counts(runs)) == Count(tris, culled) &&
            r.meshesIndex == |runs| &&
            r.attrIndex == (if culled then 0 else 2 * |runs|) &&
            r.newMeshes == NewMeshesFrom(names, runs, |meshesLength|, culled, true)
  {
    CountInPrefix(tris, |tris|, culled);
    assert tris[..|tris|] == tris;
    SelectedMeshesTotal(meshesLength, tris, culled, |meshesLength|);
    if tris == [] {
      assert |meshesLength| == 0;
      assert NewMeshesFrom(names, [], 0, culled, true) == [];
    } else {
      LayoutOpen(meshesLength, names, culled, tris, |tris|, true);
      var s := LayoutAfter(meshesLength, names, culled, tris, |tris|, true).value;
      IntendedFinish(meshesLength, names, culled, tris, s);
    }
  }

  // ---------------------------------------------------------------------
  // The last iteration as written
  // ---------------------------------------------------------------------

  /** The tail of the last iteration before the indices: the open mesh's count is recorded. */
  function LastClosed(e: Layout, culled: bool): Layout {
    e.(trianglesN := e.trianglesN + 1,
       newmeshesLength := if culled then e.newmeshesLength else e.newmeshesLength + [e.newMeshesNum],
       newMeshesNum := 0)
  }

  /** The head of the last iteration: mesh j is emitted (or passed over) whether or not it is full. */
  function LastHead(names: seq<string>, culled: bool, s: Layout): Result<Layout> {
    if s.newMeshesNum == 0 then Ok(s.(flag := false, trianglesN := 0, j := s.j + 1))
    else if culled then Ok(s.(flag := false))
    else EmitMesh(names, s.(flag := false), s.meshesIndex)
  }

  /** The last iteration as written. */
  lemma StepLast(meshesLength: seq<int>, names: seq<string>, culled: bool, s: Layout, t: Triangle)
    requires 0 <= s.j < |meshesLength| && LastHead(names, culled, s).Ok?
    ensures var c := LastClosed(LastHead(names, culled, s).value, culled);
            Step(meshesLength, names, culled, s, t, true, false) == Ok(if Selected(t, culled) then Write(c) else c)
  {
  }

  /**
   * What the last iteration leaves: the open mesh's count is recorded
   * before its last triangle is counted, and that triangle's indices are
   * written after the count.
   */
  lemma LastRuns(names: seq<string>, runs: seq<Run>, culled: bool, s: Layout, w: Layout, selected: bool)
    requires IndexOut(runs, s) && Recorded(runs, culled, s) && s.k == 3 * s.newMeshesNum && s.newMeshesNum >= 0
    requires s.attrIndex == (if culled then 0 else 2 * |runs|)
    requires LastHead(names, culled, s).Ok?
    requires var c := LastClosed(LastHead(names, culled, s).value, culled);
             w == if selected then Write(c) else c
    ensures w.out == Runs(Counts(runs)) + Ascending(3 * (s.newMeshesNum + if selected then 1 else 0))
    ensures w.newmeshesLength == if culled then [] else Counts(runs) + [s.newMeshesNum]
    ensures w.byteLengthIndex == s.byteLengthIndex + (if selected then 12 else 0)
    ensures w.attrIndex == if culled then 0 else 2 * |runs| + (if s.newMeshesNum == 0 then 0 else 2)
  {
    if selected {
      AscendingNext(s.k);
    }
  }

  /** The loop as written ends with the iteration of the last triangle. */
  lemma MeshesLast(meshesLength: seq<int>, names: seq<string>, culled: bool, tris: seq<Triangle>, s: Layout)
    requires 0 < |tris| && LayoutAfter(meshesLength, names, culled, tris, |tris| - 1, false) == Ok(s)
    ensures Meshes(meshesLength, names, culled, tris) == Step(meshesLength, names, culled, s, tris[|tris| - 1], true, false)
  {
  }

  /** The counts left by the last iteration, in terms of the selected triangles. */
  lemma LastCounted(meshesLength: seq<int>, tris: seq<Triangle>, culled: bool, s: Layout, w: Layout)
    requires Positive(meshesLength) && 0 < |tris| && 0 <= s.j < |meshesLength|
    requires Start(meshesLength, s.j) <= |tris| - 1
    requires s.newMeshesNum == CountIn(tris, Start(meshesLength, s.j), |tris| - 1, culled)
    requires s.byteLengthIndex == 12 * CountIn(tris, 0, |tris| - 1, culled)
    requires var runs := SelectedMeshes(meshesLength, tris, culled, s.j);
             var selected := Selected(tris[|tris| - 1], culled);
             w.out == Runs(Counts(runs)) + Ascending(3 * (s.newMeshesNum + if selected then 1 else 0)) &&
             w.newmeshesLength == (if culled then [] else Counts(runs) + [s.newMeshesNum]) &&
             w.byteLengthIndex == s.byteLengthIndex + (if selected then 12 else 0) &&
             w.attrIndex == if culled then 0 else 2 * |runs| + (if s.newMeshesNum == 0 then 0 else 2)
    ensures w.byteLengthIndex == 12 * Count(tris, culled) && |w.out| == 3 * Count(tris, culled)
    ensures !culled ==> LastShort(w, if Selected(tris[|tris| - 1], culled) then 1 else 0, Count(tris, culled))
    ensures culled ==> CulledRuns(w.out, Counts(SelectedMeshes(meshesLength, tris, culled, s.j)), Count(tris, culled))
  {
    var runs := SelectedMeshes(meshesLength, tris, culled, s.j);
    var sel := if Selected(tris[|tris| - 1], culled) then 1 else 0;
    var cs := Counts(runs);
    LastTotals(meshesLength, tris, culled, s.j);
    assert Total(cs) + s.newMeshesNum + sel == Count(tris, culled);
    TailFacts(cs, s.newMeshesNum, sel, Count(tris, culled), culled, w);
  }

  /** The last iteration's output, in terms of the counts closed before it and the open mesh's count q. */
  lemma TailFacts(cs: seq<int>, q: int, sel: int, total: int, culled: bool, w: Layout)
    requires forall m :: 0 <= m < |cs| ==> cs[m] >= 1
    requires q >= 0 && 0 <= sel <= 1 && Total(cs) + q + sel == total
    requires w.out == Runs(cs) + Ascending(3 * (q + sel))
    requires w.newmeshesLength == (if culled then [] else cs + [q])
    requires w.attrIndex == if culled then 0 else 2 * |cs| + (if q == 0 then 0 else 2)
    ensures |w.out| == 3 * total
    ensures !culled ==> LastShort(w, sel, total)
    ensures culled ==> CulledRuns(w.out, cs, total)
  {
    RunsLength(cs);
    if !culled {
      KeptTail(cs, q, sel, total, w);
    } else {
      CulledTail(cs, q + sel, total, w.out);
    }
  }

  /** The culled pass's index words: the runs of cs, then p more triangles. */
  lemma CulledTail(cs: seq<int>, p: int, total: int, out: seq<Word>)
    requires forall m :: 0 <= m < |cs| ==> cs[m] >= 1
    requires out == Runs(cs) + Ascending(3 * p) && Total(cs) + p == total && p >= 0
    ensures CulledRuns(out, cs, total)
  {
  }

  /**
   * The kept pass's counts as the loop as written leaves them: every mesh
   * but the last is recorded with at least one triangle, the last mesh's
   * recorded count leaves out the last triangle (`sel` is 1 when that
   * triangle is selected) while its indices run over it, the counts add up
   * to `total` less `sel`, and a last mesh recorded with 0 triangles has no
   * accessors.
   */
  predicate LastShort(w: Layout, sel: int, total: int) {
    var nml := w.newmeshesLength;
    |nml| >= 1 && (forall m :: 0 <= m < |nml| - 1 ==> nml[m] >= 1) &&
    w.out == Runs(nml[..|nml| - 1]) + Ascending(3 * (nml[|nml| - 1] + sel)) &&
    Total(nml) + sel == total &&
    w.attrIndex == 2 * (|nml| - 1) + (if nml[|nml| - 1] == 0 then 0 else 2)
  }

  /**
   * The culled pass's index words as the loop as written leaves them: one
   * ascending run per count of cs, each of at least one triangle, then a
   * last run over the remaining triangles of `total`.
   */
  predicate CulledRuns(out: seq<Word>, cs: seq<int>, total: int) {
    (forall m :: 0 <= m < |cs| ==> cs[m] >= 1) && Total(cs) <= total &&
    out == Runs(cs) + Ascending(3 * (total - Total(cs)))
  }

  /** The recorded counts end with p, the open mesh's count, and the indices written run over p + sel triangles. */
  lemma KeptTail(cs: seq<int>, p: int, sel: int, total: int, w: Layout)
    requires forall m :: 0 <= m < |cs| ==> cs[m] >= 1
    requires w.newmeshesLength == cs + [p] && w.out == Runs(cs) + Ascending(3 * (p + sel))
    requires Total(cs) + p + sel == total && w.attrIndex == 2 * |cs| + (if p == 0 then 0 else 2)
    ensures LastShort(w, sel, total)
  {
    var nml := w.newmeshesLength;
    assert nml[..|nml| - 1] == cs;
    TotalAppend(cs, p);
  }

  /** The selected triangles: those of the meshes before j, of mesh j before the last triangle, and the last one. */
  lemma LastTotals(meshesLength: seq<int>, tris: seq<Triangle>, culled: bool, j: nat)
    requires Positive(meshesLength) && 0 < |tris| && j < |meshesLength| && Start(meshesLength, j) <= |tris| - 1
    ensures var sel := if Selected(tris[|tris| - 1], culled) then 1 else 0;
            CountIn(tris, 0, |tris| - 1, culled) + sel == Count(tris, culled) &&
            Total(Counts(SelectedMeshes(meshesLength, tris, culled, j))) + CountIn(tris, Start(meshesLength, j), |tris| - 1, culled) + sel ==
            Count(tris, culled)
  {
    var n := |tris|;
    SelectedMeshesTotal(meshesLength, tris, culled, j);
    CountInSplit(tris, 0, Start(meshesLength, j), n - 1, culled);
    CountInPrefix(tris, n, culled);
    assert tris[..n] == tris;
  }

  /**
   * The mesh loop as written, when every mesh has a triangle, the meshes
   * hold all the triangles and every mesh has a name. The index buffer
   * holds three indices and 12 bytes for every selected triangle, but in
   * the kept pass the count recorded for the last mesh leaves out the last
   * triangle: the recorded counts add up to one triangle short whenever
   * the last triangle is kept, while the last mesh's indices run over
   * that triangle. When the last mesh was counted 0 it gets no accessors
   * either. The culled pass's indices are ascending runs of at least one
   * triangle each, the last running over every remaining culled triangle.
   */
  lemma MeshesAsWritten(meshesLength: seq<int>, names: seq<string>, culled: bool, tris: seq<Triangle>)
    requires WellSized(meshesLength, names, tris) && 0 < |tris|
    ensures Meshes(meshesLength, names, culled, tris).Ok?
    ensures var r := Meshes(meshesLength, names, culled, tris).value;
            r.byteLengthIndex == 12 * Count(tris, culled) && |r.out| == 3 * Count(tris, culled)
    ensures !culled ==> LastShort(Meshes(meshesLength, names, culled, tris).value,
                                  if Selected(tris[|tris| - 1], culled) then 1 else 0, Count(tris, culled))
    ensures culled ==> exists cs :: CulledRuns(Meshes(meshesLength, names, culled, tris).value.out, cs, Count(tris, culled))
  {
    var n := |tris|;
    LayoutOpen(meshesLength, names, culled, tris, n - 1, false);
    var s := LayoutAfter(meshesLength, names, culled, tris, n - 1, false).value;
    EmitInRange(meshesLength, names, culled, tris, n - 1, s, false);
    var c := LastClosed(LastHead(names, culled, s).value, culled);
    var w := if Selected(tris[n - 1], culled) then Write(c) else c;
    LastStep(meshesLength, names, culled, tris, s, w);
    LastFacts(meshesLength, names, culled, tris, s, w);
  }

  /** The loop as written, from the state before its last iteration. */
  lemma LastStep(meshesLength: seq<int>, names: seq<string>, culled: bool, tris: seq<Triangle>, s: Layout, w: Layout)
    requires 0 < |tris| && LayoutAfter(meshesLength, names, culled, tris, |tris| - 1, false) == Ok(s)
    requires 0 <= s.j < |meshesLength| && LastHead(names, culled, s).Ok?
    requires var c := LastClosed(LastHead(names, culled, s).value, culled);
             w == if Selected(tris[|tris| - 1], culled) then Write(c) else c
    ensures Meshes(meshesLength, names, culled, tris) == Ok(w)
  {
    StepLast(meshesLength, names, culled, s, tris[|tris| - 1]);
    MeshesLast(meshesLength, names, culled, tris, s);
  }

  /** The state the last iteration leaves, from the Open state before it. */
  lemma LastFacts(meshesLength: seq<int>, names: seq<string>, culled: bool, tris: seq<Triangle>, s: Layout, w: Layout)
    requires WellSized(meshesLength, names, tris) && 0 < |tris| && Open(meshesLength, names, culled, tris, |tris| - 1, s, false)
    requires LastHead(names, culled, s).Ok?
    requires var c := LastClosed(LastHead(names, culled, s).value, culled);
             w == if Selected(tris[|tris| - 1], culled) then Write(c) else c
    ensures w.byteLengthIndex == 12 * Count(tris, culled) && |w.out| == 3 * Count(tris, culled)
    ensures !culled ==> LastShort(w, if Selected(tris[|tris| - 1], culled) then 1 else 0, Count(tris, culled))
    ensures culled ==> exists cs :: CulledRuns(w.out, cs, Count(tris, culled))
  {
    var runs := SelectedMeshes(meshesLength, tris, culled, s.j);
    LastRuns(names, runs, culled, s, w, Selected(tris[|tris| - 1], culled));
    LastCounted(meshesLength, tris, culled, s, w);
  }

  // ---------------------------------------------------------------------
  // Two inputs on which the loop as written and the intended loop differ
  // ---------------------------------------------------------------------

  /**
   * One mesh of one kept triangle: as written the triangle's three indices
   * and 12 bytes are written but the mesh is recorded with 0 triangles and
   * is never named or given accessors.
   */
  lemma LastTriangleUncounted(t: Triangle)
    requires !t.deleted
    ensures Meshes([1], ["m"], false, [t]).Ok?
    ensures var r := Meshes([1], ["m"], false, [t]).value;
            r.newmeshesLength == [0] && r.out == [IndexWord(0), IndexWord(1), IndexWord(2)] &&
            r.byteLengthIndex == 12 && r.attrIndex == 0 && r.newMeshes == [DEFAULT_NEW_MESH]
  {
    var s0 := StartLayout([1]);
    assert LayoutAfter([1], ["m"], false, [t], 0, false) == Ok(s0);
  }

  /** The same input under the intended loop: the mesh is recorded with its triangle, named and given accessors 0 and 1. */
  lemma LastTriangleCounted(t: Triangle)
    requires !t.deleted
    ensures IntendedMeshes([1], ["m"], false, [t]).Ok?
    ensures var r := IntendedMeshes([1], ["m"], false, [t]).value;
            r.newmeshesLength == [1] && r.out == [IndexWord(0), IndexWord(1), IndexWord(2)] &&
            r.byteLengthIndex == 12 && r.attrIndex == 2 && r.newMeshes == [Emitted(DEFAULT_NEW_MESH, "m", 0)]
  {
    var s0 := StartLayout([1]);
    assert LayoutAfter([1], ["m"], false, [t], 0, true) == Ok(s0);
  }

  /**
   * Three meshes of one triangle each, the first culled: as written the
   * first emitted mesh, which holds the triangle of mesh 1, is given the
   * name of mesh 0.
   */
  lemma NamesShiftAsWritten(t0: Triangle, t1: Triangle, t2: Triangle)
    requires t0.deleted && !t1.deleted && !t2.deleted
    ensures Meshes([1, 1, 1], ["a", "b", "c"], false, [t0, t1, t2]).Ok?
    ensures var r := Meshes([1, 1, 1], ["a", "b", "c"], false, [t0, t1, t2]).value;
            |r.newMeshes| == 3 && r.newMeshes[0].name == "a" && r.newmeshesLength == [1]
  {
    var L, names, tris := [1, 1, 1], ["a", "b", "c"], [t0, t1, t2];
    var s0 := StartLayout(L);
    assert LayoutAfter(L, names, false, tris, 0, false) == Ok(s0);
    var s1 := Step(L, names, false, s0, t0, false, false).value;
    assert LayoutAfter(L, names, false, tris, 1, false) == Ok(s1);
    var s2 := Step(L, names, false, s1, t1, false, false).value;
    assert LayoutAfter(L, names, false, tris, 2, false) == Ok(s2);
  }

  /** The same input under the intended loop: the emitted meshes are named after meshes 1 and 2. */
  lemma NamesFollowMeshes(t0: Triangle, t1: Triangle, t2: Triangle)
    requires t0.deleted && !t1.deleted && !t2.deleted
    ensures IntendedMeshes([1, 1, 1], ["a", "b", "c"], false, [t0, t1, t2]).Ok?
    ensures var r := IntendedMeshes([1, 1, 1], ["a", "b", "c"], false, [t0, t1, t2]).value;
            |r.newMeshes| == 3 && r.newMeshes[0].name == "b" && r.newMeshes[1].name == "c" && r.newmeshesLength == [1, 1]
  {
    var L, names, tris := [1, 1, 1], ["a", "b", "c"], [t0, t1, t2];
    var s0 := StartLayout(L);
    assert LayoutAfter(L, names, false, tris, 0, true) == Ok(s0);
    var s1 := Step(L, names, false, s0, t0, false, true).value;
    assert LayoutAfter(L, names, false, tris, 1, true) == Ok(s1);
    var s2 := Step(L, names, false, s1, t1, false, true).value;
    assert LayoutAfter(L, names, false, tris, 2, true) == Ok(s2);
    var s3 := Step(L, names, false, s2, t2, false, true).value;
    assert LayoutAfter(L, names, false, tris, 3, true) == Ok(s3);
    assert s3.newMeshes[0].name == "b" && s3.newMeshesNum == 1;
  }
}
