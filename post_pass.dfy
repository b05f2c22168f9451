/**
 * The pass after culling: the triangles the renderer kept (and, for the
 * second file, those it culled) are written out as a new binary buffer,
 * and the buffer views, accessors and meshes that describe that buffer
 * are laid out in the asset.
 *
 * Every `fout.write` appends one 4-byte item (a float or a uint32_t) to
 * the file's contents, which are a sequence of such items. The vertex
 * positions come from the scene's vertex list, read from the model file;
 * rendering has already set the deleted flags of the triangles.
 */
module PostPass {
  import opened Errors
  import opened Ints
  import opened Triangles
  import opened GltfTypes

  /** One 4-byte item written to a binary file. */
  datatype Word = FloatWord(x: real) | IndexWord(n: int)

  /**
   * The kept pass writes the triangles whose deleted flag is 0, the
   * culled pass those whose flag is set.
   */
  predicate Selected(t: Triangle, culled: bool) {
    t.deleted == culled
  }

  /** The number of triangles a pass writes. */
  function Count(tris: seq<Triangle>, culled: bool): (c: nat)
    ensures c <= |tris|
  {
    if tris == [] then 0
    else Count(tris[..|tris| - 1], culled) + (if Selected(tris[|tris| - 1], culled) then 1 else 0)
  }

  lemma CountAppend(tris: seq<Triangle>, t: Triangle, culled: bool)
    ensures Count(tris + [t], culled) == Count(tris, culled) + (if Selected(t, culled) then 1 else 0)
  {
    assert (tris + [t])[..|tris|] == tris;
  }

  /** Every triangle is written by exactly one of the two passes. */
  lemma {:induction false} CountsPartition(tris: seq<Triangle>)
    ensures Count(tris, false) + Count(tris, true) == |tris|
    decreases |tris|
  {
    if tris != [] {
      CountsPartition(tris[..|tris| - 1]);
    }
  }

  // ---------------------------------------------------------------------
  // The vertex data
  // ---------------------------------------------------------------------

  /** Every vertex index of every triangle addresses the vertex list. */
  predicate InRange(tris: seq<Triangle>, vertices: nat) {
    forall i :: 0 <= i < |tris| ==>
      0 <= tris[i].indexA < vertices && 0 <= tris[i].indexB < vertices && 0 <= tris[i].indexC < vertices
  }

  function Coords(p: Vec3): seq<Word> {
    [FloatWord(p.x), FloatWord(p.y), FloatWord(p.z)]
  }

  /** The nine floats of one triangle: the positions of its vertices a, b and c. */
  function TriangleWords(t: Triangle, positions: seq<Vec3>): (w: seq<Word>)
    requires 0 <= t.indexA < |positions| && 0 <= t.indexB < |positions| && 0 <= t.indexC < |positions|
  {
    Coords(positions[t.indexA]) + Coords(positions[t.indexB]) + Coords(positions[t.indexC])
  }

  /** The vertex data a pass writes: nine floats per selected triangle, in triangle order. */
  function VertexWords(tris: seq<Triangle>, positions: seq<Vec3>, culled: bool): (w: seq<Word>)
    requires InRange(tris, |positions|)
    ensures |w| == 9 * Count(tris, culled)
  {
    if tris == [] then []
    else
      var t := tris[|tris| - 1];
      assert InRange(tris[..|tris| - 1], |positions|);
      VertexWords(tris[..|tris| - 1], positions, culled) + (if Selected(t, culled) then TriangleWords(t, positions) else [])
  }

  /**
   * The floats written for the selected triangle at position `i`: its
   * nine floats follow those of the selected triangles before it.
   */
  lemma {:induction false} VertexWordsAt(tris: seq<Triangle>, positions: seq<Vec3>, culled: bool, i: nat)
    requires InRange(tris, |positions|) && i < |tris| && Selected(tris[i], culled)
    ensures 9 * Count(tris[..i], culled) + 9 <= |VertexWords(tris, positions, culled)|
    ensures VertexWords(tris, positions, culled)[9 * Count(tris[..i], culled)..9 * Count(tris[..i], culled) + 9] ==
            TriangleWords(tris[i], positions)
    decreases |tris|
  {
    var front := tris[..|tris| - 1];
    assert InRange(front, |positions|);
    if i == |tris| - 1 {
      VertexWordsLast(tris, positions, culled);
    } else {
      VertexWordsAt(front, positions, culled, i);
      assert front[..i] == tris[..i];
      VertexWordsBefore(tris, positions, culled, i);
    }
  }

  /** The last triangle, when selected, is written last. */
  lemma VertexWordsLast(tris: seq<Triangle>, positions: seq<Vec3>, culled: bool)
    requires InRange(tris, |positions|) && 0 < |tris| && Selected(tris[|tris| - 1], culled)
    ensures var c := 9 * Count(tris[..|tris| - 1], culled);
            c + 9 <= |VertexWords(tris, positions, culled)| &&
            VertexWords(tris, positions, culled)[c..c + 9] == TriangleWords(tris[|tris| - 1], positions)
  {
    var front := tris[..|tris| - 1];
    assert InRange(front, |positions|);
    var words, lastWords := VertexWords(front, positions, culled), TriangleWords(tris[|tris| - 1], positions);
    assert VertexWords(tris, positions, culled) == words + lastWords;
    SliceTail(words, lastWords);
  }

  /** The floats of a triangle before the last are not moved by the last one. */
  lemma VertexWordsBefore(tris: seq<Triangle>, positions: seq<Vec3>, culled: bool, i: nat)
    requires InRange(tris, |positions|) && i < |tris| - 1
    requires InRange(tris[..|tris| - 1], |positions|)
    requires var c := 9 * Count(tris[..i], culled);
             c + 9 <= |VertexWords(tris[..|tris| - 1], positions, culled)| &&
             VertexWords(tris[..|tris| - 1], positions, culled)[c..c + 9] == TriangleWords(tris[i], positions)
    ensures var c := 9 * Count(tris[..i], culled);
            c + 9 <= |VertexWords(tris, positions, culled)| &&
            VertexWords(tris, positions, culled)[c..c + 9] == TriangleWords(tris[i], positions)
  {
    var front := tris[..|tris| - 1];
    var last := tris[|tris| - 1];
    var words := VertexWords(front, positions, culled);
    var lastWords := if Selected(last, culled) then TriangleWords(last, positions) else [];
    assert VertexWords(tris, positions, culled) == words + lastWords;
    var c := 9 * Count(tris[..i], culled);
    SliceBefore(words, lastWords, c, c + 9);
  }

  /** The second part of a concatenation, sliced back out. */
  lemma SliceTail<T>(a: seq<T>, b: seq<T>)
    ensures (a + b)[|a|..|a| + |b|] == b
  {
  }

  /** A slice within the first part of a concatenation. */
  lemma SliceBefore<T>(a: seq<T>, b: seq<T>, lo: nat, hi: nat)
    requires lo <= hi <= |a|
    ensures (a + b)[lo..hi] == a[lo..hi]
  {
  }

  /** A selected triangle at position `i` has the selected triangles before it, and itself, within the count. */
  lemma {:induction false} CountPrefix(tris: seq<Triangle>, culled: bool, i: nat)
    requires i < |tris| && Selected(tris[i], culled)
    ensures Count(tris[..i], culled) + 1 <= Count(tris, culled)
    decreases |tris|
  {
    if i < |tris| - 1 {
      CountPrefix(tris[..|tris| - 1], culled, i);
      assert tris[..|tris| - 1][..i] == tris[..i];
    } else {
      assert tris[..|tris| - 1] == tris[..i];
    }
  }

  /** The vertex data written for the first `i` triangles. */
  function WordsUpTo(tris: seq<Triangle>, positions: seq<Vec3>, culled: bool, i: nat): (w: seq<Word>)
    requires InRange(tris, |positions|) && i <= |tris|
  {
    assert InRange(tris[..i], |positions|);
    VertexWords(tris[..i], positions, culled)
  }

  /** The first loop, one triangle further: its nine floats are appended when it is selected. */
  lemma VertexWordsAppend(tris: seq<Triangle>, positions: seq<Vec3>, culled: bool, i: nat)
    requires InRange(tris, |positions|) && i < |tris|
    ensures WordsUpTo(tris, positions, culled, i + 1) ==
            WordsUpTo(tris, positions, culled, i) + (if Selected(tris[i], culled) then TriangleWords(tris[i], positions) else [])
    ensures Count(tris[..i + 1], culled) == Count(tris[..i], culled) + (if Selected(tris[i], culled) then 1 else 0)
  {
    assert tris[..i + 1][..i] == tris[..i];
  }

  /** All the triangles. */
  lemma WordsUpToAll(tris: seq<Triangle>, positions: seq<Vec3>, culled: bool)
    requires InRange(tris, |positions|)
    ensures WordsUpTo(tris, positions, culled, |tris|) == VertexWords(tris, positions, culled)
    ensures Count(tris[..|tris|], culled) == Count(tris, culled)
  {
    assert tris[..|tris|] == tris;
  }

  /** The body of the first loop for one selected triangle: its nine floats are appended. */
  method WriteTriangle(out: seq<Word>, t: Triangle, positions: seq<Vec3>) returns (out': seq<Word>)
    requires 0 <= t.indexA < |positions| && 0 <= t.indexB < |positions| && 0 <= t.indexC < |positions|
    ensures out' == out + TriangleWords(t, positions)
  {
    var a, b, c := positions[t.indexA], positions[t.indexB], positions[t.indexC];
    out' := out + [FloatWord(a.x), FloatWord(a.y), FloatWord(a.z)];
    out' := out' + [FloatWord(b.x), FloatWord(b.y), FloatWord(b.z)];
    out' := out' + [FloatWord(c.x), FloatWord(c.y), FloatWord(c.z)];
  }

  /**
   * The first loop of a pass: for every selected triangle, the x, y and z
   * of its vertices a, b and c are written, and the vertex byte length
   * grows by 36.
   */
  method WriteVertices(tris: seq<Triangle>, positions: seq<Vec3>, culled: bool) returns (out: seq<Word>, byteLength: int)
    requires InRange(tris, |positions|)
    ensures out == VertexWords(tris, positions, culled)
    ensures byteLength == 36 * Count(tris, culled)
  {
    out, byteLength := [], 0;
    var i := 0;
    while i < |tris|
      invariant 0 <= i <= |tris|
      invariant out == WordsUpTo(tris, positions, culled, i)
      invariant byteLength == 36 * Count(tris[..i], culled)
    {
      VertexWordsAppend(tris, positions, culled, i);
      if Selected(tris[i], culled) {
        out := WriteTriangle(out, tris[i], positions);
        byteLength := byteLength + 36;
      }
      i := i + 1;
    }
    WordsUpToAll(tris, positions, culled);
  }
}
