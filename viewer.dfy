/** The buffer construction of ModelViewer: the vertex and index arrays ImportModel builds
    from a model, and the index grid of the CreateWave sample. Everything OpenGL does with
    the buffers afterwards is outside this module. */
module Viewer {
  import opened Common
  import opened MeshModel
  import opened MeshNormals

  /** OpenTK vertex record: position, normal and colour. */
  datatype VertexTK = VertexTK(position: Vec3, normal: Vec3, color: Color4)

  /** default(VertexTK): what a freshly allocated vertex array holds. */
  const DefaultVertexTK: VertexTK := VertexTK(ZeroVec, ZeroVec, Color4(0.0, 0.0, 0.0, 0.0))

  // ---------------------------------------------------------------------------
  // ImportModel

  /** What ImportModel stores for vertex i: its position, its recalculated normal and the colour. */
  function ViewVertex(m: Mesh, i: int, normalize: Normalizer, color: Color4): VertexTK
    requires 0 <= i < |m.verticies|
  {
    VertexTK(Position(m.verticies[i]), QuadVertexNormal(m, i, normalize), color)
  }

  /** Every write of the index loop lands inside the 4-per-face index array: face i writes
      positions 4*i up to 4*i + its slot count. */
  predicate SlotsFit(fs: seq<MeshFace>) {
    forall i :: 0 <= i < |fs| ==> 4 * i + |fs[i].face| <= 4 * |fs|
  }

  /** What ImportModel needs to finish: every vertex normal can be recalculated and every
      slot write is in range. */
  predicate Viewable(m: Mesh) {
    && (forall k :: 0 <= k < |m.verticies| ==> RecalcResolves(m, k))
    && SlotsFit(m.faces)
  }

  /** Entry p of the index array once faces fs have written their slots: face i writes
      v_num - 1 of its slot j at 4*i + j, a later face overwrites an earlier one, and an
      entry nobody writes keeps 0. */
  function IndexAt(fs: seq<MeshFace>, p: int): int32
    decreases |fs|
  {
    if fs == [] then 0
    else
      var i := |fs| - 1;
      if 0 <= p - 4 * i < |fs[i].face| then Pred32(fs[i].face[p - 4 * i].vNum)
      else IndexAt(fs[..i], p)
  }

  /** One more face: its slots are written over what the earlier faces left. */
  lemma IndexAtSnoc(fs: seq<MeshFace>, i: int, p: int)
    requires 0 <= i < |fs|
    ensures IndexAt(fs[..i + 1], p) ==
              if 0 <= p - 4 * i < |fs[i].face| then Pred32(fs[i].face[p - 4 * i].vNum) else IndexAt(fs[..i], p)
  {
    assert fs[..i + 1][..i] == fs[..i];
  }

  predicate AtMostQuads(fs: seq<MeshFace>) {
    forall i :: 0 <= i < |fs| ==> |fs[i].face| <= 4
  }

  /** With at most four slots per face nothing is written past the faces' blocks. */
  lemma {:induction false} IndexAtBeyond(fs: seq<MeshFace>, p: int)
    requires AtMostQuads(fs) && p >= 4 * |fs|
    ensures IndexAt(fs, p) == 0
    decreases |fs|
  {
    if fs != [] {
      var i := |fs| - 1;
      assert AtMostQuads(fs[..i]);
      IndexAtBeyond(fs[..i], p);
    }
  }

  /** For faces of at most four slots, block i of the index array holds face i's vertex
      numbers minus one, followed by zeros where the face has fewer than four slots. */
  lemma {:induction false} QuadIndices(fs: seq<MeshFace>, i: int, j: int)
    requires AtMostQuads(fs) && 0 <= i < |fs| && 0 <= j < 4
    ensures IndexAt(fs, 4 * i + j) == if j < |fs[i].face| then Pred32(fs[i].face[j].vNum) else 0
    decreases |fs|
  {
    var n := |fs| - 1;
    assert AtMostQuads(fs[..n]);
    if i < n {
      assert fs[..n][i] == fs[i];
      QuadIndices(fs[..n], i, j);
    } else if j >= |fs[i].face| {
      IndexAtBeyond(fs[..n], 4 * i + j);
    }
  }

  /** When every slot names an existing vertex, every index entry is a vertex position. */
  lemma {:induction false} IndexAtInRange(fs: seq<MeshFace>, p: int, count: int)
    requires count >= 1
    requires forall i, j :: 0 <= i < |fs| && 0 <= j < |fs[i].face| ==> 1 <= fs[i].face[j].vNum <= count
    ensures 0 <= IndexAt(fs, p) < count
    decreases |fs|
  {
    if fs != [] {
      var i := |fs| - 1;
      if !(0 <= p - 4 * i < |fs[i].face|) {
        assert forall i' :: 0 <= i' < i ==> fs[..i][i'] == fs[i'];
        IndexAtInRange(fs[..i], p, count);
      }
    }
  }

  /** The viewer's buffers are no part of a model. */
  lemma VertexBufferOutside(model: Model, vs: array<VertexTK>)
    ensures vs !in model.Repr()
  {
  }

  lemma IndexBufferOutside(model: Model, idx: array<int32>)
    ensures idx !in model.Repr()
  {
  }

  // ---------------------------------------------------------------------------
  // CreateWave

  /** Corner k of the quad in row i, column j of a grid of `column` quads per row, counted
      anticlockwise from the top-left vertex, as an index into the (column + 1)-wide vertex grid. */
  function QuadCorner(column: int, i: int, j: int, k: int): int {
    if k == 0 then i * (column + 1) + j
    else if k == 1 then (i + 1) * (column + 1) + j
    else if k == 2 then (i + 1) * (column + 1) + j + 1
    else i * (column + 1) + j + 1
  }

  /** Entry p of the wave's index array: corner p % 4 of quad p / 4, quads numbered row by row. */
  function WaveIndex(column: int, p: int): int
    requires column >= 1
  {
    var q := p / 4;
    QuadCorner(column, q / column, q % column, p % 4)
  }

  lemma MulAtLeast(a: int, d: int)
    requires a >= 1 && d > 0
    ensures a * d >= d
  {
  }

  /** Multiplying by a non-negative number keeps an ordering. */
  lemma MulLe(a: int, b: int, c: int)
    requires a <= b && c >= 0
    ensures a * c <= b * c
  {
    if a < b {
      MulAtLeast(b - a, c + 1);
      assert (b - a) * c >= 0;
    }
  }

  /** Euclidean division is determined by quotient and remainder. */
  lemma DivMod(x: int, d: int, q: int, r: int)
    requires d > 0 && 0 <= r < d && x == q * d + r
    ensures x / d == q && x % d == r
  {
    var q', r' := x / d, x % d;
    assert (q - q') * d == r' - r;
    if q > q' {
      MulAtLeast(q - q', d);
    } else if q < q' {
      MulAtLeast(q' - q, d);
    }
  }

  /** Entry k of block i * column + j is corner k of quad (i, j). */
  lemma WaveQuad(column: int, i: int, j: int, k: int)
    requires column >= 1 && 0 <= i && 0 <= j < column && 0 <= k < 4
    ensures WaveIndex(column, (i * column + j) * 4 + k) == QuadCorner(column, i, j, k)
  {
    var q := i * column + j;
    DivMod(q * 4 + k, 4, q, k);
    DivMod(q, column, i, j);
  }

  /** The corners of quad (i, j) lie within the vertex grid of a row x column wave. */
  lemma QuadCornerInRange(row: int, column: int, i: int, j: int, k: int)
    requires column >= 1 && 0 <= i < row && 0 <= j < column
    ensures 0 <= QuadCorner(column, i, j, k) < (row + 1) * (column + 1)
  {
    var a := i * (column + 1);
    MulLe(0, i, column + 1);
    MulLe(i + 1, row, column + 1);
    assert (i + 1) * (column + 1) == a + column + 1;
    assert (row + 1) * (column + 1) == row * (column + 1) + column + 1;
  }

  /** Every index of the wave names one of its (row + 1) * (column + 1) vertices. */
  lemma WaveIndexInRange(row: int, column: int, p: int)
    requires row >= 1 && column >= 1 && 0 <= p < row * column * 4
    ensures 0 <= WaveIndex(column, p) < (row + 1) * (column + 1)
  {
    var q := p / 4;
    var i, j := q / column, q % column;
    assert q == i * column + j;
    if i >= row {
      MulLe(row, i, column);
    }
    QuadCornerInRange(row, column, i, j, p % 4);
  }

  /** Block i * column + j lies inside the wave's index array. */
  lemma WaveBlockInside(row: int, column: int, i: int, j: int)
    requires column >= 1 && 0 <= i < row && 0 <= j < column
    ensures 0 <= (i * column + j) * 4 && (i * column + j) * 4 + 4 <= row * column * 4
  {
    MulLe(0, i, column);
    MulLe(i + 1, row, column);
    assert (i + 1) * column == i * column + column;
  }

  /** The corners of quad (i, j) fit in 32 bits when the index array's size does. */
  lemma QuadCornersFit(row: int, column: int, i: int, j: int)
    requires row >= 1 && column >= 1 && row * column * 4 <= INT_MAX
    requires 0 <= i < row && 0 <= j < column
    ensures forall k :: 0 <= QuadCorner(column, i, j, k) <= INT_MAX
  {
    GridFits(row, column);
    forall k
      ensures 0 <= QuadCorner(column, i, j, k) <= INT_MAX
    {
      QuadCornerInRange(row, column, i, j, k);
    }
  }

  /** A grid of at least one quad has fewer vertices than its index array has entries. */
  lemma GridFits(row: int, column: int)
    requires row >= 1 && column >= 1
    ensures (row + 1) * (column + 1) <= row * column * 4
  {
    assert (row + 1) * (column + 1) == row * column + row + column + 1;
    MulLe(1, column, row);
    MulLe(1, row, column);
  }

  /** Vertex (i, j) of the wave sits at i * (column + 1) + j. */
  lemma WaveVertexAt(column: int, i: int, j: int)
    requires column >= 1 && 0 <= i && 0 <= j <= column
    ensures (i * (column + 1) + j) / (column + 1) == i && (i * (column + 1) + j) % (column + 1) == j
  {
    DivMod(i * (column + 1) + j, column + 1, i, j);
  }

  /** The vertex a wave places at grid point (i, j): the trigonometry and the clock are
      left abstract. */
  type WaveVertex = (int, int) -> VertexTK

  // ---------------------------------------------------------------------------
  // The viewer

  class ModelViewer {
    var vertices: array<VertexTK>
    var indices: array<int32>
    const modelColor: Color4 := Color4(1.0, 0.5, 0.5, 0.5)

    /** ModelViewer(): both buffers start empty. */
    constructor ()
      ensures vertices.Length == 0 && indices.Length == 0
    {
      vertices := new VertexTK[0];
      indices := new int32[0];
    }

    /** ModelViewer.ImportModel: a null model leaves the buffers as they are; otherwise one
        viewer vertex per model vertex and an index block of four per face, filled by the
        faces' slots. */
    method ImportModel(model: Model?, ghost m: Mesh, normalize: Normalizer)
      requires model != null ==> model.Valid() && model.Value() == m && Viewable(m)
      modifies this
      ensures model == null ==> vertices == old(vertices) && indices == old(indices)
      ensures model != null ==> && fresh(vertices) && fresh(indices)
                                && vertices.Length == |m.verticies|
                                && (forall i :: 0 <= i < |m.verticies| ==> vertices[i] == ViewVertex(m, i, normalize, modelColor))
                                && indices.Length == 4 * |m.faces|
                                && (forall p :: 0 <= p < 4 * |m.faces| ==> indices[p] == IndexAt(m.faces, p))
    {
      if model == null {
        return;
      }
      var vs := new VertexTK[model.Verticies.Length](_ => DefaultVertexTK);
      var idx := new int32[model.Faces.Length * 4](_ => 0);
      FillVertices(model, m, vs, normalize, modelColor);
      FillIndices(model.Faces, m.faces, idx);
      vertices, indices := vs, idx;
    }

    /** ModelViewer.CreateWave: fewer than one row or column leaves the buffers as they are;
        otherwise a (row + 1) x (column + 1) vertex grid and row * column quads over it. The
        source computes the sizes in 32-bit arithmetic, so they must fit. */
    method CreateWave(row: int32, column: int32, wave: WaveVertex)
      requires row >= 1 && column >= 1 ==> row * column * 4 <= INT_MAX
      modifies this
      ensures row < 1 || column < 1 ==> vertices == old(vertices) && indices == old(indices)
      ensures row >= 1 && column >= 1 ==>
                && fresh(vertices) && fresh(indices)
                && vertices.Length == (row + 1) * (column + 1)
                && (forall p :: 0 <= p < vertices.Length ==> vertices[p] == wave(p / (column + 1), p % (column + 1)))
                && indices.Length == row * column * 4
                && (forall p :: 0 <= p < indices.Length ==> indices[p] == WaveIndex(column, p))
    {
      if row < 1 || column < 1 {
        return;
      }
      GridFits(row, column);
      var vs := new VertexTK[(row + 1) * (column + 1)](_ => DefaultVertexTK);
      var idx := new int32[row * column * 4](_ => 0);
      vertices, indices := vs, idx;
      WaveVertices(vs, row, column, wave);
      WaveIndices(idx, row, column);
    }
  }

  /** The vertex loop of ImportModel. */
  method FillVertices(model: Model, ghost m: Mesh, vs: array<VertexTK>, normalize: Normalizer, color: Color4)
    requires model.Valid() && model.Value() == m && Viewable(m)
    requires vs.Length == |m.verticies|
    modifies vs
    ensures model.Valid() && model.Value() == m
    ensures forall i :: 0 <= i < vs.Length ==> vs[i] == ViewVertex(m, i, normalize, color)
  {
    for i := 0 to vs.Length
      invariant model.Valid() && model.Value() == m
      invariant forall k :: 0 <= k < i ==> vs[k] == ViewVertex(m, k, normalize, color)
    {
      SetViewVertex(model, m, vs, i, normalize, color);
    }
  }

  /** One step of the vertex loop: position, recalculated normal and colour of vertex i. */
  method SetViewVertex(model: Model, ghost m: Mesh, vs: array<VertexTK>, i: int, normalize: Normalizer, color: Color4)
    requires model.Valid() && model.Value() == m && RecalcResolves(m, i)
    requires vs.Length == |m.verticies|
    modifies vs
    ensures model.Valid() && model.Value() == m
    ensures vs[i] == ViewVertex(m, i, normalize, color)
    ensures forall k :: 0 <= k < vs.Length && k != i ==> vs[k] == old(vs[k])
  {
    var v := model.Verticies[i];
    var pos := Vec3(v.x, v.y, v.z);
    assert pos == Position(m.verticies[i]);
    var nor := RecalcNormal(model, m, i, normalize);
    VertexBufferOutside(model, vs);
    vs[i] := VertexTK(pos, nor, color);
  }

  /** The face loop of ImportModel. */
  method FillIndices(faces: array<Face>, ghost fs: seq<MeshFace>, idx: array<int32>)
    requires faces.Length == |fs| && SlotsFit(fs)
    requires forall k :: 0 <= k < faces.Length ==> faces[k].face != null && faces[k].face[..] == fs[k].face
    requires idx.Length == 4 * |fs| && forall p :: 0 <= p < idx.Length ==> idx[p] == 0
    modifies idx
    ensures forall p :: 0 <= p < idx.Length ==> idx[p] == IndexAt(fs, p)
  {
    for i := 0 to faces.Length
      invariant forall k :: 0 <= k < faces.Length ==> faces[k].face != null && faces[k].face[..] == fs[k].face
      invariant forall p :: 0 <= p < idx.Length ==> idx[p] == IndexAt(fs[..i], p)
    {
      var face := faces[i].face;
      FillFace(face, fs[i].face, idx, i);
      forall p | 0 <= p < idx.Length
        ensures idx[p] == IndexAt(fs[..i + 1], p)
      {
        IndexAtSnoc(fs, i, p);
      }
    }
    assert fs[..faces.Length] == fs;
  }

  /** The slot loop of ImportModel for face i: indices[i * 4 + j] = v_num - 1 for each slot j. */
  method FillFace(face: array<VertexNumber>, ghost slots: seq<VertexNumber>, idx: array<int32>, i: int)
    requires face[..] == slots && 0 <= i && 4 * i + face.Length <= idx.Length
    modifies idx
    ensures forall p :: 0 <= p < idx.Length ==>
              idx[p] == if 0 <= p - 4 * i < |slots| then Pred32(slots[p - 4 * i].vNum) else old(idx[p])
  {
    for j := 0 to face.Length
      invariant forall p :: 0 <= p < idx.Length ==>
                  idx[p] == if 0 <= p - 4 * i < j then Pred32(slots[p - 4 * i].vNum) else old(idx[p])
    {
      idx[i * 4 + j] := Pred32(face[j].vNum);
    }
  }

  /** The vertex loops of CreateWave: grid point (i, j) goes to i * (column + 1) + j. */
  method WaveVertices(vs: array<VertexTK>, row: int, column: int, wave: WaveVertex)
    requires row >= 1 && column >= 1 && vs.Length == (row + 1) * (column + 1)
    modifies vs
    ensures forall p :: 0 <= p < vs.Length ==> vs[p] == wave(p / (column + 1), p % (column + 1))
  {
    for i := 0 to row + 1
      invariant forall p :: 0 <= p < i * (column + 1) ==> vs[p] == wave(p / (column + 1), p % (column + 1))
    {
      ghost var start := i * (column + 1);
      MulLe(i, row, column + 1);
      assert (i + 1) * (column + 1) == start + column + 1 <= vs.Length;
      for j := 0 to column + 1
        invariant forall p :: 0 <= p < start + j ==> vs[p] == wave(p / (column + 1), p % (column + 1))
      {
        WaveVertexAt(column, i, j);
        vs[i * (column + 1) + j] := wave(i, j);
      }
    }
  }

  /** The index loops of CreateWave: quad (i, j) fills block i * column + j. */
  method WaveIndices(idx: array<int32>, row: int, column: int)
    requires row >= 1 && column >= 1 && idx.Length == row * column * 4 <= INT_MAX
    modifies idx
    ensures forall p :: 0 <= p < idx.Length ==> idx[p] == WaveIndex(column, p)
  {
    for i := 0 to row
      invariant forall p :: 0 <= p < i * column * 4 ==> idx[p] == WaveIndex(column, p)
    {
      ghost var start := i * column * 4;
      MulLe(i + 1, row, column);
      assert (i + 1) * column * 4 == start + column * 4 <= idx.Length;
      for j := 0 to column
        invariant forall p :: 0 <= p < start + j * 4 ==> idx[p] == WaveIndex(column, p)
      {
        ghost var b := (i * column + j) * 4;
        assert b == start + j * 4;
        WaveBlock(idx, row, column, i, j, b);
        forall p | b <= p < b + 4
          ensures idx[p] == WaveIndex(column, p)
        {
          assert p == b || p == b + 1 || p == b + 2 || p == b + 3;
        }
      }
    }
  }

  /** The four writes of quad (i, j). */
  method WaveBlock(idx: array<int32>, row: int, column: int, i: int, j: int, ghost b: int)
    requires row >= 1 && column >= 1 && idx.Length == row * column * 4 <= INT_MAX
    requires 0 <= i < row && 0 <= j < column && b == (i * column + j) * 4 && 0 <= b && b + 4 <= idx.Length
    modifies idx
    ensures idx[b] == WaveIndex(column, b) && idx[b + 1] == WaveIndex(column, b + 1)
    ensures idx[b + 2] == WaveIndex(column, b + 2) && idx[b + 3] == WaveIndex(column, b + 3)
    ensures forall p :: 0 <= p < idx.Length && !(b <= p < b + 4) ==> idx[p] == old(idx[p])
  {
    QuadCornersFit(row, column, i, j);
    WaveQuad(column, i, j, 0);
    WaveQuad(column, i, j, 1);
    WaveQuad(column, i, j, 2);
    WaveQuad(column, i, j, 3);
    idx[(i * column + j) * 4] := QuadCorner(column, i, j, 0);
    idx[(i * column + j) * 4 + 1] := QuadCorner(column, i, j, 1);
    idx[(i * column + j) * 4 + 2] := QuadCorner(column, i, j, 2);
    idx[(i * column + j) * 4 + 3] := QuadCorner(column, i, j, 3);
  }
}
