/** Random3DModel.cs: displacing a mesh along its vertex normals by a height map, and the
    object that holds the source model, the height map and the result. */
module Displacement {
  import opened Common
  import opened MeshModel
  import opened ObjImport
  import opened ObjExport
  import opened MeshNormals

  /** A decoded height map: its size and the blue channel of every pixel, row by row
      (`blue[y][x]` is the blue component of Bitmap.GetPixel(x, y)). */
  datatype Bitmap = Bitmap(width: int, height: int, blue: seq<seq<byte>>)

  /** A .NET bitmap has at least one pixel, and every row is as wide as the image. */
  predicate WellFormed(bm: Bitmap) {
    && bm.width >= 1 && bm.height >= 1 && |bm.blue| == bm.height
    && forall y :: 0 <= y < |bm.blue| ==> |bm.blue[y]| == bm.width
  }

  /** The (int) cast of a double: truncation toward zero. */
  function Trunc(r: real): int {
    if r >= 0.0 then r.Floor else -((-r).Floor)
  }

  /** The % operator on doubles: the remainder of truncated division, with the sign of x. */
  function FMod(x: real, n: real): real
    requires n != 0.0
  {
    x - n * (Trunc(x / n) as real)
  }

  /** The column ApplyHeightMap samples for texture coordinate t: (int)(v * Width % Width). */
  function PixelX(bm: Bitmap, t: Texcoord): int
    requires bm.width != 0
  {
    Trunc(FMod(t.v * (bm.width as real), bm.width as real))
  }

  /** The row it samples: Height - (int)(u * (Height - 1) % Height) - 1. */
  function PixelY(bm: Bitmap, t: Texcoord): int
    requires bm.height != 0
  {
    bm.height - Trunc(FMod(t.u * ((bm.height - 1) as real), bm.height as real)) - 1
  }

  /** GetPixel accepts the coordinates (it throws for a pixel outside the image). */
  predicate PixelInRange(bm: Bitmap, t: Texcoord)
    requires WellFormed(bm)
  {
    0 <= PixelX(bm, t) < bm.width && 0 <= PixelY(bm, t) < bm.height
  }

  /** pixel.B for texture coordinate t. */
  function BlueAt(bm: Bitmap, t: Texcoord): byte
    requires WellFormed(bm) && PixelInRange(bm, t)
  {
    bm.blue[PixelY(bm, t)][PixelX(bm, t)]
  }

  // ---------------------------------------------------------------------------
  // ApplyHeightMap

  /** Vertex i has a first back-reference, whose slot names a stored texture coordinate. */
  predicate TexcoordResolves(m: Mesh, i: int) {
    0 <= i < |m.verticies| && |m.verticies[i].faces| >= 1 &&
    var p := m.verticies[i].faces[0];
    && 0 <= p.x < |m.faces| && 0 <= p.y < |m.faces[p.x].face|
    && 1 <= m.faces[p.x].face[p.y].tNum <= |m.texcoords|
  }

  /** The texture coordinate of vertex i: the one its first back-reference's slot names. */
  function TexcoordOf(m: Mesh, i: int): Texcoord
    requires TexcoordResolves(m, i)
  {
    var p := m.verticies[i].faces[0];
    m.texcoords[m.faces[p.x].face[p.y].tNum - 1]
  }

  /** Everything ApplyHeightMap reads for vertex i is present, and the pixel it samples lies
      inside the height map. */
  predicate VertexDisplaceable(m: Mesh, bm: Bitmap, i: int) {
    && WellFormed(bm) && TexcoordResolves(m, i) && VertexNormalResolves(m, i)
    && PixelInRange(bm, TexcoordOf(m, i))
  }

  /** ApplyHeightMap can read everything it needs, for every vertex. */
  predicate Displaceable(m: Mesh, bm: Bitmap) {
    && WellFormed(bm)
    && forall i :: 0 <= i < |m.verticies| ==> VertexDisplaceable(m, bm, i)
  }

  /** The normal ApplyHeightMap moves vertex i along (CalcAllVertexNormal). */
  function VertexNormal(m: Mesh, i: int, normalize: Normalizer): Vec3
    requires 0 <= i < |m.verticies|
  {
    normalize(SumOver(m.verticies[i].faces, StoredNormalAt(m)))
  }

  /** One coordinate c moved along normal component n by b/255 times height
      (`mdl.Verticies[i].x + normal.X * pixel.B / 255.0 * height`). */
  function Offset(c: real, n: real, b: byte, height: real): real {
    c + n * (b as real) / 255.0 * height
  }

  /** Vertex v moved along n by b/255 times height. */
  function Lift(v: MeshVertex, n: Vec3, b: byte, height: real): MeshVertex {
    v.(x := Offset(v.x, n.x, b, height), y := Offset(v.y, n.y, b, height), z := Offset(v.z, n.z, b, height))
  }

  /** Vertex i of m as ApplyHeightMap leaves it. */
  function Moved(m: Mesh, i: int, bm: Bitmap, height: real, normalize: Normalizer): MeshVertex
    requires VertexDisplaceable(m, bm, i)
  {
    Lift(m.verticies[i], VertexNormal(m, i, normalize), BlueAt(bm, TexcoordOf(m, i)), height)
  }

  /** The mesh ApplyHeightMap returns for m. */
  function Displaced(m: Mesh, bm: Bitmap, height: real, normalize: Normalizer): Mesh
    requires Displaceable(m, bm)
  {
    m.(verticies := seq(|m.verticies|, i requires 0 <= i < |m.verticies| => Moved(m, i, bm, height, normalize)))
  }

  lemma DisplacedVertex(m: Mesh, bm: Bitmap, height: real, normalize: Normalizer, i: int)
    requires Displaceable(m, bm) && 0 <= i < |m.verticies|
    ensures Displaced(m, bm, height, normalize).verticies[i] == Moved(m, i, bm, height, normalize)
  {
  }

  /** Random3DModel.ApplyHeightMap: a fresh deep copy of mdl whose vertex positions are moved;
      mdl itself is not written (the method modifies nothing that existed before). */
  method ApplyHeightMap(mdl: Model, hmap: Bitmap, height: real, normalize: Normalizer) returns (result: Model)
    requires mdl.Valid() && Displaceable(mdl.Value(), hmap)
    ensures mdl.Valid() && mdl.Value() == old(mdl.Value())
    ensures fresh(result) && result.Valid()
    ensures fresh(result.Verticies) && fresh(result.Texcoords) && fresh(result.Normals) && fresh(result.Faces)
    ensures forall k :: 0 <= k < result.Verticies.Length ==> fresh(result.Verticies[k].faces)
    ensures forall k :: 0 <= k < result.Faces.Length ==> fresh(result.Faces[k].face)
    ensures result.Value() == Displaced(mdl.Value(), hmap, height, normalize)
  {
    ghost var m := mdl.Value();
    result := new Model.Copy(mdl);
    assert mdl.Value() == m;
    DisplaceCopy(mdl, hmap, result, height, normalize);
  }

  /** The part of ApplyHeightMap after the copy: the copy's vertex positions are moved, so that
      it denotes the displaced mesh; no array of the copy is replaced. */
  method DisplaceCopy(mdl: Model, hmap: Bitmap, result: Model, height: real, normalize: Normalizer)
    requires mdl.Valid() && Displaceable(mdl.Value(), hmap)
    requires result.Valid() && result.Value() == mdl.Value() && result.Verticies != mdl.Verticies
    modifies result.Verticies
    ensures mdl.Valid() && mdl.Value() == old(mdl.Value())
    ensures result.Valid() && result.Value() == Displaced(mdl.Value(), hmap, height, normalize)
    ensures forall k :: 0 <= k < result.Verticies.Length ==> result.Verticies[k].faces == old(result.Verticies[k].faces)
  {
    ghost var m := mdl.Value();
    OtherVertexArray(mdl, result.Verticies);
    MoveVerticies(mdl, hmap, result.Verticies, height, normalize);
    assert mdl.Value() == m;
    DisplacedValue(result, m, hmap, height, normalize);
  }

  /** The only vertex array among the objects of a model is its own. */
  lemma OtherVertexArray(mdl: Model, vs: array<Vertex>)
    requires vs != mdl.Verticies
    ensures vs !in mdl.Repr()
  {
  }

  /** The loop of ApplyHeightMap, over the vertex array of the copy: every position is moved,
      every colour and back-reference array is kept. */
  method MoveVerticies(mdl: Model, bm: Bitmap, vs: array<Vertex>, height: real, normalize: Normalizer)
    requires mdl.Valid() && Displaceable(mdl.Value(), bm)
    requires vs.Length == mdl.Verticies.Length && vs !in mdl.Repr()
    modifies vs
    ensures mdl.Valid() && mdl.Value() == old(mdl.Value())
    ensures forall k :: 0 <= k < vs.Length ==>
      && vs[k].faces == old(vs[k].faces) && vs[k].c == old(vs[k].c)
      && PositionOf(vs[k]) == MovedPositions(mdl.Value(), bm, height, normalize, vs.Length)[k]
  {
    ghost var m := mdl.Value();
    ghost var targets := MovedPositions(m, bm, height, normalize, vs.Length);
    for i := 0 to vs.Length
      invariant mdl.Valid() && mdl.Value() == m && vs !in mdl.Repr()
      invariant forall k :: 0 <= k < vs.Length ==> vs[k].faces == old(vs[k].faces) && vs[k].c == old(vs[k].c)
      invariant forall k :: 0 <= k < i ==> PositionOf(vs[k]) == targets[k]
    {
      MoveVertex(mdl, m, targets, bm, vs, i, height, normalize);
    }
  }

  /** One pass of ApplyHeightMap's loop: vertex i of the copy gets its moved position. */
  method MoveVertex(mdl: Model, ghost m: Mesh, ghost targets: seq<Vec3>, bm: Bitmap, vs: array<Vertex>,
                    i: int, height: real, normalize: Normalizer)
    requires mdl.Valid() && mdl.Value() == m && Displaceable(m, bm) && 0 <= i < vs.Length == |m.verticies|
    requires targets == MovedPositions(m, bm, height, normalize, |m.verticies|)
    requires vs !in mdl.Repr()
    modifies vs
    ensures mdl.Valid() && mdl.Value() == m && vs !in mdl.Repr()
    ensures vs[i] == old(vs[i]).(x := targets[i].x, y := targets[i].y, z := targets[i].z)
    ensures forall k :: 0 <= k < vs.Length && k != i ==> vs[k] == old(vs[k])
  {
    var x, y, z := MovedTarget(mdl, m, targets, bm, i, height, normalize);
    SetPosition(mdl, m, vs, i, x, y, z);
  }

  /** The write of ApplyHeightMap's loop: vertex i of the copy gets position (x, y, z). The
      copy is disjoint from mdl, whose value the write leaves alone. */
  method SetPosition(mdl: Model, ghost m: Mesh, vs: array<Vertex>, i: int, x: real, y: real, z: real)
    requires mdl.Valid() && mdl.Value() == m && vs !in mdl.Repr() && 0 <= i < vs.Length
    modifies vs
    ensures mdl.Valid() && mdl.Value() == m && vs !in mdl.Repr()
    ensures vs[i] == old(vs[i]).(x := x, y := y, z := z)
    ensures forall k :: 0 <= k < vs.Length && k != i ==> vs[k] == old(vs[k])
  {
    vs[i] := vs[i].(x := x, y := y, z := z);
  }

  /** The moved position of vertex i, as listed in targets. */
  method MovedTarget(mdl: Model, ghost m: Mesh, ghost targets: seq<Vec3>, bm: Bitmap, i: int, height: real, normalize: Normalizer)
    returns (x: real, y: real, z: real)
    requires mdl.Valid() && mdl.Value() == m && Displaceable(m, bm) && 0 <= i < |m.verticies|
    requires targets == MovedPositions(m, bm, height, normalize, |m.verticies|)
    ensures Vec3(x, y, z) == targets[i]
  {
    assert VertexDisplaceable(m, bm, i);
    var t := SampledTexcoord(mdl, m, i);
    var b := bm.blue[PixelY(bm, t)][PixelX(bm, t)];
    x, y, z := LiftedPosition(mdl, m, i, b, height, normalize);
    assert Vec3(x, y, z) == Position(Moved(m, i, bm, height, normalize));
  }

  /** The positions of the first n vertices after ApplyHeightMap. */
  ghost function MovedPositions(m: Mesh, bm: Bitmap, height: real, normalize: Normalizer, n: nat): (r: seq<Vec3>)
    requires Displaceable(m, bm) && n <= |m.verticies|
    ensures |r| == n
    ensures forall k {:trigger Moved(m, k, bm, height, normalize)} :: 0 <= k < n ==> r[k] == Position(Moved(m, k, bm, height, normalize))
  {
    if n == 0 then [] else MovedPositions(m, bm, height, normalize, n - 1) + [Position(Moved(m, n - 1, bm, height, normalize))]
  }

  /** The texture coordinate ApplyHeightMap reads for vertex i: the one named by the slot of
      the vertex's first back-reference. */
  method SampledTexcoord(mdl: Model, ghost m: Mesh, i: int) returns (t: Texcoord)
    requires mdl.Valid() && mdl.Value() == m && TexcoordResolves(m, i)
    ensures mdl.Valid() && mdl.Value() == m
    ensures t == TexcoordOf(m, i)
  {
    assert mdl.Verticies[i].faces[..] == m.verticies[i].faces;
    var faceindex := mdl.Verticies[i].faces[0];
    assert mdl.Faces[faceindex.x].face[..] == m.faces[faceindex.x].face;
    var texcoordNumber := mdl.Faces[faceindex.x].face[faceindex.y].tNum - 1;
    t := mdl.Texcoords[texcoordNumber];
  }

  /** The new position of vertex i for blue channel b: the source position moved along the
      vertex normal (CalcAllVertexNormal) by b / 255 * height. */
  method LiftedPosition(mdl: Model, ghost m: Mesh, i: int, b: byte, height: real, normalize: Normalizer)
    returns (x: real, y: real, z: real)
    requires mdl.Valid() && mdl.Value() == m && VertexNormalResolves(m, i)
    ensures Vec3(x, y, z) == Position(Lift(m.verticies[i], VertexNormal(m, i, normalize), b, height))
  {
    var v := mdl.Verticies[i];
    assert v.x == m.verticies[i].x && v.y == m.verticies[i].y && v.z == m.verticies[i].z;
    var normal := CalcAllVertexNormal(mdl, m, i, normalize);
    x := Offset(v.x, normal.x, b, height);
    y := Offset(v.y, normal.y, b, height);
    z := Offset(v.z, normal.z, b, height);
  }

  /** After the loop of ApplyHeightMap: a copy of m whose positions are those of the displaced mesh
      has the displaced mesh as its value. */
  lemma DisplacedValue(result: Model, m: Mesh, bm: Bitmap, height: real, normalize: Normalizer)
    requires result.Valid() && Displaceable(m, bm)
    requires result.Verticies.Length == |m.verticies|
    requires result.Value().texcoords == m.texcoords && result.Value().normals == m.normals
    requires result.Value().faces == m.faces
    requires forall k :: 0 <= k < |m.verticies| ==>
      && result.Verticies[k].faces[..] == m.verticies[k].faces && result.Verticies[k].c == m.verticies[k].c
      && PositionOf(result.Verticies[k]) == MovedPositions(m, bm, height, normalize, |m.verticies|)[k]
    ensures result.Value() == Displaced(m, bm, height, normalize)
  {
    var d := Displaced(m, bm, height, normalize);
    forall k | 0 <= k < |m.verticies|
      ensures result.Value().verticies[k] == d.verticies[k]
    {
      DisplacedVertex(m, bm, height, normalize, k);
    }
  }

  // ---------------------------------------------------------------------------
  // What displacement keeps and when it moves nothing

  /** Only positions change: the same texture coordinates, normals and faces, and every vertex
      keeps its colour and its back-references. */
  lemma DisplacedKeeps(m: Mesh, bm: Bitmap, height: real, normalize: Normalizer)
    requires Displaceable(m, bm)
    ensures var d := Displaced(m, bm, height, normalize);
      && d.texcoords == m.texcoords && d.normals == m.normals && d.faces == m.faces
      && |d.verticies| == |m.verticies|
      && forall i :: 0 <= i < |m.verticies| ==>
           d.verticies[i].c == m.verticies[i].c && d.verticies[i].faces == m.verticies[i].faces
  {
    forall i | 0 <= i < |m.verticies| {
      DisplacedVertex(m, bm, height, normalize, i);
    }
  }

  /** Each displaced position is the source position plus (normal * B / 255 * height), where the
      normal is CalcAllVertexNormal's and B the blue channel at the vertex's texture coordinate. */
  lemma DisplacedPosition(m: Mesh, bm: Bitmap, height: real, normalize: Normalizer, i: int)
    requires Displaceable(m, bm) && 0 <= i < |m.verticies| && VertexDisplaceable(m, bm, i)
    ensures var n, b := VertexNormal(m, i, normalize), BlueAt(bm, TexcoordOf(m, i)) as real;
      Position(Displaced(m, bm, height, normalize).verticies[i]) ==
      Add(Position(m.verticies[i]), Vec3(n.x * b / 255.0 * height, n.y * b / 255.0 * height, n.z * b / 255.0 * height))
  {
    DisplacedVertex(m, bm, height, normalize, i);
    var v, n, b := m.verticies[i], VertexNormal(m, i, normalize), BlueAt(bm, TexcoordOf(m, i));
    assert Moved(m, i, bm, height, normalize) == Lift(v, n, b, height);
    assert Offset(v.x, n.x, b, height) == v.x + n.x * (b as real) / 255.0 * height;
    assert Offset(v.y, n.y, b, height) == v.y + n.y * (b as real) / 255.0 * height;
    assert Offset(v.z, n.z, b, height) == v.z + n.z * (b as real) / 255.0 * height;
  }

  /** A height of 0 moves nothing. */
  lemma ZeroHeightKeepsMesh(m: Mesh, bm: Bitmap, normalize: Normalizer)
    requires Displaceable(m, bm)
    ensures Displaced(m, bm, 0.0, normalize) == m
  {
    var d := Displaced(m, bm, 0.0, normalize);
    forall i | 0 <= i < |m.verticies|
      ensures d.verticies[i] == m.verticies[i]
    {
      DisplacedVertex(m, bm, 0.0, normalize, i);
    }
  }

  /** A vertex whose texture coordinate samples a blue channel of 0 does not move; so a map
      that is 0 in the blue channel everywhere moves nothing. */
  lemma BlackPixelKeepsVertex(m: Mesh, bm: Bitmap, height: real, normalize: Normalizer, i: int)
    requires Displaceable(m, bm) && 0 <= i < |m.verticies| && VertexDisplaceable(m, bm, i)
    requires BlueAt(bm, TexcoordOf(m, i)) == 0
    ensures Displaced(m, bm, height, normalize).verticies[i] == m.verticies[i]
  {
    DisplacedVertex(m, bm, height, normalize, i);
  }

  lemma BlackMapKeepsMesh(m: Mesh, bm: Bitmap, height: real, normalize: Normalizer)
    requires Displaceable(m, bm)
    requires forall y, x :: 0 <= y < |bm.blue| && 0 <= x < |bm.blue[y]| ==> bm.blue[y][x] == 0
    ensures Displaced(m, bm, height, normalize) == m
  {
    var d := Displaced(m, bm, height, normalize);
    forall i | 0 <= i < |m.verticies|
      ensures d.verticies[i] == m.verticies[i]
    {
      BlackPixelKeepsVertex(m, bm, height, normalize, i);
    }
  }

  // ---------------------------------------------------------------------------
  // The Random3DModel object

  class Random3DModel {
    var beforeModel: Model?
    var afterModel: Model?
    var heightmap: Option<Bitmap>

    constructor ()
      ensures beforeModel == null && afterModel == null && heightmap == None
    {
      beforeModel, afterModel, heightmap := null, null, None;
    }

    /** Random3DModel.Import: a file that does not exist is None. When either file is missing
        nothing changes; otherwise the model is imported and the height map stored. An import
        error propagates (as the exception does), leaving both fields as they were. */
    method Import(primitive: Option<seq<string>>, hmap: Option<Bitmap>, parse: DoubleParser)
      returns (err: Option<ImportError>, messages: seq<Skip>)
      modifies this
      ensures afterModel == old(afterModel)
      ensures primitive.None? || hmap.None? ==>
        err.None? && beforeModel == old(beforeModel) && heightmap == old(heightmap)
      ensures primitive.Some? && hmap.Some? && ImportLines(primitive.value, parse).Err? ==>
        err == Some(ImportLines(primitive.value, parse).error) &&
        beforeModel == old(beforeModel) && heightmap == old(heightmap)
      ensures primitive.Some? && hmap.Some? && ImportLines(primitive.value, parse).Ok? ==>
        var st := ImportLines(primitive.value, parse).value;
        && err.None? && beforeModel != null && fresh(beforeModel) && beforeModel.Valid()
        && beforeModel.Value() == MeshOf(st) && messages == st.skipped
        && heightmap == hmap
    {
      err, messages := None, [];
      if primitive.None? {
        return;
      }
      if hmap.None? {
        return;
      }
      var r;
      r, messages := ObjImport.Import(primitive, parse);
      if r.Err? {
        return Some(r.error), messages;
      }
      beforeModel := r.value;
      heightmap := hmap;
    }

    /** Random3DModel.Export: the lines Model.Export writes for the generated model. */
    method Export(fmt: DoubleFormatter) returns (lines: seq<string>)
      requires afterModel != null && afterModel.Valid()
      ensures lines == ExportMesh(afterModel.Value(), fmt)
    {
      lines := ObjExport.Export(afterModel, fmt);
    }

    /** Random3DModel.Apply: the generated model is the height map applied to the source model,
        which stays as it was. */
    method Apply(height: real, normalize: Normalizer)
      requires beforeModel != null && heightmap.Some?
      requires beforeModel.Valid() && Displaceable(beforeModel.Value(), heightmap.value)
      modifies this
      ensures beforeModel == old(beforeModel) && heightmap == old(heightmap)
      ensures beforeModel.Valid() && beforeModel.Value() == old(beforeModel.Value())
      ensures afterModel != null && fresh(afterModel) && afterModel.Valid()
      ensures fresh(afterModel.Verticies) && fresh(afterModel.Texcoords) && fresh(afterModel.Normals)
      ensures fresh(afterModel.Faces)
      ensures forall k :: 0 <= k < afterModel.Verticies.Length ==> fresh(afterModel.Verticies[k].faces)
      ensures forall k :: 0 <= k < afterModel.Faces.Length ==> fresh(afterModel.Faces[k].face)
      ensures afterModel.Value() == Displaced(beforeModel.Value(), heightmap.value, height, normalize)
    {
      ghost var m := beforeModel.Value();
      afterModel := ApplyHeightMap(beforeModel, heightmap.value, height, normalize);
      assert beforeModel.Value() == m;
    }
  }
}
