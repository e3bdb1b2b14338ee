/** The normal routines of Model.cs: the vertex normal aggregated from stored normals
    (CalcAllVertexNormal), the geometric face normals of quads and triangles
    (RecalcSurfaceNormal, CalcTriangleFaceNormal) and the vertex normal aggregated from
    those (RecalcNormal). Single-precision arithmetic is modelled over the reals and
    Vector3.Normalize is a parameter. */
module MeshNormals {
  import opened Common
  import opened MeshModel
  import opened ObjImportFacts

  /** Vector3.Normalize, left abstract. */
  type Normalizer = Vec3 -> Vec3

  function NormalVec(n: Normal): Vec3 {
    Vec3(n.x, n.y, n.z)
  }

  function Position(v: MeshVertex): Vec3 {
    Vec3(v.x, v.y, v.z)
  }

  /** The position of a vertex record. */
  function PositionOf(v: Vertex): Vec3 {
    Vec3(v.x, v.y, v.z)
  }

  // ---------------------------------------------------------------------------
  // Sums over back-references and over face slots

  /** The sum of f over the back-references ps, in order. */
  function SumOver(ps: seq<Point>, f: Point -> Vec3): Vec3
    decreases |ps|
  {
    if ps == [] then ZeroVec
    else Add(SumOver(ps[..|ps| - 1], f), f(ps[|ps| - 1]))
  }

  /** The sum of f over the slots of face fi that name vertex k (0-based). */
  function FaceSum(fi: int, slots: seq<VertexNumber>, k: int, f: Point -> Vec3): Vec3
    decreases |slots|
  {
    if slots == [] then ZeroVec
    else
      var j := |slots| - 1;
      Add(FaceSum(fi, slots[..j], k, f), if slots[j].vNum - 1 == k then f(Point(fi, j)) else ZeroVec)
  }

  /** The sum of f over every slot of every face that names vertex k, face by face. */
  function SlotSum(fs: seq<MeshFace>, k: int, f: Point -> Vec3): Vec3
    decreases |fs|
  {
    if fs == [] then ZeroVec
    else
      var n := |fs| - 1;
      Add(SlotSum(fs[..n], k, f), FaceSum(n, fs[n].face, k, f))
  }

  lemma AddAssoc(a: Vec3, b: Vec3, c: Vec3)
    ensures Add(Add(a, b), c) == Add(a, Add(b, c))
  {
  }

  lemma {:induction false} SumOverAppend(a: seq<Point>, b: seq<Point>, f: Point -> Vec3)
    ensures SumOver(a + b, f) == Add(SumOver(a, f), SumOver(b, f))
    decreases |b|
  {
    if b == [] {
      assert a + b == a;
    } else {
      var n := |b| - 1;
      SumOverAppend(a, b[..n], f);
      SumOverAppendLast(a, b, f);
      AddAssoc(SumOver(a, f), SumOver(b[..n], f), f(b[n]));
    }
  }

  /** The last step of the sum over a + b, when b is not empty. */
  lemma SumOverAppendLast(a: seq<Point>, b: seq<Point>, f: Point -> Vec3)
    requires b != []
    ensures SumOver(a + b, f) == Add(SumOver(a + b[..|b| - 1], f), f(b[|b| - 1]))
  {
    var n := |b| - 1;
    assert (a + b)[..|a + b| - 1] == a + b[..n];
    assert (a + b)[|a + b| - 1] == b[n];
  }

  lemma {:induction false} SumOverSlotRefs(fi: int, slots: seq<VertexNumber>, k: int, f: Point -> Vec3)
    ensures SumOver(SlotRefs(fi, slots, k), f) == FaceSum(fi, slots, k, f)
    decreases |slots|
  {
    if slots != [] {
      var j := |slots| - 1;
      var init := slots[..j];
      SumOverSlotRefs(fi, init, k, f);
      var prefix := SlotRefs(fi, init, k);
      if slots[j].vNum - 1 == k {
        var p := Point(fi, j);
        assert SlotRefs(fi, slots, k) == prefix + [p];
        assert FaceSum(fi, slots, k, f) == Add(FaceSum(fi, init, k, f), f(p));
        assert (prefix + [p])[..|prefix|] == prefix;
      } else {
        assert SlotRefs(fi, slots, k) == prefix + [];
        assert prefix + [] == prefix;
        assert FaceSum(fi, slots, k, f) == Add(FaceSum(fi, init, k, f), ZeroVec);
      }
    }
  }

  /** Summing over the back-references the faces leave on vertex k is summing over every
      slot that names k. */
  lemma {:induction false} SumOverRefs(fs: seq<MeshFace>, k: int, f: Point -> Vec3)
    ensures SumOver(Refs(fs, k), f) == SlotSum(fs, k, f)
    decreases |fs|
  {
    if fs != [] {
      var n := |fs| - 1;
      SumOverRefs(fs[..n], k, f);
      SumOverSlotRefs(n, fs[n].face, k, f);
      SumOverAppend(Refs(fs[..n], k), SlotRefs(n, fs[n].face, k), f);
    }
  }

  /** In a mesh whose back-references are consistent with its faces, the loop over a vertex's
      back-references visits exactly the slots naming that vertex, each once. */
  lemma ConsistentSum(vs: seq<MeshVertex>, fs: seq<MeshFace>, k: int, f: Point -> Vec3)
    requires Consistent(vs, fs) && 0 <= k < |vs|
    ensures SumOver(vs[k].faces, f) == SlotSum(fs, k, f)
  {
    SumOverRefs(fs, k, f);
  }

  // ---------------------------------------------------------------------------
  // CalcAllVertexNormal

  /** Back-reference p names an existing slot whose normal number names a stored normal. */
  predicate StoredResolves(m: Mesh, p: Point) {
    && 0 <= p.x < |m.faces| && 0 <= p.y < |m.faces[p.x].face|
    && 1 <= m.faces[p.x].face[p.y].nNum <= |m.normals|
  }

  /** The stored normal of the slot p names (the zero vector where the source would throw). */
  function StoredNormalAt(m: Mesh): Point -> Vec3 {
    (p: Point) => if StoredResolves(m, p) then NormalVec(m.normals[m.faces[p.x].face[p.y].nNum - 1]) else ZeroVec
  }

  /** Every back-reference of vertex k resolves to a stored normal. */
  predicate VertexNormalResolves(m: Mesh, k: int) {
    0 <= k < |m.verticies| &&
    forall j :: 0 <= j < |m.verticies[k].faces| ==> StoredResolves(m, m.verticies[k].faces[j])
  }

  /** Model.CalcAllVertexNormal: the normalized sum of the stored normals of the slots vertex
      k's back-references name (m is the model's value). */
  method CalcAllVertexNormal(mdl: Model, ghost m: Mesh, k: int, normalize: Normalizer) returns (r: Vec3)
    requires mdl.Valid() && mdl.Value() == m && VertexNormalResolves(m, k)
    ensures r == normalize(SumOver(m.verticies[k].faces, StoredNormalAt(m)))
  {
    ghost var refs := m.verticies[k].faces;
    var back := mdl.Verticies[k].faces;
    var normal := ZeroVec;
    for j := 0 to back.Length
      invariant normal == SumOver(refs[..j], StoredNormalAt(m))
    {
      assert refs[..j + 1][..j] == refs[..j];
      var f := mdl.Faces[back[j].x];
      var index := back[j].y;
      var n := mdl.Normals[f.face[index].nNum - 1];
      assert NormalVec(n) == StoredNormalAt(m)(refs[j]);
      normal := Add(normal, Vec3(n.x, n.y, n.z));
    }
    assert refs[..back.Length] == refs;
    r := normalize(normal);
  }

  // ---------------------------------------------------------------------------
  // Geometric face normals

  /** The vector RecalcSurfaceNormal normalizes for corners c0..c3: the cross product of the
      two diagonals. */
  function QuadCross(c0: Vec3, c1: Vec3, c2: Vec3, c3: Vec3): Vec3 {
    Cross(Sub(c0, c2), Sub(c1, c3))
  }

  /** The vector CalcTriangleFaceNormal normalizes for corners c0..c2. */
  function TriangleCross(c0: Vec3, c1: Vec3, c2: Vec3): Vec3 {
    Cross(Sub(c2, c0), Sub(c1, c0))
  }

  /** Face fi has at least n slots, and its first n name existing vertices. */
  predicate CornersResolve(m: Mesh, fi: int, n: nat) {
    0 <= fi < |m.faces| && |m.faces[fi].face| >= n &&
    forall i :: 0 <= i < n ==> 1 <= m.faces[fi].face[i].vNum <= |m.verticies|
  }

  /** The position of the vertex slot i of face fi names. */
  function Corner(m: Mesh, fi: int, i: nat): Vec3
    requires CornersResolve(m, fi, i + 1)
  {
    Position(m.verticies[m.faces[fi].face[i].vNum - 1])
  }

  function QuadCrossOf(m: Mesh, fi: int): Vec3
    requires CornersResolve(m, fi, 4)
  {
    QuadCross(Corner(m, fi, 0), Corner(m, fi, 1), Corner(m, fi, 2), Corner(m, fi, 3))
  }

  function TriangleCrossOf(m: Mesh, fi: int): Vec3
    requires CornersResolve(m, fi, 3)
  {
    TriangleCross(Corner(m, fi, 0), Corner(m, fi, 1), Corner(m, fi, 2))
  }

  /** The corner loop of the two face-normal routines: positions of the first n corners
      (m is the model's value). */
  method Corners(mdl: Model, ghost m: Mesh, fi: int, n: nat) returns (v: array<Vec3>)
    requires mdl.Valid() && mdl.Value() == m && CornersResolve(m, fi, n)
    ensures fresh(v) && v.Length == n
    ensures mdl.Valid() && mdl.Value() == m
    ensures forall i :: 0 <= i < n ==> v[i] == Corner(m, fi, i)
  {
    v := new Vec3[n](_ => ZeroVec);
    assert v !in mdl.Repr();
    for i := 0 to n
      invariant mdl.Valid() && mdl.Value() == m && v !in mdl.Repr()
      invariant forall i' :: 0 <= i' < i ==> v[i'] == Corner(m, fi, i')
    {
      SetCorner(mdl, m, v, fi, i);
    }
  }

  /** One pass of the corner loop: v[i] becomes the position of the vertex slot i names. */
  method SetCorner(mdl: Model, ghost m: Mesh, v: array<Vec3>, fi: int, i: nat)
    requires mdl.Valid() && mdl.Value() == m && v !in mdl.Repr()
    requires CornersResolve(m, fi, i + 1) && i < v.Length
    modifies v
    ensures mdl.Valid() && mdl.Value() == m && v !in mdl.Repr()
    ensures v[i] == Corner(m, fi, i)
    ensures forall k :: 0 <= k < v.Length && k != i ==> v[k] == old(v[k])
  {
    var vindex := mdl.Faces[fi].face[i].vNum - 1;
    var p := Vec3(mdl.Verticies[vindex].x, mdl.Verticies[vindex].y, mdl.Verticies[vindex].z);
    assert p == Corner(m, fi, i);
    v[i] := p;
  }

  /** Model.RecalcSurfaceNormal: face fi taken as a quad; only its first four slots are read. */
  method RecalcSurfaceNormal(mdl: Model, ghost m: Mesh, fi: int, normalize: Normalizer) returns (r: Vec3)
    requires mdl.Valid() && mdl.Value() == m && CornersResolve(m, fi, 4)
    ensures mdl.Valid() && mdl.Value() == m
    ensures r == normalize(QuadCrossOf(m, fi))
  {
    var v := Corners(mdl, m, fi, 4);
    r := normalize(Cross(Sub(v[0], v[2]), Sub(v[1], v[3])));
  }

  /** Model.CalcTriangleFaceNormal: face fi taken as a triangle; only its first three slots are read. */
  method CalcTriangleFaceNormal(mdl: Model, ghost m: Mesh, fi: int, normalize: Normalizer) returns (r: Vec3)
    requires mdl.Valid() && mdl.Value() == m && CornersResolve(m, fi, 3)
    ensures mdl.Valid() && mdl.Value() == m
    ensures r == normalize(TriangleCrossOf(m, fi))
  {
    var v := Corners(mdl, m, fi, 3);
    r := normalize(Cross(Sub(v[2], v[0]), Sub(v[1], v[0])));
  }

  /** The quad vector is perpendicular to both diagonals of the quad. */
  lemma QuadCrossPerpendicular(c0: Vec3, c1: Vec3, c2: Vec3, c3: Vec3)
    ensures Dot(QuadCross(c0, c1, c2, c3), Sub(c0, c2)) == 0.0
    ensures Dot(QuadCross(c0, c1, c2, c3), Sub(c1, c3)) == 0.0
  {
    CrossPerpendicular(Sub(c0, c2), Sub(c1, c3));
  }

  /** The triangle vector is perpendicular to both edges leaving the first corner. */
  lemma TriangleCrossPerpendicular(c0: Vec3, c1: Vec3, c2: Vec3)
    ensures Dot(TriangleCross(c0, c1, c2), Sub(c1, c0)) == 0.0
    ensures Dot(TriangleCross(c0, c1, c2), Sub(c2, c0)) == 0.0
  {
    CrossPerpendicular(Sub(c2, c0), Sub(c1, c0));
  }

  function Scale(s: real, a: Vec3): Vec3 {
    Vec3(s * a.x, s * a.y, s * a.z)
  }

  /** The two routines use opposite windings: on a parallelogram c0, c1, c2, c3 the quad
      vector is -2 times the triangle vector of c0, c1, c2. */
  lemma OppositeWinding(c0: Vec3, c1: Vec3, c2: Vec3, c3: Vec3)
    requires c3 == Sub(Add(c0, c2), c1)
    ensures QuadCross(c0, c1, c2, c3) == Scale(-2.0, TriangleCross(c0, c1, c2))
  {
    var u, w := Sub(c1, c0), Sub(c2, c0);
    assert Sub(c0, c2) == Scale(-1.0, w);
    assert Sub(c1, c3) == Sub(Scale(2.0, u), w);
    assert Cross(Scale(-1.0, w), Sub(Scale(2.0, u), w)) == Scale(-2.0, Cross(w, u));
  }

  // ---------------------------------------------------------------------------
  // RecalcNormal

  /** The normalized quad normal of the face p names (the zero vector where the source would throw). */
  function QuadNormalAt(m: Mesh, normalize: Normalizer): Point -> Vec3 {
    (p: Point) => if CornersResolve(m, p.x, 4) then normalize(QuadCrossOf(m, p.x)) else ZeroVec
  }

  /** Every face vertex k's back-references name is a quad whose corners resolve. */
  predicate RecalcResolves(m: Mesh, k: int) {
    0 <= k < |m.verticies| &&
    forall j :: 0 <= j < |m.verticies[k].faces| ==> CornersResolve(m, m.verticies[k].faces[j].x, 4)
  }

  /** The vertex normal RecalcNormal computes: the normalized sum of the quad normals of the
      faces vertex k's back-references name. */
  function QuadVertexNormal(m: Mesh, k: int, normalize: Normalizer): Vec3
    requires 0 <= k < |m.verticies|
  {
    normalize(SumOver(m.verticies[k].faces, QuadNormalAt(m, normalize)))
  }

  /** Model.RecalcNormal: the normalized sum of the quad normals of the faces vertex k's
      back-references name (the slot part of each back-reference is not read). */
  method RecalcNormal(mdl: Model, ghost m: Mesh, k: int, normalize: Normalizer) returns (r: Vec3)
    requires mdl.Valid() && mdl.Value() == m && RecalcResolves(m, k)
    ensures mdl.Valid() && mdl.Value() == m
    ensures r == normalize(SumOver(m.verticies[k].faces, QuadNormalAt(m, normalize)))
  {
    ghost var refs := m.verticies[k].faces;
    var back := mdl.Verticies[k].faces;
    var normal := ZeroVec;
    for j := 0 to back.Length
      invariant mdl.Valid() && mdl.Value() == m
      invariant normal == SumOver(refs[..j], QuadNormalAt(m, normalize))
    {
      assert refs[..j + 1][..j] == refs[..j];
      var findex := back[j].x;
      assert findex == refs[j].x && CornersResolve(m, findex, 4);
      var n := RecalcSurfaceNormal(mdl, m, findex, normalize);
      assert n == QuadNormalAt(m, normalize)(refs[j]);
      normal := Add(normal, n);
    }
    assert refs[..back.Length] == refs;
    r := normalize(normal);
  }
}
