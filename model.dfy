/** The mesh data model of Model.cs: the value records, the `Model` class with its four
    parallel arrays, the programmatic setters, and the deep copy. */
module MeshModel {
  import opened Common

  /** A back-reference of a vertex: `x` is a face index, `y` the slot within that face. */
  datatype Point = Point(x: int, y: int)

  /** A vertex record. Its back-reference array is a reference (null until somebody sets it). */
  datatype Vertex = Vertex(x: real, y: real, z: real, c: Color, faces: array?<Point>)

  datatype Texcoord = Texcoord(u: real, v: real)

  datatype Normal = Normal(x: real, y: real, z: real)

  /** One slot of a face: 1-based vertex, texcoord and normal numbers, 0 meaning "absent". */
  datatype VertexNumber = VertexNumber(vNum: int32, tNum: int32, nNum: int32)

  /** A face record: a reference to its array of slots. */
  datatype Face = Face(face: array?<VertexNumber>)

  /** `default(Vertex)` and `default(Face)` in C#. */
  const DefaultVertex: Vertex := Vertex(0.0, 0.0, 0.0, EmptyColor, null)
  const DefaultFace: Face := Face(null)
  const ZeroSlot: VertexNumber := VertexNumber(0, 0, 0)

  // ---------------------------------------------------------------------------
  // The value a model denotes once every array is present

  datatype MeshVertex = MeshVertex(x: real, y: real, z: real, c: Color, faces: seq<Point>)

  datatype MeshFace = MeshFace(face: seq<VertexNumber>)

  datatype Mesh = Mesh(verticies: seq<MeshVertex>, texcoords: seq<Texcoord>,
                       normals: seq<Normal>, faces: seq<MeshFace>)

  ghost function VertexValue(v: Vertex): MeshVertex
    requires v.faces != null
    reads v.faces
  {
    MeshVertex(v.x, v.y, v.z, v.c, v.faces[..])
  }

  ghost function FaceValue(f: Face): MeshFace
    requires f.face != null
    reads f.face
  {
    MeshFace(f.face[..])
  }

  class Model {
    var Verticies: array<Vertex>
    var Texcoords: array?<Texcoord>
    var Normals: array?<Normal>
    var Faces: array<Face>

    /** The back-reference arrays and slot arrays the records point to. */
    ghost function Nested(): set<object>
      reads this, Verticies, Faces
    {
      (set k | 0 <= k < Verticies.Length && Verticies[k].faces != null :: Verticies[k].faces as object)
      + (set k | 0 <= k < Faces.Length && Faces[k].face != null :: Faces[k].face as object)
    }

    /** Every object the model's value is read from. */
    ghost function Repr(): set<object>
      reads this, Verticies, Faces
    {
      {this, Verticies, Faces}
      + (if Texcoords == null then {} else {Texcoords})
      + (if Normals == null then {} else {Normals})
      + Nested()
    }

    /** Every array that the copy constructor and the exporter dereference is present. */
    ghost predicate Valid()
      reads this, Verticies, Faces
    {
      && Texcoords != null && Normals != null
      && (forall k :: 0 <= k < Verticies.Length ==> Verticies[k].faces != null)
      && (forall k :: 0 <= k < Faces.Length ==> Faces[k].face != null)
    }

    ghost function Value(): (m: Mesh)
      requires Valid()
      reads this, Verticies, Faces, Repr()
      ensures |m.verticies| == Verticies.Length && |m.faces| == Faces.Length
      ensures m.texcoords == Texcoords[..] && m.normals == Normals[..]
      ensures forall k :: 0 <= k < Verticies.Length ==> m.verticies[k] == VertexValue(Verticies[k])
      ensures forall k :: 0 <= k < Faces.Length ==> m.faces[k] == FaceValue(Faces[k])
    {
      Mesh(seq(Verticies.Length, k requires 0 <= k < Verticies.Length && Verticies[k].faces != null
                                   reads this, Verticies, if 0 <= k < Verticies.Length then {Verticies[k].faces} else {} => VertexValue(Verticies[k])),
           Texcoords[..], Normals[..],
           seq(Faces.Length, k requires 0 <= k < Faces.Length && Faces[k].face != null
                               reads this, Faces, if 0 <= k < Faces.Length then {Faces[k].face} else {} => FaceValue(Faces[k])))
    }

    /** Model(vs, ts, ns, fs): keeps the given arrays themselves, not copies. */
    constructor (vs: array<Vertex>, ts: array?<Texcoord>, ns: array?<Normal>, fs: array<Face>)
      ensures Verticies == vs && Texcoords == ts && Normals == ns && Faces == fs
    {
      Verticies, Texcoords, Normals, Faces := vs, ts, ns, fs;
    }

    /** Model(v, f): vertices and faces from coordinate tables; no texcoords, no normals. */
    constructor FromTables(v: array2<real>, f: array2<VertexNumber>)
      requires v.Length0 > 0 ==> v.Length1 >= 3
      ensures Texcoords == null && Normals == null
      ensures VerticiesFrom(v) && FacesFrom(f)
      ensures fresh(Verticies) && fresh(Faces)
      ensures forall i :: 0 <= i < Faces.Length ==> fresh(Faces[i].face)
    {
      Verticies, Faces := new Vertex[0], new Face[0];
      Texcoords, Normals := null, null;
      new;
      SetVerticies(v);
      SetFaces(f);
    }

    /** Model(v, vn, f): as FromTables, then the normals table. */
    constructor FromTablesWithNormals(v: array2<real>, vn: array2<real>, f: array2<VertexNumber>)
      requires v.Length0 > 0 ==> v.Length1 >= 3
      requires vn.Length0 > 0 ==> vn.Length1 >= 3
      ensures Texcoords == null
      ensures VerticiesFrom(v) && FacesFrom(f) && NormalsFrom(vn)
      ensures fresh(Verticies) && fresh(Faces) && fresh(Normals)
      ensures forall i :: 0 <= i < Faces.Length ==> fresh(Faces[i].face)
    {
      Verticies, Faces := new Vertex[0], new Face[0];
      Texcoords, Normals := null, null;
      new;
      SetVerticies(v);
      SetFaces(f);
      SetNormal(vn);
    }

    /** Model(v, vc, f): as FromTables, then one colour per vertex. */
    constructor FromTablesWithColors(v: array2<real>, vc: array<Color>, f: array2<VertexNumber>)
      requires v.Length0 > 0 ==> v.Length1 >= 3
      requires vc.Length >= v.Length0
      ensures Texcoords == null && Normals == null
      ensures fresh(Verticies) && Verticies.Length == v.Length0
      ensures forall i :: 0 <= i < v.Length0 ==>
        Verticies[i] == Vertex(v[i, 0], v[i, 1], v[i, 2], vc[i], null)
      ensures FacesFrom(f)
      ensures fresh(Faces) && forall i :: 0 <= i < Faces.Length ==> fresh(Faces[i].face)
    {
      Verticies, Faces := new Vertex[0], new Face[0];
      Texcoords, Normals := null, null;
      new;
      SetVerticies(v);
      SetFaces(f);
      SetColor(vc);
    }

    /** Vertex i has the coordinates of row i of `v`, the empty colour and no back-reference array. */
    ghost predicate VerticiesFrom(v: array2<real>)
      reads this, Verticies, v
    {
      && Verticies.Length == v.Length0
      && (v.Length0 > 0 ==> v.Length1 >= 3)
      && forall i :: 0 <= i < v.Length0 ==> Verticies[i] == Vertex(v[i, 0], v[i, 1], v[i, 2], EmptyColor, null)
    }

    /** Face i has its own array holding row i of `f`. */
    ghost predicate FacesFrom(f: array2<VertexNumber>)
      reads this, Faces, set i | 0 <= i < Faces.Length :: Faces[i].face, f
    {
      && Faces.Length == f.Length0
      && (forall i :: 0 <= i < Faces.Length ==> Faces[i].face != null && Faces[i].face.Length == f.Length1)
      && forall i, j :: 0 <= i < f.Length0 && 0 <= j < f.Length1 ==> Faces[i].face[j] == f[i, j]
    }

    ghost predicate NormalsFrom(vn: array2<real>)
      reads this, Normals, vn
    {
      && Normals != null && Normals.Length == vn.Length0
      && (vn.Length0 > 0 ==> vn.Length1 >= 3)
      && forall i :: 0 <= i < vn.Length0 ==> Normals[i] == Normal(vn[i, 0], vn[i, 1], vn[i, 2])
    }

    /** SetVerticies: a fresh vertex array from the first three columns of `v`; the
        back-reference arrays are left null. */
    method SetVerticies(v: array2<real>)
      requires v.Length0 > 0 ==> v.Length1 >= 3
      modifies this
      ensures VerticiesFrom(v) && fresh(Verticies)
      ensures Texcoords == old(Texcoords) && Normals == old(Normals) && Faces == old(Faces)
    {
      Verticies := new Vertex[v.Length0](_ => DefaultVertex);
      for i := 0 to Verticies.Length
        modifies Verticies
        invariant fresh(Verticies) && Verticies.Length == v.Length0
        invariant forall k :: 0 <= k < i ==> Verticies[k] == Vertex(v[k, 0], v[k, 1], v[k, 2], EmptyColor, null)
        invariant forall k :: i <= k < Verticies.Length ==> Verticies[k] == DefaultVertex
      {
        Verticies[i] := Verticies[i].(x := v[i, 0], y := v[i, 1], z := v[i, 2]);
      }
    }

    /** SetNormal: a fresh normal array from the first three columns of `vn`. */
    method SetNormal(vn: array2<real>)
      requires vn.Length0 > 0 ==> vn.Length1 >= 3
      modifies this
      ensures NormalsFrom(vn) && fresh(Normals)
      ensures Verticies == old(Verticies) && Texcoords == old(Texcoords) && Faces == old(Faces)
    {
      var ns := new Normal[vn.Length0](_ => Normal(0.0, 0.0, 0.0));
      for i := 0 to ns.Length
        modifies ns
        invariant forall k :: 0 <= k < i ==> ns[k] == Normal(vn[k, 0], vn[k, 1], vn[k, 2])
      {
        ns[i] := ns[i].(x := vn[i, 0], y := vn[i, 1], z := vn[i, 2]);
      }
      Normals := ns;
    }

    /** SetColor: vertex i takes colour vc[i]; nothing else about the vertices changes. */
    method SetColor(vc: array<Color>)
      requires vc.Length >= Verticies.Length
      modifies Verticies
      ensures forall i :: 0 <= i < Verticies.Length ==> Verticies[i] == old(Verticies[i]).(c := vc[i])
    {
      for i := 0 to Verticies.Length
        invariant forall k :: 0 <= k < i ==> Verticies[k] == old(Verticies[k]).(c := vc[k])
        invariant forall k :: i <= k < Verticies.Length ==> Verticies[k] == old(Verticies[k])
      {
        Verticies[i] := Verticies[i].(c := vc[i]);
      }
    }

    /** SetFaces: f.GetLength(0) faces, each with a fresh array of f.GetLength(1) slots. */
    method SetFaces(f: array2<VertexNumber>)
      modifies this
      ensures FacesFrom(f) && fresh(Faces)
      ensures forall i :: 0 <= i < Faces.Length ==> fresh(Faces[i].face)
      ensures Verticies == old(Verticies) && Texcoords == old(Texcoords) && Normals == old(Normals)
    {
      var fs := new Face[f.Length0](_ => DefaultFace);
      for i := 0 to fs.Length
        modifies fs
        invariant forall k :: 0 <= k < i ==> fs[k].face != null && fresh(fs[k].face)
        invariant forall k :: 0 <= k < i ==> fs[k].face[..] == Row(f, k)
      {
        var row := CopyRow(f, i);
        fs[i] := Face(row);
      }
      Faces := fs;
    }

    /** Copy constructor Model(model): new top-level arrays, and a new array for every
        vertex's back-references and every face's slots, holding the same values. */
    constructor Copy(model: Model)
      requires model.Valid()
      ensures Valid() && Value() == old(model.Value())
      ensures fresh(Verticies) && fresh(Texcoords) && fresh(Normals) && fresh(Faces)
      ensures forall k :: 0 <= k < Verticies.Length ==> fresh(Verticies[k].faces)
      ensures forall k :: 0 <= k < Faces.Length ==> fresh(Faces[k].face)
    {
      ghost var m := model.Value();
      var srcT: array<Texcoord>, srcN: array<Normal> := model.Texcoords, model.Normals;
      // Array.Copy of the texcoord and normal records
      var ts := new Texcoord[srcT.Length](k requires 0 <= k < srcT.Length reads srcT => srcT[k]);
      var ns := new Normal[srcN.Length](k requires 0 <= k < srcN.Length reads srcN => srcN[k]);
      assert ts[..] == m.texcoords && ns[..] == m.normals;
      var vs := CopyVerticies(model.Verticies, m.verticies);
      var fs := CopyFaces(model.Faces, m.faces);
      Verticies, Texcoords, Normals, Faces := vs, ts, ns, fs;
      new;
      assert Value().verticies == m.verticies;
      assert Value().faces == m.faces;
    }
  }

  /** The vertex part of the copy constructor: Array.Copy of the records, then a new
      back-reference array for each. */
  method CopyVerticies(src: array<Vertex>, ghost value: seq<MeshVertex>) returns (vs: array<Vertex>)
    requires forall k :: 0 <= k < src.Length ==> src[k].faces != null
    requires |value| == src.Length && forall k :: 0 <= k < src.Length ==> VertexValue(src[k]) == value[k]
    ensures fresh(vs) && vs.Length == src.Length
    ensures forall k :: 0 <= k < vs.Length ==> vs[k].faces != null && fresh(vs[k].faces)
    ensures forall k :: 0 <= k < vs.Length ==> VertexValue(vs[k]) == value[k]
  {
    var n := src.Length;
    vs := new Vertex[n](k requires 0 <= k < n reads src => src[k]);
    for i := 0 to n
      invariant forall k :: 0 <= k < i ==> vs[k].faces != null && fresh(vs[k].faces)
      invariant forall k :: 0 <= k < i ==> VertexValue(vs[k]) == value[k]
      invariant forall k :: i <= k < n ==> vs[k] == src[k]
    {
      var faces := CopyPoints(src[i].faces);
      vs[i] := vs[i].(faces := faces);
    }
  }

  /** The face part of the copy constructor: a new slot array for each face. */
  method CopyFaces(src: array<Face>, ghost value: seq<MeshFace>) returns (fs: array<Face>)
    requires forall k :: 0 <= k < src.Length ==> src[k].face != null
    requires |value| == src.Length && forall k :: 0 <= k < src.Length ==> FaceValue(src[k]) == value[k]
    ensures fresh(fs) && fs.Length == src.Length
    ensures forall k :: 0 <= k < fs.Length ==> fs[k].face != null && fresh(fs[k].face)
    ensures forall k :: 0 <= k < fs.Length ==> FaceValue(fs[k]) == value[k]
  {
    fs := new Face[src.Length](_ => DefaultFace);
    for i := 0 to fs.Length
      invariant forall k :: 0 <= k < i ==> fs[k].face != null && fresh(fs[k].face)
      invariant forall k :: 0 <= k < i ==> FaceValue(fs[k]) == value[k]
    {
      var face := CopySlots(src[i].face);
      fs[i] := Face(face);
    }
  }

  /** Row i of a two-dimensional array. */
  ghost function Row(f: array2<VertexNumber>, i: nat): (r: seq<VertexNumber>)
    requires i < f.Length0
    reads f
    ensures |r| == f.Length1 && forall j :: 0 <= j < f.Length1 ==> r[j] == f[i, j]
  {
    seq(f.Length1, j requires 0 <= j < f.Length1 reads f => f[i, j])
  }

  /** The inner loop of SetFaces: a new slot array filled from row i of `f`. */
  method CopyRow(f: array2<VertexNumber>, i: nat) returns (row: array<VertexNumber>)
    requires i < f.Length0
    ensures fresh(row) && row[..] == Row(f, i)
  {
    row := new VertexNumber[f.Length1](_ => ZeroSlot);
    for j := 0 to row.Length
      invariant forall k :: 0 <= k < j ==> row[k] == f[i, k]
    {
      row[j] := f[i, j];
    }
  }

  /** The inner copy loop of the copy constructor, for a back-reference array. */
  method CopyPoints(src: array<Point>) returns (dst: array<Point>)
    ensures fresh(dst) && dst[..] == src[..]
  {
    dst := new Point[src.Length](_ => Point(0, 0));
    for j := 0 to src.Length
      invariant forall k :: 0 <= k < j ==> dst[k] == src[k]
    {
      dst[j] := src[j];
    }
  }

  /** The inner copy loop of the copy constructor, for a slot array. */
  method CopySlots(src: array<VertexNumber>) returns (dst: array<VertexNumber>)
    ensures fresh(dst) && dst[..] == src[..]
  {
    dst := new VertexNumber[src.Length](_ => ZeroSlot);
    for j := 0 to src.Length
      invariant forall k :: 0 <= k < j ==> dst[k] == src[k]
    {
      dst[j] := src[j];
    }
  }
}
