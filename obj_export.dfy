/** Model.Export: writing a model as OBJ text, and what the importer makes of that text. */
module ObjExport {
  import opened Common
  import opened Text
  import opened MeshModel
  import opened ObjImport

  /** Double.ToString() under the current culture, left abstract. */
  type DoubleFormatter = real -> string

  function VertexText(x: real, y: real, z: real, fmt: DoubleFormatter): string {
    "v " + fmt(x) + " " + fmt(y) + " " + fmt(z)
  }

  function TexcoordText(t: Texcoord, fmt: DoubleFormatter): string {
    "vt " + fmt(t.u) + " " + fmt(t.v)
  }

  function NormalText(n: Normal, fmt: DoubleFormatter): string {
    "vn " + fmt(n.x) + " " + fmt(n.y) + " " + fmt(n.z)
  }

  /** One number of a face token: written out unless it is 0, which is left empty. */
  function Field(n: int32): string {
    if n == 0 then "" else IntToString(n)
  }

  /** "v/t/n" for one slot. */
  function FaceToken(vn: VertexNumber): string {
    Field(vn.vNum) + "/" + Field(vn.tNum) + "/" + Field(vn.nNum)
  }

  /** "f" followed by one space and one token per slot. */
  function FaceText(slots: seq<VertexNumber>): string
    decreases |slots|
  {
    if slots == [] then "f"
    else FaceText(slots[..|slots| - 1]) + " " + FaceToken(slots[|slots| - 1])
  }

  function VertexLines(vs: seq<MeshVertex>, fmt: DoubleFormatter): seq<string> {
    seq(|vs|, i requires 0 <= i < |vs| => VertexText(vs[i].x, vs[i].y, vs[i].z, fmt))
  }

  function TexcoordLines(ts: seq<Texcoord>, fmt: DoubleFormatter): seq<string> {
    seq(|ts|, i requires 0 <= i < |ts| => TexcoordText(ts[i], fmt))
  }

  function NormalLines(ns: seq<Normal>, fmt: DoubleFormatter): seq<string> {
    seq(|ns|, i requires 0 <= i < |ns| => NormalText(ns[i], fmt))
  }

  function FaceLines(fs: seq<MeshFace>): seq<string> {
    seq(|fs|, i requires 0 <= i < |fs| => FaceText(fs[i].face))
  }

  /** The exported text of a mesh: its vertex lines, then texture coordinates, normals and faces. */
  function ExportMesh(m: Mesh, fmt: DoubleFormatter): seq<string> {
    VertexLines(m.verticies, fmt) + TexcoordLines(m.texcoords, fmt) + NormalLines(m.normals, fmt) + FaceLines(m.faces)
  }

  /** The part of a model Export reads: positions, colours, texture coordinates, normals and
      face slots (not the back-references, which it does not need). */
  ghost function Exported(model: Model): (m: Mesh)
    requires model.Texcoords != null && model.Normals != null
    requires forall i :: 0 <= i < model.Faces.Length ==> model.Faces[i].face != null
    reads model, model.Verticies, model.Texcoords, model.Normals, model.Faces, model.Nested()
  {
    var vs := model.Verticies;
    var fs := model.Faces;
    Mesh(seq(vs.Length, i requires 0 <= i < vs.Length reads vs => MeshVertex(vs[i].x, vs[i].y, vs[i].z, vs[i].c, [])),
         model.Texcoords[..], model.Normals[..],
         seq(fs.Length, i requires 0 <= i < fs.Length && fs[i].face != null
                          reads fs, if 0 <= i < fs.Length then {fs[i].face} else {} => FaceValue(fs[i])))
  }

  /** Model.Export, returning the lines it writes. The source dereferences the texture
      coordinate, normal and slot arrays, so they must be present. */
  method Export(model: Model, fmt: DoubleFormatter) returns (lines: seq<string>)
    requires model.Texcoords != null && model.Normals != null
    requires forall i :: 0 <= i < model.Faces.Length ==> model.Faces[i].face != null
    ensures lines == ExportMesh(Exported(model), fmt)
    ensures model.Valid() ==> lines == ExportMesh(model.Value(), fmt)
  {
    var vl := WriteVerticies(model.Verticies, fmt);
    var tl := WriteTexcoords(model.Texcoords, fmt);
    var nl := WriteNormals(model.Normals, fmt);
    var fl := WriteFaces(model.Faces);
    lines := vl + tl + nl + fl;
    ghost var e := Exported(model);
    assert vl == VertexLines(e.verticies, fmt);
    assert fl == FaceLines(e.faces);
    if model.Valid() {
      var m := model.Value();
      assert VertexLines(m.verticies, fmt) == vl;
      assert FaceLines(m.faces) == fl;
    }
  }

  /** The vertex loop of Export. */
  method WriteVerticies(vs: array<Vertex>, fmt: DoubleFormatter) returns (lines: seq<string>)
    ensures |lines| == vs.Length
    ensures forall i :: 0 <= i < vs.Length ==> lines[i] == VertexText(vs[i].x, vs[i].y, vs[i].z, fmt)
  {
    lines := [];
    for i := 0 to vs.Length
      invariant |lines| == i
      invariant forall k :: 0 <= k < i ==> lines[k] == VertexText(vs[k].x, vs[k].y, vs[k].z, fmt)
    {
      lines := lines + [VertexText(vs[i].x, vs[i].y, vs[i].z, fmt)];
    }
  }

  /** The texture-coordinate loop of Export. */
  method WriteTexcoords(ts: array<Texcoord>, fmt: DoubleFormatter) returns (lines: seq<string>)
    ensures lines == TexcoordLines(ts[..], fmt)
  {
    lines := [];
    for i := 0 to ts.Length
      invariant lines == TexcoordLines(ts[..i], fmt)
    {
      lines := lines + [TexcoordText(ts[i], fmt)];
    }
    assert ts[..ts.Length] == ts[..];
  }

  /** The normal loop of Export. */
  method WriteNormals(ns: array<Normal>, fmt: DoubleFormatter) returns (lines: seq<string>)
    ensures lines == NormalLines(ns[..], fmt)
  {
    lines := [];
    for i := 0 to ns.Length
      invariant lines == NormalLines(ns[..i], fmt)
    {
      lines := lines + [NormalText(ns[i], fmt)];
    }
    assert ns[..ns.Length] == ns[..];
  }

  /** The face loop of Export. */
  method WriteFaces(fs: array<Face>) returns (lines: seq<string>)
    requires forall i :: 0 <= i < fs.Length ==> fs[i].face != null
    ensures |lines| == fs.Length
    ensures forall i :: 0 <= i < fs.Length ==> lines[i] == FaceText(fs[i].face[..])
  {
    lines := [];
    for i := 0 to fs.Length
      invariant |lines| == i
      invariant forall k :: 0 <= k < i ==> lines[k] == FaceText(fs[k].face[..])
    {
      var wstring := WriteFace(fs[i].face);
      lines := lines + [wstring];
    }
  }

  lemma AppendToken(w: string, a: string, b: string, c: string)
    ensures w + " " + a + "/" + b + "/" + c == w + " " + (a + "/" + b + "/" + c)
  {
  }

  /** The inner loop of Export: the text of one face line. */
  method WriteFace(face: array<VertexNumber>) returns (wstring: string)
    ensures wstring == FaceText(face[..])
  {
    wstring := "f";
    for j := 0 to face.Length
      invariant wstring == FaceText(face[..j])
    {
      assert face[..j + 1][..j] == face[..j];
      ghost var w0 := wstring;
      var vn := face[j];
      wstring := wstring + " ";
      if vn.vNum != 0 {
        wstring := wstring + IntToString(vn.vNum);
      }
      assert wstring == w0 + " " + Field(vn.vNum);
      wstring := wstring + "/";
      if vn.tNum != 0 {
        wstring := wstring + IntToString(vn.tNum);
      }
      assert wstring == w0 + " " + Field(vn.vNum) + "/" + Field(vn.tNum);
      wstring := wstring + "/";
      if vn.nNum != 0 {
        wstring := wstring + IntToString(vn.nNum);
      }
      AppendToken(w0, Field(vn.vNum), Field(vn.tNum), Field(vn.nNum));
    }
    assert face[..face.Length] == face[..];
  }
}
