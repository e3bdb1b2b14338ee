/** What Model.Import makes of the text Model.Export writes: token by token, line by line,
    and for a whole file. */
module ObjRoundTrip {
  import opened Common
  import opened Text
  import opened MeshModel
  import opened ObjImport
  import opened ObjImportFacts
  import opened ObjExport

  /** Double.ToString writes x as one non-empty token without spaces. */
  predicate WritesToken(fmt: DoubleFormatter, x: real) {
    fmt(x) != "" && ' ' !in fmt(x)
  }

  /** double.TryParse reads the text Double.ToString writes for x back as x. */
  predicate ParsesBack(fmt: DoubleFormatter, parse: DoubleParser, x: real) {
    parse(fmt(x)) == Some(x)
  }

  /** Every number of m that Export writes is written as one token. */
  predicate MeshWritten(fmt: DoubleFormatter, m: Mesh) {
    && (forall i :: 0 <= i < |m.verticies| ==>
          WritesToken(fmt, m.verticies[i].x) && WritesToken(fmt, m.verticies[i].y) && WritesToken(fmt, m.verticies[i].z))
    && (forall i :: 0 <= i < |m.texcoords| ==> WritesToken(fmt, m.texcoords[i].u) && WritesToken(fmt, m.texcoords[i].v))
    && (forall i :: 0 <= i < |m.normals| ==>
          WritesToken(fmt, m.normals[i].x) && WritesToken(fmt, m.normals[i].y) && WritesToken(fmt, m.normals[i].z))
  }

  /** Every number of m that Export writes is read back as itself. */
  predicate MeshParsesBack(fmt: DoubleFormatter, parse: DoubleParser, m: Mesh) {
    && (forall i :: 0 <= i < |m.verticies| ==>
          ParsesBack(fmt, parse, m.verticies[i].x) && ParsesBack(fmt, parse, m.verticies[i].y) && ParsesBack(fmt, parse, m.verticies[i].z))
    && (forall i :: 0 <= i < |m.texcoords| ==> ParsesBack(fmt, parse, m.texcoords[i].u) && ParsesBack(fmt, parse, m.texcoords[i].v))
    && (forall i :: 0 <= i < |m.normals| ==>
          ParsesBack(fmt, parse, m.normals[i].x) && ParsesBack(fmt, parse, m.normals[i].y) && ParsesBack(fmt, parse, m.normals[i].z))
  }

  /** The number formatter and parser agree on the numbers of m: each is written as one
      token that reads back as that number. */
  predicate RoundTripsOn(fmt: DoubleFormatter, parse: DoubleParser, m: Mesh) {
    MeshWritten(fmt, m) && MeshParsesBack(fmt, parse, m)
  }

  // ---------------------------------------------------------------------------
  // Face tokens

  /** A written field reads back as the number it was written from, and counts as parsed
      exactly when that number is not 0. */
  lemma FieldParse(n: int32)
    ensures ParseInt(Field(n)).GetOr(0) == n
    ensures ParseInt(Field(n)).Some? <==> n != 0
    ensures '/' !in Field(n) && ' ' !in Field(n)
  {
    if n == 0 {
      assert TrimEnd(TrimStart("")) == "";
    } else {
      ParseIntToString(n);
      IntToStringPlain(n);
    }
  }

  /** Three separator-free pieces joined by '/' split back into those pieces. */
  lemma SplitSlashes(a: string, b: string, c: string)
    requires '/' !in a && '/' !in b && '/' !in c
    ensures Split(a + "/" + b + "/" + c, '/') == [a, b, c]
  {
    assert Join([b, c], '/') == b + "/" + c;
    assert Join([a, b, c], '/') == a + "/" + (b + "/" + c);
    assert a + "/" + b + "/" + c == a + "/" + (b + "/" + c);
    SplitJoin([a, b, c], '/');
  }

  /** The token Export writes for a slot parses back into that slot; the importer counts it
      as parsed exactly when its vertex and normal numbers are not 0. */
  lemma FaceTokenRoundTrip(vn: VertexNumber)
    ensures ParseFaceToken(FaceToken(vn)) == Some((vn, vn.vNum != 0 && vn.nNum != 0))
    ensures FaceToken(vn) != "" && ' ' !in FaceToken(vn)
  {
    var a, b, c := Field(vn.vNum), Field(vn.tNum), Field(vn.nNum);
    FieldParse(vn.vNum);
    FieldParse(vn.tNum);
    FieldParse(vn.nNum);
    SplitSlashes(a, b, c);
    var token := FaceToken(vn);
    assert token == a + "/" + b + "/" + c;
    assert token[|a|] == '/';
  }

  // ---------------------------------------------------------------------------
  // The tokens of the lines Export writes

  /** The tokens Export writes for the slots of a face. */
  function FaceTokens(slots: seq<VertexNumber>): seq<string> {
    Map(slots, FaceToken)
  }

  function FaceLineTokens(slots: seq<VertexNumber>): seq<string> {
    ["f"] + FaceTokens(slots)
  }

  function VertexTokens(x: real, y: real, z: real, fmt: DoubleFormatter): seq<string> {
    ["v", fmt(x), fmt(y), fmt(z)]
  }

  function TexcoordTokens(t: Texcoord, fmt: DoubleFormatter): seq<string> {
    ["vt", fmt(t.u), fmt(t.v)]
  }

  function NormalTokens(n: Normal, fmt: DoubleFormatter): seq<string> {
    ["vn", fmt(n.x), fmt(n.y), fmt(n.z)]
  }

  lemma FaceTokensSnoc(slots: seq<VertexNumber>)
    requires slots != []
    ensures FaceTokens(slots) == FaceTokens(slots[..|slots| - 1]) + [FaceToken(slots[|slots| - 1])]
  {
    MapSnoc(slots, FaceToken);
  }

  lemma {:induction false} FaceTextJoin(slots: seq<VertexNumber>)
    ensures FaceText(slots) == Join(FaceLineTokens(slots), ' ')
    decreases |slots|
  {
    if slots != [] {
      var n := |slots| - 1;
      var init := FaceLineTokens(slots[..n]);
      var last := FaceToken(slots[n]);
      FaceTextJoin(slots[..n]);
      JoinSnoc(init, last, ' ');
      FaceTokensSnoc(slots);
      assert FaceLineTokens(slots) == init + [last];
      assert FaceText(slots) == FaceText(slots[..n]) + " " + last;
    }
  }

  /** A face line Export writes splits into "f" and one token per slot. */
  lemma FaceTextTokens(slots: seq<VertexNumber>)
    ensures Tokenize(FaceText(slots)) == FaceLineTokens(slots)
  {
    FaceTextJoin(slots);
    forall j | 0 <= j < |slots| {
      FaceTokenRoundTrip(slots[j]);
    }
    TokenizeJoin(FaceLineTokens(slots));
  }

  /** A vertex line Export writes splits into "v" and the three numbers as written. */
  lemma VertexTextTokens(x: real, y: real, z: real, fmt: DoubleFormatter)
    requires WritesToken(fmt, x) && WritesToken(fmt, y) && WritesToken(fmt, z)
    ensures Tokenize(VertexText(x, y, z, fmt)) == VertexTokens(x, y, z, fmt)
  {
    var p := VertexTokens(x, y, z, fmt);
    assert Join(p[3..], ' ') == fmt(z);
    assert Join(p[2..], ' ') == fmt(y) + " " + fmt(z);
    assert Join(p[1..], ' ') == fmt(x) + " " + (fmt(y) + " " + fmt(z));
    assert Join(p, ' ') == "v" + " " + (fmt(x) + " " + (fmt(y) + " " + fmt(z)));
    assert VertexText(x, y, z, fmt) == Join(p, ' ');
    TokenizeJoin(p);
  }

  lemma TexcoordTextTokens(t: Texcoord, fmt: DoubleFormatter)
    requires WritesToken(fmt, t.u) && WritesToken(fmt, t.v)
    ensures Tokenize(TexcoordText(t, fmt)) == TexcoordTokens(t, fmt)
  {
    var p := TexcoordTokens(t, fmt);
    assert Join(p[2..], ' ') == fmt(t.v);
    assert Join(p[1..], ' ') == fmt(t.u) + " " + fmt(t.v);
    assert Join(p, ' ') == "vt" + " " + (fmt(t.u) + " " + fmt(t.v));
    assert TexcoordText(t, fmt) == Join(p, ' ');
    TokenizeJoin(p);
  }

  lemma NormalTextTokens(n: Normal, fmt: DoubleFormatter)
    requires WritesToken(fmt, n.x) && WritesToken(fmt, n.y) && WritesToken(fmt, n.z)
    ensures Tokenize(NormalText(n, fmt)) == NormalTokens(n, fmt)
  {
    var p := NormalTokens(n, fmt);
    assert Join(p[3..], ' ') == fmt(n.z);
    assert Join(p[2..], ' ') == fmt(n.y) + " " + fmt(n.z);
    assert Join(p[1..], ' ') == fmt(n.x) + " " + (fmt(n.y) + " " + fmt(n.z));
    assert Join(p, ' ') == "vn" + " " + (fmt(n.x) + " " + (fmt(n.y) + " " + fmt(n.z)));
    assert NormalText(n, fmt) == Join(p, ' ');
    TokenizeJoin(p);
  }

  // ---------------------------------------------------------------------------
  // Reading one exported line back

  /** Export's tokens for a face parse back into its slots. */
  lemma ParseFaceTokens(slots: seq<VertexNumber>)
    ensures |ParseTokens(FaceTokens(slots))| == |slots|
    ensures forall j :: 0 <= j < |slots| ==>
      ParseTokens(FaceTokens(slots))[j] == Some((slots[j], slots[j].vNum != 0 && slots[j].nNum != 0))
  {
    forall j | 0 <= j < |slots|
      ensures ParseTokens(FaceTokens(slots))[j] == Some((slots[j], slots[j].vNum != 0 && slots[j].nNum != 0))
    {
      FaceTokenRoundTrip(slots[j]);
    }
  }

  /** The back-references a face with index fi and slots `slots` adds to the vertices. */
  function AddSlotRefs(vs: seq<MeshVertex>, fi: int, slots: seq<VertexNumber>): seq<MeshVertex> {
    seq(|vs|, k requires 0 <= k < |vs| => vs[k].(faces := vs[k].faces + SlotRefs(fi, slots, k)))
  }

  /** Re-reading an exported face line whose slots name vertices already read: the face comes
      back with the same slots when every slot has a normal number, and is reported as
      skipped otherwise (Export writes a 0 as an empty field, which does not parse); either
      way every slot leaves its back-reference on its vertex. */
  lemma ImportFaceTokens(st: ImportState, slots: seq<VertexNumber>, lineNo: nat, parse: DoubleParser)
    requires forall j :: 0 <= j < |slots| ==> 1 <= slots[j].vNum <= |st.vs|
    ensures ImportLine(st, FaceLineTokens(slots), lineNo, parse) ==
      Ok(if forall j :: 0 <= j < |slots| ==> slots[j].nNum != 0
         then st.(vs := AddSlotRefs(st.vs, |st.fs|, slots), fs := st.fs + [MeshFace(slots)])
         else st.(vs := AddSlotRefs(st.vs, |st.fs|, slots), skipped := st.skipped + [Skip(lineNo, FaceLine)]))
  {
    var tokens := FaceLineTokens(slots);
    assert tokens[1..] == FaceTokens(slots);
    assert ImportLine(st, tokens, lineNo, parse) == FaceLineEffect(st, tokens, lineNo);
    var parsed := ParseTokens(tokens[1..]);
    ScanExportedSlots(st.vs, |st.fs|, slots);
    var sc := ScanSlots(st.vs, |st.fs|, parsed).value;
    assert FaceLineEffect(st, tokens, lineNo) ==
      if sc.ok then Ok(st.(vs := sc.vs, fs := st.fs + [MeshFace(sc.slots)]))
      else Ok(st.(vs := sc.vs, skipped := st.skipped + [Skip(lineNo, FaceLine)]));
  }

  /** The token loop over Export's tokens for a face whose slots name existing vertices. */
  lemma ScanExportedSlots(vs: seq<MeshVertex>, fi: int, slots: seq<VertexNumber>)
    requires forall j :: 0 <= j < |slots| ==> 1 <= slots[j].vNum <= |vs|
    ensures var r := ScanSlots(vs, fi, ParseTokens(FaceTokens(slots)));
      && r.Ok? && r.value.slots == slots && r.value.vs == AddSlotRefs(vs, fi, slots)
      && (r.value.ok <==> forall j :: 0 <= j < |slots| ==> slots[j].nNum != 0)
  {
    var parsed := ParseTokens(FaceTokens(slots));
    ParseFaceTokens(slots);
    assert forall j :: 0 <= j < |parsed| ==> SlotFits(parsed[j], |vs|);
    ScanSlotsEffect(vs, fi, parsed);
    var r := ScanSlots(vs, fi, parsed);
    assert r.Ok?;
    var sc := r.value;
    assert Scanned(vs, fi, parsed, sc);
    assert sc.slots == slots by {
      forall j | 0 <= j < |slots|
        ensures sc.slots[j] == slots[j]
      {
        assert parsed[j].value.0 == slots[j];
      }
    }
    assert sc.ok <==> forall j :: 0 <= j < |slots| ==> slots[j].nNum != 0 by {
      forall j | 0 <= j < |slots|
        ensures parsed[j].value.1 <==> slots[j].nNum != 0
      {
        assert parsed[j].value.1 == (slots[j].vNum != 0 && slots[j].nNum != 0);
      }
    }
    assert sc.vs == AddSlotRefs(vs, fi, slots);
  }

  /** In particular a face Export writes with a slot whose normal number is 0 is skipped when
      the file is read back. */
  lemma ExportedFaceWithoutNormalSkipped(st: ImportState, slots: seq<VertexNumber>, lineNo: nat, parse: DoubleParser, j: nat)
    requires forall j :: 0 <= j < |slots| ==> 1 <= slots[j].vNum <= |st.vs|
    requires j < |slots| && slots[j].nNum == 0
    ensures ImportLine(st, Tokenize(FaceText(slots)), lineNo, parse).Ok?
    ensures ImportLine(st, Tokenize(FaceText(slots)), lineNo, parse).value.fs == st.fs
    ensures ImportLine(st, Tokenize(FaceText(slots)), lineNo, parse).value.skipped == st.skipped + [Skip(lineNo, FaceLine)]
  {
    FaceTextTokens(slots);
    ImportFaceTokens(st, slots, lineNo, parse);
  }

  /** An exported vertex line reads back as a vertex at the same position, with the empty
      colour and no back-references. */
  lemma ImportVertexTokens(st: ImportState, x: real, y: real, z: real, lineNo: nat, fmt: DoubleFormatter, parse: DoubleParser)
    requires ParsesBack(fmt, parse, x) && ParsesBack(fmt, parse, y) && ParsesBack(fmt, parse, z)
    ensures ImportLine(st, VertexTokens(x, y, z, fmt), lineNo, parse) ==
            Ok(st.(vs := st.vs + [MeshVertex(x, y, z, EmptyColor, [])]))
  {
    assert parse(fmt(x)) == Some(x) && parse(fmt(y)) == Some(y) && parse(fmt(z)) == Some(z);
  }

  lemma ImportTexcoordTokens(st: ImportState, t: Texcoord, lineNo: nat, fmt: DoubleFormatter, parse: DoubleParser)
    requires ParsesBack(fmt, parse, t.u) && ParsesBack(fmt, parse, t.v)
    ensures ImportLine(st, TexcoordTokens(t, fmt), lineNo, parse) == Ok(st.(vts := st.vts + [t]))
  {
    assert parse(fmt(t.u)) == Some(t.u) && parse(fmt(t.v)) == Some(t.v);
  }

  lemma ImportNormalTokens(st: ImportState, n: Normal, lineNo: nat, fmt: DoubleFormatter, parse: DoubleParser)
    requires ParsesBack(fmt, parse, n.x) && ParsesBack(fmt, parse, n.y) && ParsesBack(fmt, parse, n.z)
    ensures ImportLine(st, NormalTokens(n, fmt), lineNo, parse) == Ok(st.(ns := st.ns + [n]))
  {
    assert parse(fmt(n.x)) == Some(n.x) && parse(fmt(n.y)) == Some(n.y) && parse(fmt(n.z)) == Some(n.z);
  }

  // ---------------------------------------------------------------------------
  // Whole files

  /** The vertices the importer builds from exported vertex lines: same positions, the empty
      colour (Export does not write colours) and no back-references yet. */
  function Plain(vs: seq<MeshVertex>): seq<MeshVertex> {
    seq(|vs|, i requires 0 <= i < |vs| => MeshVertex(vs[i].x, vs[i].y, vs[i].z, EmptyColor, []))
  }

  /** Vertices `vs` with the back-references of the faces `fs` appended. */
  function WithRefs(vs: seq<MeshVertex>, fs: seq<MeshFace>): seq<MeshVertex> {
    seq(|vs|, k requires 0 <= k < |vs| => vs[k].(faces := vs[k].faces + Refs(fs, k)))
  }

  /** Every slot of `fs` names one of the first n vertices and has a normal number. */
  predicate Reimportable(n: int, fs: seq<MeshFace>) {
    forall i, j :: 0 <= i < |fs| && 0 <= j < |fs[i].face| ==>
      1 <= fs[i].face[j].vNum <= n && fs[i].face[j].nNum != 0
  }

  function VertexTokenLines(vs: seq<MeshVertex>, fmt: DoubleFormatter): seq<seq<string>> {
    seq(|vs|, i requires 0 <= i < |vs| => VertexTokens(vs[i].x, vs[i].y, vs[i].z, fmt))
  }

  function TexcoordTokenLines(ts: seq<Texcoord>, fmt: DoubleFormatter): seq<seq<string>> {
    seq(|ts|, i requires 0 <= i < |ts| => TexcoordTokens(ts[i], fmt))
  }

  function NormalTokenLines(ns: seq<Normal>, fmt: DoubleFormatter): seq<seq<string>> {
    seq(|ns|, i requires 0 <= i < |ns| => NormalTokens(ns[i], fmt))
  }

  function FaceTokenLines(fs: seq<MeshFace>): seq<seq<string>> {
    seq(|fs|, i requires 0 <= i < |fs| => FaceLineTokens(fs[i].face))
  }

  lemma TokenizeLinesAppend(a: seq<string>, b: seq<string>)
    ensures TokenizeLines(a + b) == TokenizeLines(a) + TokenizeLines(b)
  {
  }

  lemma TokenizeVertexLines(vs: seq<MeshVertex>, fmt: DoubleFormatter)
    requires forall i :: 0 <= i < |vs| ==> WritesToken(fmt, vs[i].x) && WritesToken(fmt, vs[i].y) && WritesToken(fmt, vs[i].z)
    ensures TokenizeLines(VertexLines(vs, fmt)) == VertexTokenLines(vs, fmt)
  {
    forall i | 0 <= i < |vs|
      ensures TokenizeLines(VertexLines(vs, fmt))[i] == VertexTokenLines(vs, fmt)[i]
    {
      VertexTextTokens(vs[i].x, vs[i].y, vs[i].z, fmt);
    }
  }

  lemma TokenizeTexcoordLines(ts: seq<Texcoord>, fmt: DoubleFormatter)
    requires forall i :: 0 <= i < |ts| ==> WritesToken(fmt, ts[i].u) && WritesToken(fmt, ts[i].v)
    ensures TokenizeLines(TexcoordLines(ts, fmt)) == TexcoordTokenLines(ts, fmt)
  {
    forall i | 0 <= i < |ts|
      ensures TokenizeLines(TexcoordLines(ts, fmt))[i] == TexcoordTokenLines(ts, fmt)[i]
    {
      TexcoordTextTokens(ts[i], fmt);
    }
  }

  lemma TokenizeNormalLines(ns: seq<Normal>, fmt: DoubleFormatter)
    requires forall i :: 0 <= i < |ns| ==> WritesToken(fmt, ns[i].x) && WritesToken(fmt, ns[i].y) && WritesToken(fmt, ns[i].z)
    ensures TokenizeLines(NormalLines(ns, fmt)) == NormalTokenLines(ns, fmt)
  {
    forall i | 0 <= i < |ns|
      ensures TokenizeLines(NormalLines(ns, fmt))[i] == NormalTokenLines(ns, fmt)[i]
    {
      NormalTextTokens(ns[i], fmt);
    }
  }

  lemma TokenizeFaceLines(fs: seq<MeshFace>)
    ensures TokenizeLines(FaceLines(fs)) == FaceTokenLines(fs)
  {
    forall i | 0 <= i < |fs|
      ensures TokenizeLines(FaceLines(fs))[i] == FaceTokenLines(fs)[i]
    {
      FaceTextTokens(fs[i].face);
    }
  }

  /** The tokens of an exported file, section by section. */
  function ExportTokens(m: Mesh, fmt: DoubleFormatter): seq<seq<string>> {
    VertexTokenLines(m.verticies, fmt) + TexcoordTokenLines(m.texcoords, fmt) +
    NormalTokenLines(m.normals, fmt) + FaceTokenLines(m.faces)
  }

  lemma TokenizeExport(m: Mesh, fmt: DoubleFormatter)
    requires MeshWritten(fmt, m)
    ensures TokenizeLines(ExportMesh(m, fmt)) == ExportTokens(m, fmt)
  {
    var vl, tl := VertexLines(m.verticies, fmt), TexcoordLines(m.texcoords, fmt);
    var nl, fl := NormalLines(m.normals, fmt), FaceLines(m.faces);
    TokenizeLinesAppend(vl + tl + nl, fl);
    TokenizeLinesAppend(vl + tl, nl);
    TokenizeLinesAppend(vl, tl);
    TokenizeVertexLines(m.verticies, fmt);
    TokenizeTexcoordLines(m.texcoords, fmt);
    TokenizeNormalLines(m.normals, fmt);
    TokenizeFaceLines(m.faces);
  }

  /** Running the lines `a + b` is running `a`, then `b` from where `a` left off. */
  lemma {:induction false} RunAppend(step: LineStep, st: ImportState, first: nat, a: seq<seq<string>>, b: seq<seq<string>>, mid: ImportState)
    requires Run(step, st, first, a) == Ok(mid)
    ensures Run(step, st, first, a + b) == Run(step, mid, first + |a|, b)
    decreases |b|
  {
    if b == [] {
      assert a + b == a;
    } else {
      var n := |b| - 1;
      RunAppend(step, st, first, a, b[..n], mid);
      assert (a + b)[..|a + b| - 1] == a + b[..n];
      assert (a + b)[|a + b| - 1] == b[n];
    }
  }

  /** A run through states[0], states[1], ...: line i + 1 takes states[i] to states[i + 1]. */
  lemma {:induction false} RunStates(step: LineStep, first: nat, lines: seq<seq<string>>, states: seq<ImportState>)
    requires |states| == |lines| + 1
    requires forall i :: 0 <= i < |lines| ==> step(states[i], lines[i], first + i + 1) == Ok(states[i + 1])
    ensures Run(step, states[0], first, lines) == Ok(states[|lines|])
    decreases |lines|
  {
    if lines != [] {
      var n := |lines| - 1;
      RunStates(step, first, lines[..n], states[..n + 1]);
      assert step(states[n], lines[n], first + n + 1) == Ok(states[n + 1]);
    }
  }

  /** What a step does with the tokens of each kind of exported line, for the vertices,
      texture coordinates and normals of one mesh. */
  ghost predicate ReadsVertices(step: LineStep, fmt: DoubleFormatter, vs: seq<MeshVertex>) {
    forall s: ImportState, i: int, n: nat :: 0 <= i < |vs| ==>
      step(s, VertexTokens(vs[i].x, vs[i].y, vs[i].z, fmt), n) ==
      Ok(s.(vs := s.vs + [MeshVertex(vs[i].x, vs[i].y, vs[i].z, EmptyColor, [])]))
  }

  ghost predicate ReadsTexcoords(step: LineStep, fmt: DoubleFormatter, ts: seq<Texcoord>) {
    forall s: ImportState, i: int, n: nat :: 0 <= i < |ts| ==>
      step(s, TexcoordTokens(ts[i], fmt), n) == Ok(s.(vts := s.vts + [ts[i]]))
  }

  ghost predicate ReadsNormals(step: LineStep, fmt: DoubleFormatter, ns: seq<Normal>) {
    forall s: ImportState, i: int, n: nat :: 0 <= i < |ns| ==>
      step(s, NormalTokens(ns[i], fmt), n) == Ok(s.(ns := s.ns + [ns[i]]))
  }

  ghost predicate ReadsFaces(step: LineStep) {
    forall s: ImportState, slots: seq<VertexNumber>, n: nat ::
      (forall j :: 0 <= j < |slots| ==> 1 <= slots[j].vNum <= |s.vs| && slots[j].nNum != 0) ==>
      step(s, FaceLineTokens(slots), n) == Ok(s.(vs := AddSlotRefs(s.vs, |s.fs|, slots), fs := s.fs + [MeshFace(slots)]))
  }

  /** When every number of m reads back as itself, the importer's line step reads each kind
      of line Export writes for m back as its element. */
  lemma ImportStepReads(m: Mesh, fmt: DoubleFormatter, parse: DoubleParser)
    requires MeshParsesBack(fmt, parse, m)
    ensures ReadsVertices(ImportStep(parse), fmt, m.verticies) && ReadsTexcoords(ImportStep(parse), fmt, m.texcoords)
    ensures ReadsNormals(ImportStep(parse), fmt, m.normals) && ReadsFaces(ImportStep(parse))
  {
    var step := ImportStep(parse);
    var vs, ts, ns := m.verticies, m.texcoords, m.normals;
    forall s: ImportState, i: int, n: nat | 0 <= i < |vs|
      ensures step(s, VertexTokens(vs[i].x, vs[i].y, vs[i].z, fmt), n) ==
              Ok(s.(vs := s.vs + [MeshVertex(vs[i].x, vs[i].y, vs[i].z, EmptyColor, [])]))
    {
      ImportVertexTokens(s, vs[i].x, vs[i].y, vs[i].z, n, fmt, parse);
    }
    forall s: ImportState, i: int, n: nat | 0 <= i < |ts|
      ensures step(s, TexcoordTokens(ts[i], fmt), n) == Ok(s.(vts := s.vts + [ts[i]]))
    {
      ImportTexcoordTokens(s, ts[i], n, fmt, parse);
    }
    forall s: ImportState, i: int, n: nat | 0 <= i < |ns|
      ensures step(s, NormalTokens(ns[i], fmt), n) == Ok(s.(ns := s.ns + [ns[i]]))
    {
      ImportNormalTokens(s, ns[i], n, fmt, parse);
    }
    forall s: ImportState, slots: seq<VertexNumber>, n: nat |
      forall j :: 0 <= j < |slots| ==> 1 <= slots[j].vNum <= |s.vs| && slots[j].nNum != 0
      ensures step(s, FaceLineTokens(slots), n) == Ok(s.(vs := AddSlotRefs(s.vs, |s.fs|, slots), fs := s.fs + [MeshFace(slots)]))
    {
      ImportFaceTokens(s, slots, n, parse);
    }
  }

  lemma VertexSection(step: LineStep, st: ImportState, first: nat, vs: seq<MeshVertex>, fmt: DoubleFormatter, st': ImportState)
    requires ReadsVertices(step, fmt, vs) && st' == st.(vs := st.vs + Plain(vs))
    ensures Run(step, st, first, VertexTokenLines(vs, fmt)) == Ok(st')
  {
    var lines := VertexTokenLines(vs, fmt);
    var states := seq(|vs| + 1, i requires 0 <= i <= |vs| => st.(vs := st.vs + Plain(vs[..i])));
    forall i | 0 <= i < |lines|
      ensures step(states[i], lines[i], first + i + 1) == Ok(states[i + 1])
    {
      var v := MeshVertex(vs[i].x, vs[i].y, vs[i].z, EmptyColor, []);
      assert Plain(vs[..i + 1]) == Plain(vs[..i]) + [v];
      assert states[i + 1] == states[i].(vs := states[i].vs + [v]);
    }
    RunStates(step, first, lines, states);
    assert vs[..|vs|] == vs && Plain([]) == [] && st.vs + [] == st.vs;
  }

  lemma TexcoordSection(step: LineStep, st: ImportState, first: nat, ts: seq<Texcoord>, fmt: DoubleFormatter, st': ImportState)
    requires ReadsTexcoords(step, fmt, ts) && st' == st.(vts := st.vts + ts)
    ensures Run(step, st, first, TexcoordTokenLines(ts, fmt)) == Ok(st')
  {
    var lines := TexcoordTokenLines(ts, fmt);
    var states := seq(|ts| + 1, i requires 0 <= i <= |ts| => st.(vts := st.vts + ts[..i]));
    forall i | 0 <= i < |lines|
      ensures step(states[i], lines[i], first + i + 1) == Ok(states[i + 1])
    {
      assert ts[..i + 1] == ts[..i] + [ts[i]];
      assert states[i + 1] == states[i].(vts := states[i].vts + [ts[i]]);
    }
    RunStates(step, first, lines, states);
    assert ts[..|ts|] == ts && st.vts + [] == st.vts;
  }

  lemma NormalSection(step: LineStep, st: ImportState, first: nat, ns: seq<Normal>, fmt: DoubleFormatter, st': ImportState)
    requires ReadsNormals(step, fmt, ns) && st' == st.(ns := st.ns + ns)
    ensures Run(step, st, first, NormalTokenLines(ns, fmt)) == Ok(st')
  {
    var lines := NormalTokenLines(ns, fmt);
    var states := seq(|ns| + 1, i requires 0 <= i <= |ns| => st.(ns := st.ns + ns[..i]));
    forall i | 0 <= i < |lines|
      ensures step(states[i], lines[i], first + i + 1) == Ok(states[i + 1])
    {
      assert ns[..i + 1] == ns[..i] + [ns[i]];
      assert states[i + 1] == states[i].(ns := states[i].ns + [ns[i]]);
    }
    RunStates(step, first, lines, states);
    assert ns[..|ns|] == ns && st.ns + [] == st.ns;
  }

  lemma AddFaceRefs(vs: seq<MeshVertex>, fs: seq<MeshFace>)
    requires fs != []
    ensures AddSlotRefs(WithRefs(vs, fs[..|fs| - 1]), |fs| - 1, fs[|fs| - 1].face) == WithRefs(vs, fs)
  {
    var n := |fs| - 1;
    forall k | 0 <= k < |vs|
      ensures AddSlotRefs(WithRefs(vs, fs[..n]), n, fs[n].face)[k] == WithRefs(vs, fs)[k]
    {
      assert Refs(fs, k) == Refs(fs[..n], k) + SlotRefs(n, fs[n].face, k);
      assert vs[k].faces + Refs(fs[..n], k) + SlotRefs(n, fs[n].face, k) == vs[k].faces + Refs(fs, k);
    }
  }

  lemma NoRefs(vs: seq<MeshVertex>)
    ensures WithRefs(vs, []) == vs
  {
    forall k | 0 <= k < |vs|
      ensures WithRefs(vs, [])[k] == vs[k]
    {
      assert vs[k].faces + [] == vs[k].faces;
    }
  }

  lemma FaceSection(step: LineStep, st: ImportState, first: nat, fs: seq<MeshFace>, st': ImportState)
    requires ReadsFaces(step)
    requires st.fs == [] && Reimportable(|st.vs|, fs) && st' == st.(vs := WithRefs(st.vs, fs), fs := fs)
    ensures Run(step, st, first, FaceTokenLines(fs)) == Ok(st')
  {
    var lines := FaceTokenLines(fs);
    var states := seq(|fs| + 1, i requires 0 <= i <= |fs| => st.(vs := WithRefs(st.vs, fs[..i]), fs := fs[..i]));
    forall i | 0 <= i < |lines|
      ensures step(states[i], lines[i], first + i + 1) == Ok(states[i + 1])
    {
      var s, slots := states[i], fs[i].face;
      assert forall j :: 0 <= j < |slots| ==> 1 <= slots[j].vNum <= |s.vs| && slots[j].nNum != 0;
      assert fs[..i + 1][..i] == fs[..i];
      AddFaceRefs(st.vs, fs[..i + 1]);
      assert fs[..i] + [MeshFace(slots)] == fs[..i + 1];
    }
    RunStates(step, first, lines, states);
    NoRefs(st.vs);
    assert fs[..|fs|] == fs && fs[..0] == [];
  }

  /** Two runs back to back, the second starting where the first ended. */
  lemma RunThen(step: LineStep, st: ImportState, first: nat, a: seq<seq<string>>, b: seq<seq<string>>, s1: ImportState, s2: ImportState)
    requires Run(step, st, first, a) == Ok(s1)
    requires Run(step, s1, first + |a|, b) == Ok(s2)
    ensures Run(step, st, first, a + b) == Ok(s2)
  {
    RunAppend(step, st, first, a, b, s1);
  }

  /** The vertex and texture-coordinate sections of an exported file. */
  lemma FrontRun(step: LineStep, m: Mesh, fmt: DoubleFormatter, s2: ImportState)
    requires ReadsVertices(step, fmt, m.verticies) && ReadsTexcoords(step, fmt, m.texcoords)
    requires s2 == ImportState(Plain(m.verticies), m.texcoords, [], [], [])
    ensures Run(step, EmptyState, 0, VertexTokenLines(m.verticies, fmt) + TexcoordTokenLines(m.texcoords, fmt)) == Ok(s2)
  {
    var a := VertexTokenLines(m.verticies, fmt);
    var s1 := ImportState(Plain(m.verticies), [], [], [], []);
    VertexSection(step, EmptyState, 0, m.verticies, fmt, s1);
    TexcoordSection(step, s1, |a|, m.texcoords, fmt, s2);
    RunThen(step, EmptyState, 0, a, TexcoordTokenLines(m.texcoords, fmt), s1, s2);
  }

  /** The normal and face sections of an exported file, read after the first two. */
  lemma BackRun(step: LineStep, m: Mesh, fmt: DoubleFormatter, first: nat, s2: ImportState, s4: ImportState)
    requires ReadsNormals(step, fmt, m.normals) && ReadsFaces(step)
    requires Reimportable(|m.verticies|, m.faces)
    requires s2 == ImportState(Plain(m.verticies), m.texcoords, [], [], [])
    requires s4 == ImportState(WithRefs(Plain(m.verticies), m.faces), m.texcoords, m.normals, m.faces, [])
    ensures Run(step, s2, first, NormalTokenLines(m.normals, fmt) + FaceTokenLines(m.faces)) == Ok(s4)
  {
    var c := NormalTokenLines(m.normals, fmt);
    var s3 := s2.(ns := m.normals);
    NormalSection(step, s2, first, m.normals, fmt, s3);
    assert |Plain(m.verticies)| == |m.verticies|;
    FaceSection(step, s3, first + |c|, m.faces, s4);
    RunThen(step, s2, first, c, FaceTokenLines(m.faces), s3, s4);
  }

  /** A step that reads every kind of exported line as the importer does takes the tokens
      of an exported file to the mesh they were written from. */
  lemma ExportRun(step: LineStep, m: Mesh, fmt: DoubleFormatter)
    requires ReadsVertices(step, fmt, m.verticies) && ReadsTexcoords(step, fmt, m.texcoords)
    requires ReadsNormals(step, fmt, m.normals) && ReadsFaces(step)
    requires Reimportable(|m.verticies|, m.faces)
    ensures Run(step, EmptyState, 0, ExportTokens(m, fmt)) ==
            Ok(ImportState(WithRefs(Plain(m.verticies), m.faces), m.texcoords, m.normals, m.faces, []))
  {
    var front := VertexTokenLines(m.verticies, fmt) + TexcoordTokenLines(m.texcoords, fmt);
    var back := NormalTokenLines(m.normals, fmt) + FaceTokenLines(m.faces);
    var s2 := ImportState(Plain(m.verticies), m.texcoords, [], [], []);
    var s4 := ImportState(WithRefs(Plain(m.verticies), m.faces), m.texcoords, m.normals, m.faces, []);
    FrontRun(step, m, fmt, s2);
    BackRun(step, m, fmt, |front|, s2, s4);
    RunThen(step, EmptyState, 0, front, back, s2, s4);
    assert front + back == ExportTokens(m, fmt);
  }

  /** Re-reading what Export writes: when the number formatter and parser agree on the mesh's
      numbers and every slot
      names an existing vertex and has a normal number, the importer accepts every line,
      skips none, and rebuilds the same texture coordinates, normals and faces, and the same
      vertex positions with the empty colour and the back-references of the faces. */
  lemma ExportImport(m: Mesh, fmt: DoubleFormatter, parse: DoubleParser)
    requires RoundTripsOn(fmt, parse, m)
    requires Reimportable(|m.verticies|, m.faces)
    ensures ImportLines(ExportMesh(m, fmt), parse) ==
            Ok(ImportState(WithRefs(Plain(m.verticies), m.faces), m.texcoords, m.normals, m.faces, []))
  {
    ImportStepReads(m, fmt, parse);
    TokenizeExport(m, fmt);
    ExportRun(ImportStep(parse), m, fmt);
  }

  /** A consistent mesh whose vertices carry the empty colour comes back unchanged, with
      nothing skipped. */
  lemma ReimportIsIdentity(m: Mesh, fmt: DoubleFormatter, parse: DoubleParser)
    requires RoundTripsOn(fmt, parse, m)
    requires Reimportable(|m.verticies|, m.faces) && Consistent(m.verticies, m.faces)
    requires forall k :: 0 <= k < |m.verticies| ==> m.verticies[k].c == EmptyColor
    ensures ImportLines(ExportMesh(m, fmt), parse).Ok?
    ensures MeshOf(ImportLines(ExportMesh(m, fmt), parse).value) == m
    ensures ImportLines(ExportMesh(m, fmt), parse).value.skipped == []
  {
    ExportImport(m, fmt, parse);
    var vs := WithRefs(Plain(m.verticies), m.faces);
    forall k | 0 <= k < |m.verticies|
      ensures vs[k] == m.verticies[k]
    {
      assert [] + Refs(m.faces, k) == Refs(m.faces, k);
    }
    assert vs == m.verticies;
  }
}
