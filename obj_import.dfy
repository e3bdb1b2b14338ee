/** Model.Import: reading an OBJ text line by line into a model, building each vertex's
    back-references while the faces are read. */
module ObjImport {
  import opened Common
  import opened Text
  import opened MeshModel

  /** The exceptions Import lets escape; each aborts the whole import. */
  datatype Failure =
    | MissingField            // line[k] past the end of a v, vt or vn line
    | MissingSlash            // vn_strs[1] or vn_strs[2] past the end of a face token
    | VertexNumberOutOfRange  // vs[v_num - 1] outside the vertices read so far

  datatype ImportError = ImportError(line: nat, failure: Failure)

  datatype LineKind = VertexLine | TexcoordLine | NormalLine | FaceLine

  /** The console message for a rejected line: its 1-based number and its kind. */
  datatype Skip = Skip(line: nat, kind: LineKind)

  /** double.TryParse, left abstract: None when the text is not a number. */
  type DoubleParser = string -> Option<real>

  /** The lists Import grows, and the messages it has written. */
  datatype ImportState = ImportState(vs: seq<MeshVertex>, vts: seq<Texcoord>, ns: seq<Normal>,
                                     fs: seq<MeshFace>, skipped: seq<Skip>)

  const EmptyState: ImportState := ImportState([], [], [], [], [])

  function MeshOf(st: ImportState): Mesh {
    Mesh(st.vs, st.vts, st.ns, st.fs)
  }

  // ---------------------------------------------------------------------------
  // Face lines

  /** A face token split on '/': the slot it denotes and whether its vertex and normal
      numbers both parsed (a texcoord number that does not parse is 0 and harmless).
      None when the token has fewer than two slashes. */
  function ParseFaceToken(token: string): Option<(VertexNumber, bool)>
  {
    var parts := Split(token, '/');
    if |parts| < 3 then None
    else
      var v, t, n := ParseInt(parts[0]), ParseInt(parts[1]), ParseInt(parts[2]);
      Some((VertexNumber(v.GetOr(0), t.GetOr(0), n.GetOr(0)), v.Some? && n.Some?))
  }

  type ParsedToken = Option<(VertexNumber, bool)>

  /** The tokens of a face line, each parsed on its own. */
  function ParseTokens(tokens: seq<string>): seq<ParsedToken> {
    seq(|tokens|, j requires 0 <= j < |tokens| => ParseFaceToken(tokens[j]))
  }

  /** The state of the token loop of a face line: the vertices (whose back-references it
      extends), the slots read so far, and `tryResult`. */
  datatype FaceScan = FaceScan(vs: seq<MeshVertex>, slots: seq<VertexNumber>, ok: bool)

  function AddRef(v: MeshVertex, p: Point): MeshVertex {
    v.(faces := v.faces + [p])
  }

  /** One parsed token of a face line whose face will get index `faceIndex`. */
  function ScanSlot(sc: FaceScan, faceIndex: int, token: ParsedToken): Result<FaceScan, Failure>
  {
    match token
    case None => Err(MissingSlash)
    case Some((vn, parsed)) =>
      if !(1 <= vn.vNum <= |sc.vs|) then Err(VertexNumberOutOfRange)
      else
        var k := vn.vNum - 1;
        Ok(FaceScan(sc.vs[k := AddRef(sc.vs[k], Point(faceIndex, |sc.slots|))],
                    sc.slots + [vn], sc.ok && parsed))
  }

  /** The token loop over a whole face line, token by token from the first. */
  function ScanSlots(vs: seq<MeshVertex>, faceIndex: int, tokens: seq<ParsedToken>): Result<FaceScan, Failure>
    decreases |tokens|
  {
    if tokens == [] then Ok(FaceScan(vs, [], true))
    else
      match ScanSlots(vs, faceIndex, tokens[..|tokens| - 1])
      case Err(e) => Err(e)
      case Ok(sc) => ScanSlot(sc, faceIndex, tokens[|tokens| - 1])
  }

  // ---------------------------------------------------------------------------
  // Lines

  /** The effect of one line (1-based number `lineNo`), split into its tokens, on the lists:
      the first token says what the line adds; a blank line or an unknown tag adds nothing. */
  function ImportLine(st: ImportState, tokens: seq<string>, lineNo: nat, parse: DoubleParser): Result<ImportState, Failure>
  {
    if tokens == [] then Ok(st)
    else if tokens[0] == "v" then VertexLineEffect(st, tokens, lineNo, parse)
    else if tokens[0] == "vt" then TexcoordLineEffect(st, tokens, lineNo, parse)
    else if tokens[0] == "vn" then NormalLineEffect(st, tokens, lineNo, parse)
    else if tokens[0] == "f" then FaceLineEffect(st, tokens, lineNo)
    else Ok(st)
  }

  /** "v x y z": a vertex with the empty colour and no back-references, or a message when a
      coordinate does not parse. */
  function VertexLineEffect(st: ImportState, tokens: seq<string>, lineNo: nat, parse: DoubleParser): Result<ImportState, Failure> {
    if |tokens| < 4 then Err(MissingField)
    else
      var x, y, z := parse(tokens[1]), parse(tokens[2]), parse(tokens[3]);
      if x.Some? && y.Some? && z.Some? then
        Ok(st.(vs := st.vs + [MeshVertex(x.value, y.value, z.value, EmptyColor, [])]))
      else Ok(st.(skipped := st.skipped + [Skip(lineNo, VertexLine)]))
  }

  /** "vt u v". */
  function TexcoordLineEffect(st: ImportState, tokens: seq<string>, lineNo: nat, parse: DoubleParser): Result<ImportState, Failure> {
    if |tokens| < 3 then Err(MissingField)
    else
      var u, v := parse(tokens[1]), parse(tokens[2]);
      if u.Some? && v.Some? then Ok(st.(vts := st.vts + [Texcoord(u.value, v.value)]))
      else Ok(st.(skipped := st.skipped + [Skip(lineNo, TexcoordLine)]))
  }

  /** "vn x y z". */
  function NormalLineEffect(st: ImportState, tokens: seq<string>, lineNo: nat, parse: DoubleParser): Result<ImportState, Failure> {
    if |tokens| < 4 then Err(MissingField)
    else
      var x, y, z := parse(tokens[1]), parse(tokens[2]), parse(tokens[3]);
      if x.Some? && y.Some? && z.Some? then Ok(st.(ns := st.ns + [Normal(x.value, y.value, z.value)]))
      else Ok(st.(skipped := st.skipped + [Skip(lineNo, NormalLine)]))
  }

  /** "f t1 t2 ...": the token loop updates the back-references even when the face is then
      rejected; the face is kept only when every token parsed. */
  function FaceLineEffect(st: ImportState, tokens: seq<string>, lineNo: nat): Result<ImportState, Failure>
    requires tokens != []
  {
    match ScanSlots(st.vs, |st.fs|, ParseTokens(tokens[1..]))
    case Err(e) => Err(e)
    case Ok(sc) =>
      if sc.ok then Ok(st.(vs := sc.vs, fs := st.fs + [MeshFace(sc.slots)]))
      else Ok(st.(vs := sc.vs, skipped := st.skipped + [Skip(lineNo, FaceLine)]))
  }

  /** The tokens of each line of a file. */
  function TokenizeLines(lines: seq<string>): seq<seq<string>> {
    seq(|lines|, i requires 0 <= i < |lines| => Tokenize(lines[i]))
  }

  /** The effect of one tokenized line with a given line number. */
  type LineStep = (ImportState, seq<string>, nat) -> Result<ImportState, Failure>

  function ImportStep(parse: DoubleParser): LineStep {
    (st: ImportState, tokens: seq<string>, lineNo: nat) => ImportLine(st, tokens, lineNo, parse)
  }

  /** The tokenized lines `lines` applied to `st` one after the other, the first of them being
      line number `first` + 1; the first line that fails ends the run. */
  function Run(step: LineStep, st: ImportState, first: nat, lines: seq<seq<string>>): Result<ImportState, ImportError>
    decreases |lines|
  {
    if lines == [] then Ok(st)
    else
      match Run(step, st, first, lines[..|lines| - 1])
      case Err(e) => Err(e)
      case Ok(s) =>
        match step(s, lines[|lines| - 1], first + |lines|)
        case Err(f) => Err(ImportError(first + |lines|, f))
        case Ok(s') => Ok(s')
  }

  /** A whole file. */
  function ImportLines(lines: seq<string>, parse: DoubleParser): Result<ImportState, ImportError> {
    Run(ImportStep(parse), EmptyState, 0, TokenizeLines(lines))
  }

  // ---------------------------------------------------------------------------
  // The method

  /** Model.Import: None stands for a file that does not exist (the source returns null). */
  method Import(file: Option<seq<string>>, parse: DoubleParser) returns (r: Result<Model?, ImportError>, messages: seq<Skip>)
    ensures file.None? ==> r == Ok(null) && messages == []
    ensures file.Some? && ImportLines(file.value, parse).Err? ==> r == Err(ImportLines(file.value, parse).error)
    ensures file.Some? && ImportLines(file.value, parse).Ok? ==>
      var st := ImportLines(file.value, parse).value;
      && r.Ok? && r.value != null && fresh(r.value) && r.value.Valid()
      && r.value.Value() == MeshOf(st) && messages == st.skipped
      && fresh(r.value.Verticies) && fresh(r.value.Texcoords) && fresh(r.value.Normals) && fresh(r.value.Faces)
  {
    messages := [];
    if file.None? {
      return Ok(null), [];
    }
    var lines := file.value;
    var vs: seq<MeshVertex>, vts: seq<Texcoord>, ns: seq<Normal>, fs: seq<MeshFace> := [], [], [], [];
    ghost var tokenized := TokenizeLines(lines);
    var count := 0;
    while count < |lines|
      invariant 0 <= count <= |lines|
      invariant Run(ImportStep(parse), EmptyState, 0, tokenized[..count]) == Ok(ImportState(vs, vts, ns, fs, messages))
    {
      count := count + 1;
      assert tokenized[..count][..count - 1] == tokenized[..count - 1];
      var line := Tokenize(lines[count - 1]);
      assert line == tokenized[count - 1];
      assert ImportStep(parse)(ImportState(vs, vts, ns, fs, messages), line, count) ==
             ImportLine(ImportState(vs, vts, ns, fs, messages), line, count, parse);
      if |line| == 0 {
        continue;
      }
      if line[0] == "v" {
        if |line| < 4 {
          ErrorPersists(ImportStep(parse), tokenized, count);
          return Err(ImportError(count, MissingField)), messages;
        }
        var x, y, z := parse(line[1]), parse(line[2]), parse(line[3]);
        if x.Some? && y.Some? && z.Some? {
          vs := vs + [MeshVertex(x.value, y.value, z.value, EmptyColor, [])];
        } else {
          messages := messages + [Skip(count, VertexLine)];
        }
      } else if line[0] == "vt" {
        if |line| < 3 {
          ErrorPersists(ImportStep(parse), tokenized, count);
          return Err(ImportError(count, MissingField)), messages;
        }
        var u, v := parse(line[1]), parse(line[2]);
        if u.Some? && v.Some? {
          vts := vts + [Texcoord(u.value, v.value)];
        } else {
          messages := messages + [Skip(count, TexcoordLine)];
        }
      } else if line[0] == "vn" {
        if |line| < 4 {
          ErrorPersists(ImportStep(parse), tokenized, count);
          return Err(ImportError(count, MissingField)), messages;
        }
        var x, y, z := parse(line[1]), parse(line[2]), parse(line[3]);
        if x.Some? && y.Some? && z.Some? {
          ns := ns + [Normal(x.value, y.value, z.value)];
        } else {
          messages := messages + [Skip(count, NormalLine)];
        }
      } else if line[0] == "f" {
        var scan := ScanFace(vs, |fs|, line[1..]);
        if scan.Err? {
          ErrorPersists(ImportStep(parse), tokenized, count);
          return Err(ImportError(count, scan.error)), messages;
        }
        vs := scan.value.vs;
        if scan.value.ok {
          fs := fs + [MeshFace(scan.value.slots)];
        } else {
          messages := messages + [Skip(count, FaceLine)];
        }
      }
    }
    assert tokenized[..count] == tokenized;
    var model := BuildModel(vs, vts, ns, fs);
    r := Ok(model);
  }

  /** The closing `new Model(vs.ToArray(), vts.ToArray(), ns.ToArray(), fs.ToArray())`. */
  method BuildModel(vs: seq<MeshVertex>, vts: seq<Texcoord>, ns: seq<Normal>, fs: seq<MeshFace>) returns (model: Model)
    ensures fresh(model) && model.Valid() && model.Value() == Mesh(vs, vts, ns, fs)
    ensures fresh(model.Verticies) && fresh(model.Texcoords) && fresh(model.Normals) && fresh(model.Faces)
  {
    var vArr := VertexArray(vs);
    var tArr := new Texcoord[|vts|](k requires 0 <= k < |vts| => vts[k]);
    var nArr := new Normal[|ns|](k requires 0 <= k < |ns| => ns[k]);
    var fArr := FaceArray(fs);
    model := new Model(vArr, tArr, nArr, fArr);
    assert model.Valid();
    assert model.Value().verticies == vs;
    assert model.Value().faces == fs;
  }

  /** The token loop of a face line (`vns`, `tryResult` and the back-reference updates). */
  method ScanFace(vs0: seq<MeshVertex>, faceIndex: int, tokens: seq<string>) returns (r: Result<FaceScan, Failure>)
    ensures r == ScanSlots(vs0, faceIndex, ParseTokens(tokens))
  {
    ghost var parsed := ParseTokens(tokens);
    var vs := vs0;
    var vns: seq<VertexNumber> := [];
    var tryResult := true;
    for i := 0 to |tokens|
      invariant ScanSlots(vs0, faceIndex, parsed[..i]) == Ok(FaceScan(vs, vns, tryResult))
      invariant |vns| == i
    {
      ghost var sc := FaceScan(vs, vns, tryResult);
      ScanStep(vs0, faceIndex, parsed, i, sc);
      var vnStrs := Split(tokens[i], '/');
      var v := ParseInt(vnStrs[0]);
      if |vnStrs| < 3 {
        assert parsed[i] == None;
        ScanErrorPersists(vs0, faceIndex, parsed, i + 1);
        return Err(MissingSlash);
      }
      var t := ParseInt(vnStrs[1]);
      var n := ParseInt(vnStrs[2]);
      var vn := VertexNumber(v.GetOr(0), t.GetOr(0), n.GetOr(0));
      assert parsed[i] == Some((vn, v.Some? && n.Some?));
      tryResult := tryResult && v.Some? && n.Some?;
      vns := vns + [vn];
      if !(1 <= vn.vNum <= |vs|) {
        ScanErrorPersists(vs0, faceIndex, parsed, i + 1);
        return Err(VertexNumberOutOfRange);
      }
      vs := vs[vn.vNum - 1 := AddRef(vs[vn.vNum - 1], Point(faceIndex, i))];
      assert ScanSlot(sc, faceIndex, parsed[i]) == Ok(FaceScan(vs, vns, tryResult));
    }
    assert parsed[..|tokens|] == parsed;
    r := Ok(FaceScan(vs, vns, tryResult));
  }

  lemma ScanStep(vs0: seq<MeshVertex>, faceIndex: int, tokens: seq<ParsedToken>, i: nat, sc: FaceScan)
    requires i < |tokens| && ScanSlots(vs0, faceIndex, tokens[..i]) == Ok(sc)
    ensures ScanSlots(vs0, faceIndex, tokens[..i + 1]) == ScanSlot(sc, faceIndex, tokens[i])
  {
    assert tokens[..i + 1][..i] == tokens[..i];
  }

  /** vs.ToArray(), with the back-reference list of each vertex as its own array. */
  method VertexArray(vs: seq<MeshVertex>) returns (a: array<Vertex>)
    ensures fresh(a) && a.Length == |vs|
    ensures forall k :: 0 <= k < |vs| ==> a[k].faces != null && fresh(a[k].faces) && VertexValue(a[k]) == vs[k]
  {
    a := new Vertex[|vs|](_ => DefaultVertex);
    for i := 0 to |vs|
      invariant forall k :: 0 <= k < i ==> a[k].faces != null && fresh(a[k].faces) && VertexValue(a[k]) == vs[k]
    {
      var p := vs[i];
      var faces := new Point[|p.faces|](k requires 0 <= k < |p.faces| => p.faces[k]);
      a[i] := Vertex(p.x, p.y, p.z, p.c, faces);
    }
  }

  /** fs.ToArray(), with the slot list of each face as its own array. */
  method FaceArray(fs: seq<MeshFace>) returns (a: array<Face>)
    ensures fresh(a) && a.Length == |fs|
    ensures forall k :: 0 <= k < |fs| ==> a[k].face != null && fresh(a[k].face) && FaceValue(a[k]) == fs[k]
  {
    a := new Face[|fs|](_ => DefaultFace);
    for i := 0 to |fs|
      invariant forall k :: 0 <= k < i ==> a[k].face != null && fresh(a[k].face) && FaceValue(a[k]) == fs[k]
    {
      var slots := fs[i].face;
      var face := new VertexNumber[|slots|](k requires 0 <= k < |slots| => slots[k]);
      a[i] := Face(face);
    }
  }

  // ---------------------------------------------------------------------------
  // Failures are final

  /** Once a prefix of the file fails, the whole file fails the same way. */
  lemma {:induction false} ErrorPersists(step: LineStep, lines: seq<seq<string>>, n: nat)
    requires n <= |lines|
    requires Run(step, EmptyState, 0, lines[..n]).Err?
    ensures Run(step, EmptyState, 0, lines) == Run(step, EmptyState, 0, lines[..n])
    decreases |lines| - n
  {
    if n < |lines| {
      assert lines[..n + 1][..n] == lines[..n];
      ErrorPersists(step, lines, n + 1);
    } else {
      assert lines[..n] == lines;
    }
  }

  /** Once a prefix of a face line's tokens fails, the whole line fails the same way. */
  lemma {:induction false} ScanErrorPersists(vs: seq<MeshVertex>, faceIndex: int, tokens: seq<ParsedToken>, n: nat)
    requires n <= |tokens|
    requires ScanSlots(vs, faceIndex, tokens[..n]).Err?
    ensures ScanSlots(vs, faceIndex, tokens) == ScanSlots(vs, faceIndex, tokens[..n])
    decreases |tokens| - n
  {
    if n < |tokens| {
      assert tokens[..n + 1][..n] == tokens[..n];
      ScanErrorPersists(vs, faceIndex, tokens, n + 1);
    } else {
      assert tokens[..n] == tokens;
    }
  }
}
