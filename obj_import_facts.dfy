/** What Model.Import guarantees about the lists it builds: the effect of a face line, the
    back-reference invariant between vertices and faces, and the bookkeeping of rejected lines. */
module ObjImportFacts {
  import opened Common
  import opened Text
  import opened MeshModel
  import opened ObjImport

  // ---------------------------------------------------------------------------
  // Back-references

  /** The back-references face `fi`, with slots `slots`, gives vertex k (0-based):
      one per slot naming it, in slot order. */
  function SlotRefs(fi: int, slots: seq<VertexNumber>, k: int): seq<Point>
    decreases |slots|
  {
    if slots == [] then []
    else
      var j := |slots| - 1;
      SlotRefs(fi, slots[..j], k) + (if slots[j].vNum - 1 == k then [Point(fi, j)] else [])
  }

  /** The back-references the faces `fs` give vertex k, face by face. */
  function Refs(fs: seq<MeshFace>, k: int): seq<Point>
    decreases |fs|
  {
    if fs == [] then []
    else Refs(fs[..|fs| - 1], k) + SlotRefs(|fs| - 1, fs[|fs| - 1].face, k)
  }

  /** Point p = (face index, slot index) names a slot of `fs` that refers to vertex k. */
  predicate IsSlotOf(fs: seq<MeshFace>, k: int, p: Point) {
    0 <= p.x < |fs| && 0 <= p.y < |fs[p.x].face| && fs[p.x].face[p.y].vNum - 1 == k
  }

  /** Every slot names a vertex that exists, and every vertex lists exactly the slots that name it. */
  predicate Consistent(vs: seq<MeshVertex>, fs: seq<MeshFace>) {
    && (forall i, j :: 0 <= i < |fs| && 0 <= j < |fs[i].face| ==> 1 <= fs[i].face[j].vNum <= |vs|)
    && (forall k :: 0 <= k < |vs| ==> vs[k].faces == Refs(fs, k))
  }

  lemma {:induction false} SlotRefsCount(fi: int, slots: seq<VertexNumber>, k: int, p: Point)
    ensures multiset(SlotRefs(fi, slots, k))[p] ==
            if p.x == fi && 0 <= p.y < |slots| && slots[p.y].vNum - 1 == k then 1 else 0
    decreases |slots|
  {
    if slots != [] {
      var j := |slots| - 1;
      SlotRefsCount(fi, slots[..j], k, p);
    }
  }

  /** Each slot naming vertex k appears exactly once among its back-references, and nothing else does. */
  lemma {:induction false} RefsCount(fs: seq<MeshFace>, k: int, p: Point)
    ensures multiset(Refs(fs, k))[p] == if IsSlotOf(fs, k, p) then 1 else 0
    decreases |fs|
  {
    if fs != [] {
      var i := |fs| - 1;
      var init := fs[..i];
      RefsCount(init, k, p);
      SlotRefsCount(i, fs[i].face, k, p);
      if 0 <= p.x < i {
        assert init[p.x] == fs[p.x];
      }
    }
  }

  /** In a consistent pair of lists, vertex k lists each slot that names it exactly once,
      and lists nothing else. */
  lemma ConsistentAdjacency(vs: seq<MeshVertex>, fs: seq<MeshFace>, k: int, p: Point)
    requires Consistent(vs, fs) && 0 <= k < |vs|
    ensures multiset(vs[k].faces)[p] == if IsSlotOf(fs, k, p) then 1 else 0
  {
    RefsCount(fs, k, p);
  }

  // ---------------------------------------------------------------------------
  // The token loop of a face line

  /** A parsed face token whose slot names one of the first n vertices. */
  predicate SlotFits(token: ParsedToken, n: int) {
    token.Some? && 1 <= token.value.0.vNum <= n
  }

  lemma ScanSlotOk(sc: FaceScan, fi: int, token: ParsedToken)
    ensures ScanSlot(sc, fi, token).Ok? <==> SlotFits(token, |sc.vs|)
  {
  }

  /** What the token loop has built from vertices vs after reading `tokens` without failing:
      one slot per token, `tryResult` true exactly when every token's vertex and normal numbers
      parsed, and each vertex extended by the back-references of the slots naming it. */
  predicate Scanned(vs: seq<MeshVertex>, fi: int, tokens: seq<ParsedToken>, sc: FaceScan) {
    && (forall j :: 0 <= j < |tokens| ==> SlotFits(tokens[j], |vs|))
    && |sc.slots| == |tokens|
    && (forall j :: 0 <= j < |tokens| ==> sc.slots[j] == tokens[j].value.0)
    && (sc.ok <==> forall j :: 0 <= j < |tokens| ==> tokens[j].value.1)
    && |sc.vs| == |vs|
    && forall k :: 0 <= k < |vs| ==> sc.vs[k] == vs[k].(faces := vs[k].faces + SlotRefs(fi, sc.slots, k))
  }

  /** One more slot adds one back-reference to the vertex it names and none to the others. */
  lemma SlotRefsSnoc(fi: int, slots: seq<VertexNumber>, vn: VertexNumber, k: int)
    ensures SlotRefs(fi, slots + [vn], k) ==
            SlotRefs(fi, slots, k) + (if vn.vNum - 1 == k then [Point(fi, |slots|)] else [])
  {
    assert (slots + [vn])[..|slots|] == slots;
  }

  /** The loop reading one more token that fits keeps Scanned. */
  lemma ScanSlotScanned(vs: seq<MeshVertex>, fi: int, init: seq<ParsedToken>, sc0: FaceScan, token: ParsedToken)
    requires Scanned(vs, fi, init, sc0) && SlotFits(token, |vs|)
    ensures ScanSlot(sc0, fi, token).Ok? && Scanned(vs, fi, init + [token], ScanSlot(sc0, fi, token).value)
  {
    var tokens := init + [token];
    var sc := ScanSlot(sc0, fi, token).value;
    var vn := token.value.0;
    var n := |init|;
    assert sc.slots == sc0.slots + [vn];
    assert forall j :: 0 <= j < n ==> tokens[j] == init[j];
    var kk := vn.vNum - 1;
    assert sc.vs == sc0.vs[kk := AddRef(sc0.vs[kk], Point(fi, n))];
    forall k | 0 <= k < |vs|
      ensures sc.vs[k] == vs[k].(faces := vs[k].faces + SlotRefs(fi, sc.slots, k))
    {
      SlotRefsSnoc(fi, sc0.slots, vn, k);
    }
  }

  /** The token loop fails exactly when some token lacks a slash or names a vertex not yet
      read; otherwise it yields one slot per token, accepts the face exactly when every
      token's vertex and normal numbers parsed, and appends to each vertex the
      back-references of the slots naming it. */
  lemma {:induction false} ScanSlotsEffect(vs: seq<MeshVertex>, fi: int, tokens: seq<ParsedToken>)
    ensures ScanSlots(vs, fi, tokens).Ok? <==> forall j :: 0 <= j < |tokens| ==> SlotFits(tokens[j], |vs|)
    ensures ScanSlots(vs, fi, tokens).Ok? ==> Scanned(vs, fi, tokens, ScanSlots(vs, fi, tokens).value)
    decreases |tokens|
  {
    if tokens != [] {
      var n := |tokens| - 1;
      var init := tokens[..n];
      ScanSlotsEffect(vs, fi, init);
      assert init + [tokens[n]] == tokens;
      var r0 := ScanSlots(vs, fi, init);
      if r0.Err? {
        var j :| 0 <= j < n && !SlotFits(init[j], |vs|);
        assert !SlotFits(tokens[j], |vs|);
      } else if SlotFits(tokens[n], |vs|) {
        ScanSlotScanned(vs, fi, init, r0.value, tokens[n]);
      } else {
        ScanSlotOk(r0.value, fi, tokens[n]);
      }
    }
  }

  // ---------------------------------------------------------------------------
  // Lines

  /** What a line, by its first token, is meant to add; None for a blank line or an unknown tag. */
  function KindOf(tokens: seq<string>): Option<LineKind> {
    if tokens == [] then None
    else if tokens[0] == "v" then Some(VertexLine)
    else if tokens[0] == "vt" then Some(TexcoordLine)
    else if tokens[0] == "vn" then Some(NormalLine)
    else if tokens[0] == "f" then Some(FaceLine)
    else None
  }

  /** The length of the list that lines of kind `kind` grow. */
  function ListLength(st: ImportState, kind: LineKind): nat {
    match kind
    case VertexLine => |st.vs|
    case TexcoordLine => |st.vts|
    case NormalLine => |st.ns|
    case FaceLine => |st.fs|
  }

  function CountLines(lines: seq<seq<string>>, kind: LineKind): nat
    decreases |lines|
  {
    if lines == [] then 0
    else CountLines(lines[..|lines| - 1], kind) + (if KindOf(lines[|lines| - 1]) == Some(kind) then 1 else 0)
  }

  function CountSkips(skipped: seq<Skip>, kind: LineKind): nat
    decreases |skipped|
  {
    if skipped == [] then 0
    else CountSkips(skipped[..|skipped| - 1], kind) + (if skipped[|skipped| - 1].kind == kind then 1 else 0)
  }

  /** A line added one element to the list of `kind` and no message. */
  predicate Grows(st: ImportState, st': ImportState, kind: LineKind) {
    && st'.skipped == st.skipped
    && forall k :: ListLength(st', k) == ListLength(st, k) + (if k == kind then 1 else 0)
  }

  /** A line of `kind` was rejected: one message naming it, and no list grew. */
  predicate Reports(st: ImportState, st': ImportState, kind: LineKind, lineNo: nat) {
    && st'.skipped == st.skipped + [Skip(lineNo, kind)]
    && forall k :: ListLength(st', k) == ListLength(st, k)
  }

  /** A blank line or an unknown tag changes nothing; any other line that does not fail either
      grows the list of its kind or is reported as skipped. */
  lemma LineShape(st: ImportState, tokens: seq<string>, lineNo: nat, parse: DoubleParser)
    requires ImportLine(st, tokens, lineNo, parse).Ok?
    ensures var st' := ImportLine(st, tokens, lineNo, parse).value;
      if KindOf(tokens).None? then st' == st
      else Grows(st, st', KindOf(tokens).value) || Reports(st, st', KindOf(tokens).value, lineNo)
  {
    var st' := ImportLine(st, tokens, lineNo, parse).value;
    if tokens == [] {
    } else if tokens[0] == "v" {
      assert st' == VertexLineEffect(st, tokens, lineNo, parse).value;
    } else if tokens[0] == "vt" {
      assert st' == TexcoordLineEffect(st, tokens, lineNo, parse).value;
    } else if tokens[0] == "vn" {
      assert st' == NormalLineEffect(st, tokens, lineNo, parse).value;
    } else if tokens[0] == "f" {
      assert st' == FaceLineEffect(st, tokens, lineNo).value;
      FaceLineShape(st, tokens, lineNo);
    }
  }

  lemma FaceLineShape(st: ImportState, tokens: seq<string>, lineNo: nat)
    requires tokens != [] && FaceLineEffect(st, tokens, lineNo).Ok?
    ensures var st' := FaceLineEffect(st, tokens, lineNo).value;
      Grows(st, st', FaceLine) || Reports(st, st', FaceLine, lineNo)
  {
    var st' := FaceLineEffect(st, tokens, lineNo).value;
    var toks := ParseTokens(tokens[1..]);
    ScanSlotsLength(st.vs, |st.fs|, toks);
    var sc := ScanSlots(st.vs, |st.fs|, toks).value;
    if sc.ok {
      assert st' == st.(vs := sc.vs, fs := st.fs + [MeshFace(sc.slots)]);
      assert Grows(st, st', FaceLine);
    } else {
      assert st' == st.(vs := sc.vs, skipped := st.skipped + [Skip(lineNo, FaceLine)]);
      assert Reports(st, st', FaceLine, lineNo);
    }
  }

  /** The token loop keeps the number of vertices. */
  lemma {:induction false} ScanSlotsLength(vs: seq<MeshVertex>, fi: int, tokens: seq<ParsedToken>)
    ensures ScanSlots(vs, fi, tokens).Ok? ==> |ScanSlots(vs, fi, tokens).value.vs| == |vs|
    decreases |tokens|
  {
    if tokens != [] {
      ScanSlotsLength(vs, fi, tokens[..|tokens| - 1]);
    }
  }

  /** Messages are only ever appended, at most one per line, and the message names the
      line's number and kind. */
  lemma LineLog(st: ImportState, tokens: seq<string>, lineNo: nat, parse: DoubleParser)
    requires ImportLine(st, tokens, lineNo, parse).Ok?
    ensures var st' := ImportLine(st, tokens, lineNo, parse).value;
      st'.skipped == st.skipped || (KindOf(tokens).Some? && st'.skipped == st.skipped + [Skip(lineNo, KindOf(tokens).value)])
  {
    LineShape(st, tokens, lineNo, parse);
  }

  function Tally(st: ImportState, kind: LineKind): nat {
    ListLength(st, kind) + CountSkips(st.skipped, kind)
  }

  /** A line either leaves the lists alone (blank or unknown tag), or adds exactly one element
      to the list of its kind, or writes exactly one message saying it was skipped; the other
      lists keep their lengths. */
  lemma LineTally(st: ImportState, tokens: seq<string>, lineNo: nat, parse: DoubleParser, kind: LineKind)
    requires ImportLine(st, tokens, lineNo, parse).Ok?
    ensures Tally(ImportLine(st, tokens, lineNo, parse).value, kind) ==
            Tally(st, kind) + (if KindOf(tokens) == Some(kind) then 1 else 0)
  {
    var st' := ImportLine(st, tokens, lineNo, parse).value;
    LineShape(st, tokens, lineNo, parse);
    if KindOf(tokens).Some? {
      var k := KindOf(tokens).value;
      if Grows(st, st', k) {
        assert ListLength(st', kind) == ListLength(st, kind) + (if k == kind then 1 else 0);
      } else {
        CountSkipsAppend(st.skipped, Skip(lineNo, k), kind);
        assert ListLength(st', kind) == ListLength(st, kind);
      }
    }
  }

  lemma CountSkipsAppend(skipped: seq<Skip>, s: Skip, kind: LineKind)
    ensures CountSkips(skipped + [s], kind) == CountSkips(skipped, kind) + (if s.kind == kind then 1 else 0)
  {
    assert (skipped + [s])[..|skipped|] == skipped;
  }

  /** A run that succeeds is a shorter run that succeeds followed by one line that succeeds. */
  lemma RunUnfold(step: LineStep, st0: ImportState, first: nat, lines: seq<seq<string>>)
    requires lines != [] && Run(step, st0, first, lines).Ok?
    ensures var n := |lines| - 1;
      && Run(step, st0, first, lines[..n]).Ok?
      && step(Run(step, st0, first, lines[..n]).value, lines[n], first + |lines|).Ok?
      && Run(step, st0, first, lines).value ==
         step(Run(step, st0, first, lines[..n]).value, lines[n], first + |lines|).value
  {
  }

  /** Every successful step accounts for its line in the tally of `kind`. */
  ghost predicate StepTallies(step: LineStep, kind: LineKind) {
    forall s, t, n :: step(s, t, n).Ok? ==>
      Tally(step(s, t, n).value, kind) == Tally(s, kind) + (if KindOf(t) == Some(kind) then 1 else 0)
  }

  lemma ImportStepTallies(parse: DoubleParser, kind: LineKind)
    ensures StepTallies(ImportStep(parse), kind)
  {
    forall s, t, n | ImportStep(parse)(s, t, n).Ok?
      ensures Tally(ImportStep(parse)(s, t, n).value, kind) == Tally(s, kind) + (if KindOf(t) == Some(kind) then 1 else 0)
    {
      LineTally(s, t, n, parse, kind);
    }
  }

  lemma {:induction false} RunTally(step: LineStep, st0: ImportState, first: nat, lines: seq<seq<string>>, kind: LineKind)
    requires StepTallies(step, kind)
    requires Run(step, st0, first, lines).Ok?
    ensures Tally(Run(step, st0, first, lines).value, kind) == Tally(st0, kind) + CountLines(lines, kind)
    decreases |lines|
  {
    if lines != [] {
      var n := |lines| - 1;
      RunUnfold(step, st0, first, lines);
      RunTally(step, st0, first, lines[..n], kind);
      assert CountLines(lines, kind) ==
             CountLines(lines[..n], kind) + (if KindOf(lines[n]) == Some(kind) then 1 else 0);
    }
  }

  /** For a whole file that imports: the faces read plus the face lines reported as skipped
      are all the face lines, and likewise for vertices, texture coordinates and normals. */
  lemma ImportBookkeeping(lines: seq<string>, parse: DoubleParser, kind: LineKind)
    requires ImportLines(lines, parse).Ok?
    ensures var st := ImportLines(lines, parse).value;
      ListLength(st, kind) + CountSkips(st.skipped, kind) == CountLines(TokenizeLines(lines), kind)
  {
    ImportStepTallies(parse, kind);
    RunTally(ImportStep(parse), EmptyState, 0, TokenizeLines(lines), kind);
  }

  // ---------------------------------------------------------------------------
  // The back-reference invariant across lines

  lemma RefsNone(fs: seq<MeshFace>, k: int)
    requires forall i, j :: 0 <= i < |fs| && 0 <= j < |fs[i].face| ==> fs[i].face[j].vNum - 1 != k
    ensures Refs(fs, k) == []
  {
    if Refs(fs, k) != [] {
      var p := Refs(fs, k)[0];
      RefsCount(fs, k, p);
      assert false;
    }
  }

  /** Every line except a rejected face line keeps the vertices and faces consistent. */
  lemma LineConsistent(st: ImportState, tokens: seq<string>, lineNo: nat, parse: DoubleParser)
    requires Consistent(st.vs, st.fs)
    requires ImportLine(st, tokens, lineNo, parse).Ok?
    requires ImportLine(st, tokens, lineNo, parse).value.skipped != st.skipped + [Skip(lineNo, FaceLine)]
    ensures var st' := ImportLine(st, tokens, lineNo, parse).value; Consistent(st'.vs, st'.fs)
  {
    var st' := ImportLine(st, tokens, lineNo, parse).value;
    if tokens == [] {
    } else if tokens[0] == "v" {
      assert st' == VertexLineEffect(st, tokens, lineNo, parse).value;
      if |st'.vs| > |st.vs| {
        var k := |st.vs|;
        RefsNone(st.fs, k);
        assert forall k' :: 0 <= k' < k ==> st'.vs[k'] == st.vs[k'];
      }
    } else if tokens[0] == "f" {
      assert st' == FaceLineEffect(st, tokens, lineNo).value;
      FaceLineConsistent(st, tokens, lineNo);
    } else {
      assert st'.vs == st.vs && st'.fs == st.fs;
    }
  }

  /** An accepted face line keeps the vertices and faces consistent. */
  lemma FaceLineConsistent(st: ImportState, tokens: seq<string>, lineNo: nat)
    requires Consistent(st.vs, st.fs) && tokens != []
    requires FaceLineEffect(st, tokens, lineNo).Ok?
    requires FaceLineEffect(st, tokens, lineNo).value.skipped != st.skipped + [Skip(lineNo, FaceLine)]
    ensures var st' := FaceLineEffect(st, tokens, lineNo).value; Consistent(st'.vs, st'.fs)
  {
    var st' := FaceLineEffect(st, tokens, lineNo).value;
    var toks := ParseTokens(tokens[1..]);
    ScanSlotsEffect(st.vs, |st.fs|, toks);
    var sc := ScanSlots(st.vs, |st.fs|, toks).value;
    assert sc.ok;
    var fs' := st.fs + [MeshFace(sc.slots)];
    assert st'.fs == fs' && st'.vs == sc.vs;
    assert fs'[..|st.fs|] == st.fs;
    forall j | 0 <= j < |sc.slots|
      ensures 1 <= sc.slots[j].vNum <= |st.vs|
    {
      assert SlotFits(toks[j], |st.vs|);
    }
    forall k | 0 <= k < |st.vs|
      ensures st'.vs[k].faces == Refs(fs', k)
    {
      assert Refs(fs', k) == Refs(st.fs, k) + SlotRefs(|st.fs|, sc.slots, k);
    }
  }

  /** No face line was rejected. */
  predicate NoFaceSkipped(skipped: seq<Skip>) {
    forall k :: 0 <= k < |skipped| ==> skipped[k].kind != FaceLine
  }

  /** A successful step never drops messages and adds at most one, naming the line. */
  ghost predicate StepLogs(step: LineStep) {
    forall s, t, n :: step(s, t, n).Ok? ==>
      var s' := step(s, t, n).value;
      s'.skipped == s.skipped || (KindOf(t).Some? && s'.skipped == s.skipped + [Skip(n, KindOf(t).value)])
  }

  /** A successful step that is not a rejected face line keeps vertices and faces consistent. */
  ghost predicate StepKeepsConsistent(step: LineStep) {
    forall s: ImportState, t: seq<string>, n: nat ::
      (Consistent(s.vs, s.fs) && step(s, t, n).Ok? && step(s, t, n).value.skipped != s.skipped + [Skip(n, FaceLine)]) ==>
      Consistent(step(s, t, n).value.vs, step(s, t, n).value.fs)
  }

  lemma ImportStepProperties(parse: DoubleParser)
    ensures StepLogs(ImportStep(parse)) && StepKeepsConsistent(ImportStep(parse))
  {
    forall s, t, n | ImportStep(parse)(s, t, n).Ok?
      ensures var s' := ImportStep(parse)(s, t, n).value;
        s'.skipped == s.skipped || (KindOf(t).Some? && s'.skipped == s.skipped + [Skip(n, KindOf(t).value)])
    {
      LineLog(s, t, n, parse);
    }
    forall s: ImportState, t: seq<string>, n: nat | Consistent(s.vs, s.fs) && ImportStep(parse)(s, t, n).Ok? &&
                     ImportStep(parse)(s, t, n).value.skipped != s.skipped + [Skip(n, FaceLine)]
      ensures Consistent(ImportStep(parse)(s, t, n).value.vs, ImportStep(parse)(s, t, n).value.fs)
    {
      LineConsistent(s, t, n, parse);
    }
  }

  /** A run in which no face line is rejected keeps the vertices and faces consistent. */
  lemma {:induction false} RunConsistent(step: LineStep, st0: ImportState, first: nat, lines: seq<seq<string>>)
    requires StepLogs(step) && StepKeepsConsistent(step)
    requires Consistent(st0.vs, st0.fs)
    requires Run(step, st0, first, lines).Ok?
    requires NoFaceSkipped(Run(step, st0, first, lines).value.skipped)
    ensures var st := Run(step, st0, first, lines).value; Consistent(st.vs, st.fs)
    decreases |lines|
  {
    if lines != [] {
      var n := |lines| - 1;
      RunUnfold(step, st0, first, lines);
      var s := Run(step, st0, first, lines[..n]).value;
      var st := Run(step, st0, first, lines).value;
      var lineNo := first + |lines|;
      assert st == step(s, lines[n], lineNo).value;
      if st.skipped != s.skipped {
        assert st.skipped[|s.skipped|].kind != FaceLine;
        assert forall k :: 0 <= k < |s.skipped| ==> s.skipped[k] == st.skipped[k];
      }
      RunConsistent(step, st0, first, lines[..n]);
    }
  }

  /** A file in which no face line is rejected imports into vertices whose back-reference
      lists name exactly the slots that refer to them, each once. */
  lemma ImportConsistent(lines: seq<string>, parse: DoubleParser)
    requires ImportLines(lines, parse).Ok?
    requires NoFaceSkipped(ImportLines(lines, parse).value.skipped)
    ensures var st := ImportLines(lines, parse).value; Consistent(st.vs, st.fs)
  {
    ImportStepProperties(parse);
    RunConsistent(ImportStep(parse), EmptyState, 0, TokenizeLines(lines));
  }
}
