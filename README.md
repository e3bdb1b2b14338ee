# Random3DModelGenerator in Dafny

Random3DModelGenerator reads a primitive mesh from a Wavefront OBJ file and reads a height
map image. It moves every vertex of the mesh along its vertex normal by an amount taken
from the blue channel of the height-map pixel under the vertex's texture coordinate. It
writes the result back as OBJ and shows meshes in an OpenGL viewer.

This project models the data model and algorithms of that program and proves properties
about them:

- **`MeshModel`** (`model.dfy`): the `Model` class with its four parallel arrays.
  - Vertices, texture coordinates, normals and faces are records.
  - Each vertex holds a reference to its array of back-references `(face, slot)`.
  - Each face holds a reference to its array of slots `(v_num, t_num, n_num)`.
  - The ghost function `Value()` maps a model whose arrays are all present to a `Mesh` value of
    sequences.
  - Also models the four constructors, the four setters and the deep-copy constructor.
- **`Text`** (`text.dfy`): `String.Split`, removal of the empty pieces, `Int32.TryParse` and
  `Int32.ToString`, with their round trips.
- **`ObjImport`** and **`ObjImportFacts`** (`obj_import.dfy`, `obj_import_facts.dfy`):
  `Model.Import`.
  - A pure fold over the tokenized lines specifies it; the method is proved against that fold.
  - The fold covers the four kinds of line, the messages for rejected lines, the exceptions
    that abort the import, and the back-references a face line leaves on its vertices.
  - Lemmas:
    - every line is accounted for;
    - an error is final;
    - a file with no face line rejected yields back-references that name exactly the slots
      referring to each vertex.
- **`ObjExport`** and **`ObjRoundTrip`** (`obj_export.dfy`, `obj_roundtrip.dfy`): `Model.Export`
  as the list of lines it writes.
  - Main result: re-importing an exported mesh rebuilds it, provided every slot names an
    existing vertex and has a normal number, and the number formatter and parser agree on the
    mesh's own numbers (`RoundTripsOn`).
- **`MeshNormals`** (`normals.dfy`): `CalcAllVertexNormal`, `RecalcNormal`,
  `RecalcSurfaceNormal` and `CalcTriangleFaceNormal`.
  - Each is proved against a sum over the vertex's back-references.
  - For consistent meshes, that sum equals a sum over every slot naming the vertex.
  - Also proved:
    - geometric facts about the two face-normal formulas;
    - the two formulas use opposite winding conventions.
- **`Displacement`** (`displacement.dfy`): `Random3DModel.ApplyHeightMap` with its pixel
  addressing.
  - Also models the `Random3DModel` class: its fields, `Import`, `Export` and `Apply`.
  - `ApplyHeightMap` returns a fresh deep copy in which only the vertex positions moved, and
    leaves its argument unchanged.
  - A height of 0 or a map that is black in the blue channel leaves the mesh unchanged.
- **`Viewer`** (`viewer.dfy`): the buffer construction of `ModelViewer.ImportModel` and
  `ModelViewer.CreateWave`.
  - `ImportModel`: one vertex per model vertex, and four index entries per face.
  - `CreateWave`: a grid of quads built from its vertex grid.

Floating-point numbers are modelled as `real`. The functions the program takes from its
libraries are parameters of the model:

- `Vector3.Normalize`;
- `double.TryParse`;
- `Double.ToString`;
- for `CreateWave`, the per-vertex position, normal and colour.

Integers that the program keeps in 32 bits are `int32`. The one subtraction that can wrap,
`v_num - 1`, is written out as `Pred32`.

### Where the code differs from the documented behaviour

The model follows the code.

- A face token whose vertex number does not parse is not a rejected face. `int.TryParse`
  leaves 0, and `vs[0 - 1]` throws, which aborts the whole import (`VertexNumberOutOfRange`).
  Only a normal number that does not parse makes the face be skipped with a message.
- A face token with fewer than two slashes does not default its missing fields to 0.
  `vn_strs[1]` or `vn_strs[2]` throws (`MissingSlash`).
- A `v`, `vt` or `vn` line with too few fields is not skipped. `line[k]` throws
  (`MissingField`).
- A face that names a vertex not yet read does not skip only that face. It aborts the import.
- A rejected face line still appends its back-references to the vertices it names
  (`FaceLineEffect`, `ImportFaceTokens`). Those references carry the index the next accepted
  face will get, so the importer keeps back-references consistent only when no face line is
  rejected (`ImportConsistent` requires exactly that).
- Export writes a normal number of 0 as an empty field. The importer then fails to parse
  that field and skips the face (`ExportedFaceWithoutNormalSkipped`). So the round trip holds
  only for meshes whose slots all have normal numbers (`ExportImport`).
- `ApplyHeightMap` does not leave a vertex without back-references in place. It reads
  `faces[0]`, which throws. The model states this as the `Displaceable` precondition.
- `RecalcSurfaceNormal` (diagonals) and `CalcTriangleFaceNormal` (edges from the first corner)
  give opposite directions on the same parallelogram (`OppositeWinding`).

## Model

| member | source | states |
|---|---|---|
| Common.Pred32 | Random3DModelGenerator/ModelViewer.cs:401 | `v_num - 1` in unchecked 32-bit arithmetic: one less, except that the smallest value wraps to the largest |
| MeshModel.Model.constructor | Random3DModelGenerator/Model.cs:78-84 | the model keeps the four given arrays themselves (aliasing, no copy) |
| MeshModel.Model.FromTables | Random3DModelGenerator/Model.cs:86-93 | vertices from the rows of `v` with the empty colour and no back-reference arrays; faces with fresh slot arrays holding the rows of `f`; no texcoords, no normals |
| MeshModel.Model.FromTablesWithNormals | Random3DModelGenerator/Model.cs:95-99 | as FromTables, plus a fresh normal array from the rows of `vn`; texcoords stay null |
| MeshModel.Model.FromTablesWithColors | Random3DModelGenerator/Model.cs:101-105 | as FromTables, with vertex i carrying colour `vc[i]` |
| MeshModel.Model.SetVerticies | Random3DModelGenerator/Model.cs:145-154 | a fresh vertex array, one vertex per row of `v` taking its first three columns; back-references null; other arrays untouched |
| MeshModel.Model.SetNormal | Random3DModelGenerator/Model.cs:155-164 | a fresh normal array, one normal per row of `vn`; other arrays untouched |
| MeshModel.Model.SetColor | Random3DModelGenerator/Model.cs:165-172 | vertex i gets colour `vc[i]` and nothing else about any vertex changes |
| MeshModel.Model.SetFaces | Random3DModelGenerator/Model.cs:173-184 | `f.GetLength(0)` faces, each with its own fresh array holding row i of `f` |
| MeshModel.Model.Copy | Random3DModelGenerator/Model.cs:108-143 | the copy denotes the same mesh, and every top-level array, back-reference array and slot array of it is fresh (no sharing with the original) |
| MeshModel.CopyVerticies | Random3DModelGenerator/Model.cs:115-128 | fresh records with the same values and a fresh back-reference array for each |
| MeshModel.CopyFaces | Random3DModelGenerator/Model.cs:129-137 | a fresh slot array with the same slots for each face |
| MeshModel.CopyRow | Random3DModelGenerator/Model.cs:178-182 | a fresh slot array equal to row i of `f` |
| MeshModel.CopyPoints | Random3DModelGenerator/Model.cs:122-126 | a fresh array with the same back-references |
| MeshModel.CopySlots | Random3DModelGenerator/Model.cs:131-135 | a fresh array with the same slots |
| Text.Split | Random3DModelGenerator/Model.cs:211 | `String.Split` yields at least one piece and no piece contains the separator |
| Text.JoinSplit | Random3DModelGenerator/Model.cs:211 | joining the pieces of a split with the separator gives back the string |
| Text.SplitJoin | Random3DModelGenerator/Model.cs:277 | splitting separator-free pieces joined by the separator gives back the pieces |
| Text.RemoveEmpty | Random3DModelGenerator/Model.cs:212-215 | only non-empty pieces that were in the input remain, and nothing is removed when none was empty ; every non-empty piece is kept as often as it occurs |
| Text.RemoveEmptyAppend | Random3DModelGenerator/Model.cs:212-215 | removing empty pieces from two joined lists is removing them from each, so what is kept stays in order |
| Text.RemoveEmptyOne | Random3DModelGenerator/Model.cs:212-215 | a single piece is kept exactly when it is not empty |
| Text.Tokenize | Random3DModelGenerator/Model.cs:211-215 | the tokens of a line are non-empty and free of spaces |
| Text.TokenizeJoin | Random3DModelGenerator/Model.cs:211-215 | non-empty space-free tokens joined by single spaces tokenize back into themselves |
| Text.ParseInt | Random3DModelGenerator/Model.cs:279-281 | `int.TryParse` succeeds only on text containing a digit |
| Text.IntToString | Random3DModelGenerator/Model.cs:347 | `Int32.ToString` writes a non-empty text |
| Text.ParseIntToString | Random3DModelGenerator/Model.cs:279-281 | every 32-bit number `ToString` writes is read back by `TryParse` as that number |
| Text.IntToStringPlain | Random3DModelGenerator/Model.cs:345-358 | the text of a number contains neither space nor slash, so it survives both splits |
| ObjImport.Import | Random3DModelGenerator/Model.cs:187-313 | a missing file gives null; a file whose fold fails gives the error of its first failing line; otherwise a fresh model denoting the folded lists, and the messages of the skipped lines |
| ObjImport.BuildModel | Random3DModelGenerator/Model.cs:302-312 | a fresh model whose value is the four lists, every array fresh |
| ObjImport.VertexArray | Random3DModelGenerator/Model.cs:303 | a fresh vertex array holding the list, each back-reference list in its own fresh array |
| ObjImport.FaceArray | Random3DModelGenerator/Model.cs:306 | a fresh face array holding the list, each slot list in its own fresh array |
| ObjImport.ScanFace | Random3DModelGenerator/Model.cs:272-289 | the token loop of a face line computes exactly the fold `ScanSlots` over its parsed tokens |
| ObjImport.ErrorPersists | Random3DModelGenerator/Model.cs:203-300 | once a prefix of the file fails, the whole file fails with the same error |
| ObjImport.ScanErrorPersists | Random3DModelGenerator/Model.cs:275-289 | once a prefix of a face line's tokens fails, the whole line fails the same way |
| ObjImportFacts.SlotRefsCount | Random3DModelGenerator/Model.cs:284-288 | the back-references one face leaves on vertex k name each of its slots naming k exactly once, and nothing else |
| ObjImportFacts.RefsCount | Random3DModelGenerator/Model.cs:284-288 | over all faces, each slot naming vertex k appears exactly once among k's back-references, and nothing else appears |
| ObjImportFacts.ConsistentAdjacency | Random3DModelGenerator/Model.cs:284-288 | in a consistent mesh a vertex lists each slot naming it exactly once and lists nothing else |
| ObjImportFacts.ScanSlotOk | Random3DModelGenerator/Model.cs:279-288 | one token is accepted by the loop exactly when it has two slashes and names a vertex already read |
| ObjImportFacts.ScanSlotScanned | Random3DModelGenerator/Model.cs:275-289 | reading one more fitting token keeps the loop's invariant: slots, `tryResult` and back-references as described by `Scanned` |
| ObjImportFacts.ScanSlotsEffect | Random3DModelGenerator/Model.cs:272-298 | the face token loop fails exactly when some token lacks a slash or names an unread vertex; otherwise one slot per token, `tryResult` exactly when every vertex and normal number parsed, and each vertex extended by the back-references of the slots naming it |
| ObjImportFacts.LineShape | Random3DModelGenerator/Model.cs:217-299 | a blank line or unknown tag changes nothing; any other line either grows the list of its kind by one or is reported as skipped |
| ObjImportFacts.FaceLineShape | Random3DModelGenerator/Model.cs:270-298 | a face line either adds one face or is reported as skipped |
| ObjImportFacts.LineLog | Random3DModelGenerator/Model.cs:222-299 | messages are only appended, at most one per line, naming the line's number and kind |
| ObjImportFacts.LineTally | Random3DModelGenerator/Model.cs:222-299 | a line raises the count of its own kind (list length plus messages) by one and no other count |
| ObjImportFacts.ImportBookkeeping | Random3DModelGenerator/Model.cs:203-300 | for a file that imports, the elements read plus the lines reported skipped of each kind are all the lines of that kind |
| ObjImportFacts.LineConsistent | Random3DModelGenerator/Model.cs:222-298 | every line except a rejected face line keeps back-references consistent with the faces |
| ObjImportFacts.FaceLineConsistent | Random3DModelGenerator/Model.cs:270-298 | an accepted face line keeps back-references consistent with the faces |
| ObjImportFacts.ImportConsistent | Random3DModelGenerator/Model.cs:203-300 | when no face line is rejected, the imported vertices' back-references name exactly the slots that refer to them, each once |
| ObjExport.Export | Random3DModelGenerator/Model.cs:316-365 | the lines written are the vertex, texcoord, normal and face lines of the model's mesh, in that order |
| ObjExport.WriteVerticies | Random3DModelGenerator/Model.cs:320-323 | one `v x y z` line per vertex, in order |
| ObjExport.WriteTexcoords | Random3DModelGenerator/Model.cs:326-329 | one `vt u v` line per texture coordinate, in order |
| ObjExport.WriteNormals | Random3DModelGenerator/Model.cs:332-335 | one `vn x y z` line per normal, in order |
| ObjExport.WriteFaces | Random3DModelGenerator/Model.cs:339-361 | one face line per face, in order |
| ObjExport.WriteFace | Random3DModelGenerator/Model.cs:341-359 | `f` followed by one `v/t/n` token per slot, a 0 written as an empty field |
| ObjRoundTrip.FieldParse | Random3DModelGenerator/Model.cs:345-357 | a written field reads back as its number, parses exactly when the number is not 0, and holds no slash or space |
| ObjRoundTrip.FaceTokenRoundTrip | Random3DModelGenerator/Model.cs:277-281 | the token written for a slot parses back into that slot, accepted exactly when its vertex and normal numbers are not 0 |
| ObjRoundTrip.ParseFaceTokens | Random3DModelGenerator/Model.cs:275-282 | the tokens written for a face parse back into its slots, one per token |
| ObjRoundTrip.FaceTextTokens | Random3DModelGenerator/Model.cs:341-360 | a written face line tokenizes into `f` and one token per slot |
| ObjRoundTrip.VertexTextTokens | Random3DModelGenerator/Model.cs:322 | a written vertex line tokenizes into `v` and the three numbers as written, when each number is written as one token without spaces |
| ObjRoundTrip.TexcoordTextTokens | Random3DModelGenerator/Model.cs:328 | a written texcoord line tokenizes into `vt` and the two numbers, when each is written as one token without spaces |
| ObjRoundTrip.NormalTextTokens | Random3DModelGenerator/Model.cs:334 | a written normal line tokenizes into `vn` and the three numbers, when each is written as one token without spaces |
| ObjRoundTrip.ImportVertexTokens | Random3DModelGenerator/Model.cs:222-238 | re-reading a written vertex line adds a vertex at the same position with the empty colour and no back-references, when its three numbers parse back as themselves |
| ObjRoundTrip.ImportTexcoordTokens | Random3DModelGenerator/Model.cs:239-253 | re-reading a written texcoord line adds the same texture coordinate, when its two numbers parse back as themselves |
| ObjRoundTrip.ImportNormalTokens | Random3DModelGenerator/Model.cs:254-269 | re-reading a written normal line adds the same normal, when its three numbers parse back as themselves |
| ObjRoundTrip.ScanExportedSlots | Random3DModelGenerator/Model.cs:275-289 | the token loop over a written face line yields the same slots and back-references, and accepts exactly when every normal number is not 0 |
| ObjRoundTrip.ImportFaceTokens | Random3DModelGenerator/Model.cs:270-298 | re-reading a written face line adds the same face when every slot has a normal number and otherwise reports it skipped; either way each slot's back-reference is added |
| ObjRoundTrip.ExportedFaceWithoutNormalSkipped | Random3DModelGenerator/Model.cs:355-358 | a written face with a slot whose normal number is 0 is skipped with a message when read back |
| ObjRoundTrip.ImportStepReads | Random3DModelGenerator/Model.cs:222-298 | when the numbers of a mesh parse back as themselves, the importer's line step reads each line written for one of its elements back as that element |
| ObjRoundTrip.TokenizeExport | Random3DModelGenerator/Model.cs:316-361 | when every number of a mesh is written as one token, its written file tokenizes section by section into the tokens of its elements |
| ObjRoundTrip.ExportRun | Random3DModelGenerator/Model.cs:203-300 | any line step that reads written lines as the importer does takes the tokens of a written mesh back to that mesh |
| ObjRoundTrip.ExportImport | Random3DModelGenerator/Model.cs:316-365 | when the formatter and parser agree on the mesh's numbers, importing what Export writes succeeds with nothing skipped and rebuilds the texcoords, normals and faces, the vertex positions with the empty colour, and the faces' back-references |
| ObjRoundTrip.ReimportIsIdentity | Random3DModelGenerator/Model.cs:187-365 | a consistent, re-importable mesh with empty colours, on whose numbers the formatter and parser agree, comes back unchanged from export then import, with nothing skipped |
| MeshNormals.SumOverRefs | Random3DModelGenerator/Model.cs:284-288 | summing over the back-references the faces leave on vertex k is summing over every slot naming k |
| MeshNormals.ConsistentSum | Random3DModelGenerator/Model.cs:371-377 | in a consistent mesh the loop over a vertex's back-references sums over exactly the slots naming that vertex |
| MeshNormals.CalcAllVertexNormal | Random3DModelGenerator/Model.cs:368-380 | the normalized sum, over the vertex's back-references in order, of the stored normal of each referenced slot |
| MeshNormals.Corners | Random3DModelGenerator/Model.cs:426-434 | a fresh array holding the positions of the vertices the face's first n slots name |
| MeshNormals.SetCorner | Random3DModelGenerator/Model.cs:428-433 | entry i becomes the position of the vertex slot i names; no other entry and not the model changes |
| MeshNormals.RecalcSurfaceNormal | Random3DModelGenerator/Model.cs:421-440 | the normalized cross product of the quad's two diagonals `(c0 - c2) x (c1 - c3)`, over its first four slots |
| MeshNormals.CalcTriangleFaceNormal | Random3DModelGenerator/Model.cs:443-462 | the normalized cross product `(c2 - c0) x (c1 - c0)` over the face's first three slots |
| MeshNormals.RecalcNormal | Random3DModelGenerator/Model.cs:383-418 | the normalized sum, over the vertex's back-references, of the quad normal of each referenced face |
| MeshNormals.QuadCrossPerpendicular | Random3DModelGenerator/Model.cs:436 | the quad vector is perpendicular to both diagonals |
| MeshNormals.TriangleCrossPerpendicular | Random3DModelGenerator/Model.cs:458 | the triangle vector is perpendicular to both edges from the first corner |
| MeshNormals.OppositeWinding | Random3DModelGenerator/Model.cs:436-458 | on a parallelogram the quad vector is -2 times the triangle vector: the two routines use opposite windings |
| Displacement.ApplyHeightMap | Random3DModelGenerator/Random3DModel.cs:58-87 | a fresh deep copy denoting the displaced mesh: new top-level arrays, a new back-reference array per vertex and a new slot array per face; the argument model keeps its value |
| Displacement.MoveVerticies | Random3DModelGenerator/Random3DModel.cs:66-84 | every vertex of the copy gets its moved position and keeps its colour and back-reference array |
| Displacement.MoveVertex | Random3DModelGenerator/Random3DModel.cs:68-83 | vertex i of the copy gets its moved position; no other vertex changes |
| Displacement.SetPosition | Random3DModelGenerator/Random3DModel.cs:81-83 | only the position of vertex i of the copy changes, and the source model is untouched |
| Displacement.DisplaceCopy | Random3DModelGenerator/Random3DModel.cs:64-84 | moving the copy's positions makes it denote the displaced mesh, keeps every back-reference array and leaves the source model's value alone |
| Displacement.MovedTarget | Random3DModelGenerator/Random3DModel.cs:68-83 | the position computed for vertex i is its moved position |
| Displacement.SampledTexcoord | Random3DModelGenerator/Random3DModel.cs:69-70 | the texture coordinate named by the slot of the vertex's first back-reference |
| Displacement.LiftedPosition | Random3DModelGenerator/Random3DModel.cs:78-83 | the position moved along CalcAllVertexNormal's normal by B / 255 times height |
| Displacement.DisplacedKeeps | Random3DModelGenerator/Random3DModel.cs:64-84 | only positions change: same texcoords, normals and faces, and every vertex keeps colour and back-references |
| Displacement.DisplacedPosition | Random3DModelGenerator/Random3DModel.cs:71-83 | each new position is the old one plus the normal times B / 255 times height, B sampled at the vertex's texture coordinate |
| Displacement.ZeroHeightKeepsMesh | Random3DModelGenerator/Random3DModel.cs:81-83 | a height of 0 leaves the mesh unchanged |
| Displacement.BlackPixelKeepsVertex | Random3DModelGenerator/Random3DModel.cs:71-83 | a vertex whose pixel has blue 0 does not move |
| Displacement.BlackMapKeepsMesh | Random3DModelGenerator/Random3DModel.cs:71-83 | a map with blue 0 everywhere leaves the mesh unchanged |
| Displacement.Random3DModel.constructor | Random3DModelGenerator/Random3DModel.cs:19-24 | both models and the height map start absent |
| Displacement.Random3DModel.Import | Random3DModelGenerator/Random3DModel.cs:27-44 | a missing file changes nothing; an import error propagates and changes nothing; otherwise the imported model and the height map are stored, and the generated model is untouched |
| Displacement.Random3DModel.Export | Random3DModelGenerator/Random3DModel.cs:47-50 | the lines Model.Export writes for the generated model |
| Displacement.Random3DModel.Apply | Random3DModelGenerator/Random3DModel.cs:52-55 | the generated model is a fresh deep copy denoting the displaced source mesh, sharing no array with the source; the source model and map are unchanged |
| Viewer.ModelViewer.constructor | Random3DModelGenerator/ModelViewer.cs:89-90 | both buffers start empty |
| Viewer.ModelViewer.ImportModel | Random3DModelGenerator/ModelViewer.cs:372-407 | null leaves the buffers; otherwise fresh buffers with one viewer vertex per model vertex (position, RecalcNormal's normal, the model colour) and four index entries per face filled with the faces' vertex numbers minus one |
| Viewer.FillVertices | Random3DModelGenerator/ModelViewer.cs:384-394 | every vertex entry is the model vertex's position, recalculated normal and the colour |
| Viewer.SetViewVertex | Random3DModelGenerator/ModelViewer.cs:386-393 | entry i is set and no other entry changes |
| Viewer.FillIndices | Random3DModelGenerator/ModelViewer.cs:397-403 | every index entry is what the last face writing it left there, or 0 |
| Viewer.FillFace | Random3DModelGenerator/ModelViewer.cs:399-402 | face i writes `v_num - 1` of slot j at `4 * i + j` and changes nothing else |
| Viewer.IndexAtSnoc | Random3DModelGenerator/ModelViewer.cs:397-403 | one more face overwrites exactly the entries of its slots |
| Viewer.IndexAtBeyond | Random3DModelGenerator/ModelViewer.cs:397-403 | with at most four slots per face nothing is written past the faces' blocks |
| Viewer.QuadIndices | Random3DModelGenerator/ModelViewer.cs:397-403 | with at most four slots per face, block i holds face i's vertex numbers minus one, then zeros |
| Viewer.IndexAtInRange | Random3DModelGenerator/ModelViewer.cs:401 | when every slot names an existing vertex, every index entry is a valid vertex position |
| Viewer.ModelViewer.CreateWave | Random3DModelGenerator/ModelViewer.cs:410-462 | fewer than one row or column leaves the buffers; otherwise a `(row + 1) * (column + 1)` vertex grid and `row * column * 4` indices, entry p being corner p % 4 of quad p / 4 |
| Viewer.WaveVertices | Random3DModelGenerator/ModelViewer.cs:429-449 | grid point (i, j) lands at `i * (column + 1) + j`, and every entry is written |
| Viewer.WaveIndices | Random3DModelGenerator/ModelViewer.cs:452-461 | every index entry is the corner of its quad |
| Viewer.WaveBlock | Random3DModelGenerator/ModelViewer.cs:456-459 | the four writes of quad (i, j) fill its block and nothing else |
| Viewer.WaveQuad | Random3DModelGenerator/ModelViewer.cs:456-459 | entry k of block `i * column + j` is corner k of quad (i, j) |
| Viewer.QuadCornerInRange | Random3DModelGenerator/ModelViewer.cs:456-459 | every corner of a quad of the grid is a vertex of the grid |
| Viewer.WaveIndexInRange | Random3DModelGenerator/ModelViewer.cs:452-461 | every index of the wave names one of its vertices |
| Viewer.WaveBlockInside | Random3DModelGenerator/ModelViewer.cs:452-461 | each quad's block lies inside the index array |
| Viewer.QuadCornersFit | Random3DModelGenerator/ModelViewer.cs:456-459 | the corner numbers fit in 32 bits when the index array's size does |
| Viewer.GridFits | Random3DModelGenerator/ModelViewer.cs:417-418 | a grid of at least one quad has no more vertices than index entries |
| Viewer.WaveVertexAt | Random3DModelGenerator/ModelViewer.cs:447 | position `i * (column + 1) + j` decodes back to grid point (i, j) |

## Left out

- Floating point: `double` and OpenTK's single-precision `Vector3` are `real`. Rounding, the
  `(float)` casts, NaN and infinities are not modelled.
- `Vector3.Normalize` is a parameter (`Normalizer`) of the normal routines. What it does with
  a zero vector is therefore not fixed.
- `double.TryParse` (`DoubleParser`) and the culture-dependent `Double.ToString`
  (`DoubleFormatter`) are parameters. The round trip assumes they agree on the numbers of the
  exported mesh (`RoundTripsOn`): each is written as one token without spaces and parses back
  as itself. .NET's default `ToString` keeps about 15 significant digits, so a `double` that
  needs more does not meet this, and the round trip is not promised for it.
- `Int32.TryParse` covers white space, an optional sign, decimal digits and the 32-bit range.
  Culture-specific signs and trailing NUL characters are not covered.
- File I/O, the Shift-JIS encoding and the console output. A file is its sequence of lines,
  and a file that does not exist is `None`. Console messages are the `Skip` records of skipped
  lines; the other messages are left out.
- Bitmap decoding. A height map is its grid of blue channel values, and `GetPixel` is an
  in-range lookup.
- Exceptions that are not part of import are preconditions. Import's exceptions are modelled
  as `ImportError` values. The preconditions are these:
  - `ApplyHeightMap`, the normal routines and `ImportModel`, as listed below.
  - `MeshModel.Model.FromTables`, `FromTablesWithNormals`, `FromTablesWithColors`,
    `SetVerticies` and `SetNormal`: a table with rows has at least three columns. The
    source's index out of range is excluded.
  - `MeshModel.Model.FromTablesWithColors` and `SetColor`: the colour array has an entry for
    every vertex. The source's index out of range is excluded.
  - `MeshModel.Model.Copy`: the model is `Valid()`. The source dereferences the texcoord and
    normal arrays, which `FromTables` leaves null, so its null dereference is excluded.
  - `ObjExport.Export`: the texcoord, normal and slot arrays are present. The source's null
    dereference is excluded.
- MeshNormals.CalcAllVertexNormal: requires the whole model to be `Valid()` (every array
  present). The source needs only the arrays it reads.
- MeshNormals.RecalcNormal: requires `Valid()` as well. It also requires every referenced
  face to have at least four slots. The source reads the first four slots of every referenced
  face and throws on a shorter one.
- MeshNormals.RecalcSurfaceNormal: requires `Valid()` as well.
- MeshNormals.CalcTriangleFaceNormal: requires `Valid()` as well.
- Displacement.ApplyHeightMap: requires `Displaceable`. Every vertex must have a first
  back-reference whose texcoord and normals resolve, and whose pixel lies in the map. The
  source throws otherwise, and the model does not state what a throw leaves behind.
- Displacement.Random3DModel.Apply: requires an imported model and a height map. Otherwise
  the source passes null and `ApplyHeightMap` throws.
- Displacement.Random3DModel.Export: requires a generated model. Otherwise the source throws.
- Viewer.ModelViewer.ImportModel: requires `Viewable`. Every vertex's normal must be
  recomputable, and every slot write must fall inside the index array. When a face of more
  than four slots writes past the end, the source throws after it has replaced the viewer's
  buffers; that partial state is not modelled.
- Viewer.ModelViewer.CreateWave: requires `row * column * 4` to fit in 32 bits. The source
  would compute overflowing sizes.
  - Its vertex data is a parameter `wave`, a function of the grid point. That data is the
    position, normal and colour from the clock, `sin`, `cos`, `atan2` and a rotation matrix.
  - `size`, `height`, `frequency` and `velocity` only feed that data, so they are not
    modelled.
- The `ModelViewer(model)` constructor (ModelViewer.cs:185-188) is not modelled. It is the
  window constructor followed by `ImportModel`.
- OpenGL, the window, camera, lighting, the buffer uploads and drawing are not modelled.
- The commented-out code in Random3DModel.cs and the commented-out body in `RecalcNormal`
  are not modelled.
- The `ModelComparator` and the forms are not part of this model.
