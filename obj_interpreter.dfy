/** The line loop of `Wavefront.parse`, identical in both variants
    (combiner230/importers/wavefront.py:24-67, minify230/importers/wavefront.py:28-71);
    the pixel-space post-pass that follows it differs and lives with each variant. */
module ObjInterpreter {
  import opened Wrappers
  import opened Errors
  import opened Dicts
  import opened Model
  import opened Directives
  import opened MaterialLoader

  /** The parser's state: the model it updates through `load_material`, the three attribute
      streams, and the meshes started by `usemtl` during this call. The cursor `mesh` is None
      exactly when no mesh has been started, and otherwise is the last of them. */
  datatype ParseState = ParseState(
    model: Model,
    positions: seq<Position>,
    texcoords: seq<Texcoord>,
    normals: seq<Position>,
    meshes: seq<Mesh>)

  /** The state at the start of a call: empty streams and no meshes. */
  function Start(model: Model): ParseState {
    ParseState(model, [], [], [], [])
  }

  /** Every index of a slash reference lies within its stream. */
  predicate RefInRange(st: ParseState, r: Ref) {
    && r.position <= |st.positions|
    && r.texcoord <= |st.texcoords|
    && (r.normal.Some? ==> r.normal.value <= |st.normals|)
  }

  /** `Vertex(positions[p - 1], texcoords[t - 1])`, with `normals[n - 1]` when `n` is given. */
  function RefVertex(st: ParseState, r: Ref): Vertex
    requires RefInRange(st, r)
  {
    var v := MakeVertex(st.positions[r.position - 1], st.texcoords[r.texcoord - 1]);
    if r.normal.Some? then v.(normal := st.normals[r.normal.value - 1]) else v
  }

  /** A face written with slashes: one vertex per reference, or an IndexError. */
  function ResolveFace(st: ParseState, refs: seq<Ref>): Result<Face, Error> {
    if forall k :: 0 <= k < |refs| ==> RefInRange(st, refs[k]) then
      Ok(Face(seq(|refs|, k requires 0 <= k < |refs| && RefInRange(st, refs[k]) => RefVertex(st, refs[k]))))
    else Err(IndexOutOfRange)
  }

  /** A face of bare position indices: default texcoord and normal, or an IndexError. */
  function ResolveBareFace(st: ParseState, indices: seq<Index>): Result<Face, Error> {
    if forall k :: 0 <= k < |indices| ==> indices[k] <= |st.positions| then
      Ok(Face(seq(|indices|, k requires 0 <= k < |indices| && indices[k] <= |st.positions| =>
        MakeVertex(st.positions[indices[k] - 1], MakeTexcoord([])))))
    else Err(IndexOutOfRange)
  }

  /** `mesh.faces.append(face)` on the current mesh, the last one started. */
  function AddFace(st: ParseState, face: Face): ParseState
    requires st.meshes != []
  {
    var last := |st.meshes| - 1;
    st.(meshes := st.meshes[last := st.meshes[last].(faces := st.meshes[last].faces + [face])])
  }

  /** One pass of the loop body: the pattern match on the split line. */
  function Step(st: ParseState, files: Files, line: ObjLine): Outcome<ParseState> {
    match line
    case Comment => Done(st)
    case O(_) => Done(st)
    case Unknown => Done(st)
    case Mtllib(path) =>
      if path !in files.materials then Aborted(st, FileNotFound(path))
      else (
        match LoadMaterial(st.model, files.images, files.materials[path])
        case Done(m) => Done(st.(model := m))
        case Aborted(m, e) => Aborted(st.(model := m), e))
    case V(values) =>
      if |values| < 3 then Done(st)
      else if |values| > 4 then Aborted(st, TooManyValues)
      else Done(st.(positions := st.positions + [MakePosition(values)]))
    case Vt(values) =>
      if |values| < 1 then Done(st)
      else if |values| > 3 then Aborted(st, TooManyValues)
      else Done(st.(texcoords := st.texcoords + [MakeTexcoord(values)]))
    case Vn(values) =>
      if |values| > 4 then Aborted(st, TooManyValues)
      else Done(st.(normals := st.normals + [MakePosition(values)]))
    case Usemtl(names) =>
      if |names| != 1 then Done(st)
      else if names[0] !in st.model.materials.items then Aborted(st, UnknownMaterial(names[0]))
      else Done(st.(meshes := st.meshes + [NewMesh(st.model.materials.items[names[0]])]))
    case F(refs) =>
      if st.meshes == [] then Done(st)
      else (
        match ResolveFace(st, refs)
        case Err(e) => Aborted(st, e)
        case Ok(face) => Done(AddFace(st, face)))
    case FBare(indices) =>
      if st.meshes == [] then Done(st)
      else (
        match ResolveBareFace(st, indices)
        case Err(e) => Aborted(st, e)
        case Ok(face) => Done(AddFace(st, face)))
  }

  /** The loop over all lines of the geometry file, stopping at the first failure. */
  function Interpret(st: ParseState, files: Files, lines: seq<ObjLine>): Outcome<ParseState>
    decreases |lines|
  {
    if lines == [] then Done(st)
    else
      match Step(st, files, lines[0])
      case Aborted(s, e) => Aborted(s, e)
      case Done(s) => Interpret(s, files, lines[1..])
  }

  /** The inner loop over the references of a face written with slashes. */
  method ResolveSlashFace(st: ParseState, refs: seq<Ref>) returns (r: Result<Face, Error>)
    ensures r == ResolveFace(st, refs)
  {
    var vertexes: seq<Vertex> := [];
    for k := 0 to |refs|
      invariant forall j :: 0 <= j < k ==> RefInRange(st, refs[j])
      invariant |vertexes| == k
      invariant forall j :: 0 <= j < k ==> vertexes[j] == RefVertex(st, refs[j])
    {
      var ref := refs[k];
      if ref.position > |st.positions| || ref.texcoord > |st.texcoords| { return Err(IndexOutOfRange); }
      var vertex := MakeVertex(st.positions[ref.position - 1], st.texcoords[ref.texcoord - 1]);
      if ref.normal.Some? {
        if ref.normal.value > |st.normals| { return Err(IndexOutOfRange); }
        vertex := vertex.(normal := st.normals[ref.normal.value - 1]);
      }
      vertexes := vertexes + [vertex];
    }
    assert vertexes == seq(|refs|, k requires 0 <= k < |refs| && RefInRange(st, refs[k]) => RefVertex(st, refs[k]));
    return Ok(Face(vertexes));
  }

  /** The inner loop over the indices of a face without slashes. */
  method ResolveBareIndices(st: ParseState, indices: seq<Index>) returns (r: Result<Face, Error>)
    ensures r == ResolveBareFace(st, indices)
  {
    var vertexes: seq<Vertex> := [];
    for k := 0 to |indices|
      invariant forall j :: 0 <= j < k ==> indices[j] <= |st.positions|
      invariant |vertexes| == k
      invariant forall j :: 0 <= j < k ==> vertexes[j] == MakeVertex(st.positions[indices[j] - 1], MakeTexcoord([]))
    {
      if indices[k] > |st.positions| { return Err(IndexOutOfRange); }
      vertexes := vertexes + [MakeVertex(st.positions[indices[k] - 1], MakeTexcoord([]))];
    }
    assert vertexes == seq(|indices|, k requires 0 <= k < |indices| && indices[k] <= |st.positions| =>
      MakeVertex(st.positions[indices[k] - 1], MakeTexcoord([])));
    return Ok(Face(vertexes));
  }

  /** The loop of `parse` over the lines, proved to compute Interpret from a fresh state. */
  method InterpretLines(model: Model, files: Files, lines: seq<ObjLine>) returns (o: Outcome<ParseState>)
    ensures o == Interpret(Start(model), files, lines)
  {
    var st := Start(model);
    for i := 0 to |lines|
      invariant Interpret(Start(model), files, lines) == Interpret(st, files, lines[i..])
    {
      assert lines[i..][0] == lines[i] && lines[i..][1..] == lines[i + 1..];
      match lines[i]
      case Comment =>
      case O(_) =>
      case Unknown =>
      case Mtllib(path) =>
        if path !in files.materials { return Aborted(st, FileNotFound(path)); }
        var loaded := LoadMaterialLines(st.model, files.images, files.materials[path]);
        st := st.(model := loaded.state);
        if loaded.Aborted? { return Aborted(st, loaded.error); }
      case V(values) =>
        if |values| >= 3 {
          if |values| > 4 { return Aborted(st, TooManyValues); }
          st := st.(positions := st.positions + [MakePosition(values)]);
        }
      case Vt(values) =>
        if |values| >= 1 {
          if |values| > 3 { return Aborted(st, TooManyValues); }
          st := st.(texcoords := st.texcoords + [MakeTexcoord(values)]);
        }
      case Vn(values) =>
        if |values| > 4 { return Aborted(st, TooManyValues); }
        st := st.(normals := st.normals + [MakePosition(values)]);
      case Usemtl(names) =>
        if |names| == 1 {
          if names[0] !in st.model.materials.items { return Aborted(st, UnknownMaterial(names[0])); }
          st := st.(meshes := st.meshes + [NewMesh(st.model.materials.items[names[0]])]);
        }
      case F(refs) =>
        if st.meshes != [] {
          var face := ResolveSlashFace(st, refs);
          if face.Err? { return Aborted(st, face.error); }
          st := AddFace(st, face.value);
        }
      case FBare(indices) =>
        if st.meshes != [] {
          var face := ResolveBareIndices(st, indices);
          if face.Err? { return Aborted(st, face.error); }
          st := AddFace(st, face.value);
        }
    }
    assert lines[|lines|..] == [];
    return Done(st);
  }

  /** Comment lines, `o` lines, unrecognised directives, and faces seen before any `usemtl`
      leave every stream, mesh and material as they were. */
  lemma IgnoredLinesChangeNothing(st: ParseState, files: Files, line: ObjLine)
    requires line.Comment? || line.O? || line.Unknown? || ((line.F? || line.FBare?) && st.meshes == [])
    ensures Step(st, files, line) == Done(st)
  {
  }

  /** `v`, `vt` and `vn` each append exactly one entry to their own stream and touch nothing
      else; a `v` with fewer than three values or a `vt` with none matches no case. */
  lemma AttributeLinesAppendOne(st: ParseState, files: Files, values: seq<real>)
    ensures 3 <= |values| <= 4 ==> Step(st, files, V(values)) == Done(st.(positions := st.positions + [MakePosition(values)]))
    ensures 1 <= |values| <= 3 ==> Step(st, files, Vt(values)) == Done(st.(texcoords := st.texcoords + [MakeTexcoord(values)]))
    ensures |values| <= 4 ==> Step(st, files, Vn(values)) == Done(st.(normals := st.normals + [MakePosition(values)]))
    ensures |values| < 3 ==> Step(st, files, V(values)) == Done(st)
    ensures |values| == 0 ==> Step(st, files, Vt(values)) == Done(st)
    ensures |values| > 4 ==> Step(st, files, V(values)) == Aborted(st, TooManyValues) == Step(st, files, Vn(values))
    ensures |values| > 3 ==> Step(st, files, Vt(values)) == Aborted(st, TooManyValues)
  {
  }

  /** `usemtl name` fails exactly when no material of that name is declared; otherwise it
      appends one new, empty mesh bound to that material, which becomes current. */
  lemma UsemtlStartsMesh(st: ParseState, files: Files, name: string)
    ensures var o := Step(st, files, Usemtl([name]));
      && (o.Aborted? <==> name !in st.model.materials.items)
      && (o.Aborted? ==> o == Aborted(st, UnknownMaterial(name)))
      && (o.Done? ==> o.state == st.(meshes := st.meshes + [Mesh(st.model.materials.items[name], [])]))
  {
  }

  /** A face written with slashes resolves exactly when every reference lies within the
      streams read so far; then the k-th vertex takes `positions[p-1]` and `texcoords[t-1]`,
      and `normals[n-1]` when `n` is given, else the default normal. */
  lemma SlashFaceResolution(st: ParseState, refs: seq<Ref>)
    ensures ResolveFace(st, refs).Ok? <==> forall k :: 0 <= k < |refs| ==> RefInRange(st, refs[k])
    ensures ResolveFace(st, refs).Err? ==> ResolveFace(st, refs).error == IndexOutOfRange
    ensures ResolveFace(st, refs).Ok? ==>
      var vs := ResolveFace(st, refs).value.vertexes;
      && |vs| == |refs|
      && forall k :: 0 <= k < |refs| ==>
           && vs[k].position == st.positions[refs[k].position - 1]
           && vs[k].texcoord == st.texcoords[refs[k].texcoord - 1]
           && vs[k].normal == (if refs[k].normal.Some? then st.normals[refs[k].normal.value - 1] else MakePosition([]))
  {
  }

  /** A face without slashes resolves exactly when every index lies within the positions read
      so far; its vertices take those positions with the default texcoord and normal. */
  lemma BareFaceResolution(st: ParseState, indices: seq<Index>)
    ensures ResolveBareFace(st, indices).Ok? <==> forall k :: 0 <= k < |indices| ==> indices[k] <= |st.positions|
    ensures ResolveBareFace(st, indices).Ok? ==>
      var vs := ResolveBareFace(st, indices).value.vertexes;
      && |vs| == |indices|
      && forall k :: 0 <= k < |indices| ==>
           vs[k] == Vertex(st.positions[indices[k] - 1], Uvw(0.0, 0.0, 1.0), Position(0.0, 0.0, 0.0, 1.0))
  {
  }

  /** The face a face line resolves to against the streams of `st`. */
  function LineFace(st: ParseState, line: ObjLine): Result<Face, Error>
    requires line.F? || line.FBare?
  {
    if line.F? then ResolveFace(st, line.refs) else ResolveBareFace(st, line.indices)
  }

  /** A face line after a `usemtl` fails exactly when its face does not resolve, with an
      IndexError and nothing changed; otherwise it appends the resolved face, one vertex per
      reference, to the current mesh and to no other. */
  lemma FaceGoesToCurrentMesh(st: ParseState, files: Files, line: ObjLine)
    requires line.F? || line.FBare?
    requires st.meshes != []
    ensures var r := LineFace(st, line);
      var n := if line.F? then |line.refs| else |line.indices|;
      && (Step(st, files, line).Done? <==> r.Ok?)
      && (r.Err? ==> Step(st, files, line) == Aborted(st, IndexOutOfRange))
      && (r.Ok? ==> Step(st, files, line) == Done(AddFace(st, r.value)) && |r.value.vertexes| == n)
  {
    if line.F? {
      SlashFaceResolution(st, line.refs);
    } else {
      BareFaceResolution(st, line.indices);
    }
  }

  /** The position read by a line, if it is a `v` line that applies. */
  function LinePositions(line: ObjLine): seq<Position> {
    if line.V? && 3 <= |line.values| <= 4 then [MakePosition(line.values)] else []
  }

  /** The texcoord read by a line, if it is a `vt` line that applies. */
  function LineTexcoords(line: ObjLine): seq<Texcoord> {
    if line.Vt? && 1 <= |line.values| <= 3 then [MakeTexcoord(line.values)] else []
  }

  /** The normal read by a line, if it is a `vn` line that applies. */
  function LineNormals(line: ObjLine): seq<Position> {
    if line.Vn? && |line.values| <= 4 then [MakePosition(line.values)] else []
  }

  /** The positions, texcoords and normals of a run of lines, in file order. */
  function PositionsOf(lines: seq<ObjLine>): seq<Position> {
    if lines == [] then [] else LinePositions(lines[0]) + PositionsOf(lines[1..])
  }

  function TexcoordsOf(lines: seq<ObjLine>): seq<Texcoord> {
    if lines == [] then [] else LineTexcoords(lines[0]) + TexcoordsOf(lines[1..])
  }

  function NormalsOf(lines: seq<ObjLine>): seq<Position> {
    if lines == [] then [] else LineNormals(lines[0]) + NormalsOf(lines[1..])
  }

  /** One completed step extends each stream by what its line reads. */
  lemma StepStreams(st: ParseState, files: Files, line: ObjLine)
    requires Step(st, files, line).Done?
    ensures var s := Step(st, files, line).state;
      && s.positions == st.positions + LinePositions(line)
      && s.texcoords == st.texcoords + LineTexcoords(line)
      && s.normals == st.normals + LineNormals(line)
  {
    match line
    case Mtllib(path) =>
    case F(refs) =>
    case FBare(indices) =>
    case _ =>
  }

  /** A parse that completes has read exactly the `v` lines that apply into the position
      stream, in file order; likewise `vt` into texcoords and `vn` into normals. */
  lemma {:induction false} PositionsAreTheVLines(st: ParseState, files: Files, lines: seq<ObjLine>)
    requires Interpret(st, files, lines).Done?
    ensures Interpret(st, files, lines).state.positions == st.positions + PositionsOf(lines)
    decreases |lines|
  {
    if lines != [] {
      var o := Step(st, files, lines[0]);
      assert o.Done? && Interpret(st, files, lines) == Interpret(o.state, files, lines[1..]);
      StepStreams(st, files, lines[0]);
      PositionsAreTheVLines(o.state, files, lines[1..]);
      assert PositionsOf(lines) == LinePositions(lines[0]) + PositionsOf(lines[1..]);
    }
  }

  /** A parse that completes has read exactly the `vt` lines that apply, in order. */
  lemma {:induction false} TexcoordsAreTheVtLines(st: ParseState, files: Files, lines: seq<ObjLine>)
    requires Interpret(st, files, lines).Done?
    ensures Interpret(st, files, lines).state.texcoords == st.texcoords + TexcoordsOf(lines)
    decreases |lines|
  {
    if lines != [] {
      var o := Step(st, files, lines[0]);
      assert o.Done? && Interpret(st, files, lines) == Interpret(o.state, files, lines[1..]);
      StepStreams(st, files, lines[0]);
      TexcoordsAreTheVtLines(o.state, files, lines[1..]);
      assert TexcoordsOf(lines) == LineTexcoords(lines[0]) + TexcoordsOf(lines[1..]);
    }
  }

  /** A parse that completes has read exactly the `vn` lines that apply, in order. */
  lemma {:induction false} NormalsAreTheVnLines(st: ParseState, files: Files, lines: seq<ObjLine>)
    requires Interpret(st, files, lines).Done?
    ensures Interpret(st, files, lines).state.normals == st.normals + NormalsOf(lines)
    decreases |lines|
  {
    if lines != [] {
      var o := Step(st, files, lines[0]);
      assert o.Done? && Interpret(st, files, lines) == Interpret(o.state, files, lines[1..]);
      StepStreams(st, files, lines[0]);
      NormalsAreTheVnLines(o.state, files, lines[1..]);
      assert NormalsOf(lines) == LineNormals(lines[0]) + NormalsOf(lines[1..]);
    }
  }

  /** Whether completed or stopped, the loop leaves the model's own mesh list alone, keeps
      its material dictionary well formed, and only ever adds meshes to its own list. */
  lemma {:induction false} InterpretKeepsModelMeshes(st: ParseState, files: Files, lines: seq<ObjLine>)
    requires Valid(st.model.materials)
    ensures var s := Interpret(st, files, lines).state;
      && s.model.meshes == st.model.meshes
      && Valid(s.model.materials)
      && |st.meshes| <= |s.meshes|
    decreases |lines|
  {
    if lines != [] {
      var o := Step(st, files, lines[0]);
      if lines[0].Mtllib? && lines[0].path in files.materials {
        LoadLinesKeepsMeshes(MtlState(st.model, None), files.images, files.materials[lines[0].path]);
      }
      if o.Done? {
        InterpretKeepsModelMeshes(o.state, files, lines[1..]);
      }
    }
  }

  /** A `usemtl` line that applies, starting a new mesh. */
  predicate StartsMesh(line: ObjLine) {
    line.Usemtl? && |line.names| == 1
  }

  /** The number of `usemtl` lines that start a mesh. */
  function MeshStarts(lines: seq<ObjLine>): nat {
    if lines == [] then 0 else (if StartsMesh(lines[0]) then 1 else 0) + MeshStarts(lines[1..])
  }

  /** A completed step starts a mesh exactly when the line is an applicable `usemtl`. */
  lemma StepMeshCount(st: ParseState, files: Files, line: ObjLine)
    requires Step(st, files, line).Done?
    ensures |Step(st, files, line).state.meshes| == |st.meshes| + (if StartsMesh(line) then 1 else 0)
  {
    match line
    case Mtllib(path) =>
    case F(refs) =>
    case FBare(indices) =>
    case _ =>
  }

  /** A completed loop has started one mesh per applicable `usemtl` line, and no other. */
  lemma {:induction false} InterpretMeshCount(st: ParseState, files: Files, lines: seq<ObjLine>)
    requires Interpret(st, files, lines).Done?
    ensures |Interpret(st, files, lines).state.meshes| == |st.meshes| + MeshStarts(lines)
    decreases |lines|
  {
    if lines != [] {
      StepMeshCount(st, files, lines[0]);
      InterpretMeshCount(Step(st, files, lines[0]).state, files, lines[1..]);
    }
  }

  /** The number of face lines in a run of lines. */
  function FaceLineCount(lines: seq<ObjLine>): nat {
    if lines == [] then 0 else (if lines[0].F? || lines[0].FBare? then 1 else 0) + FaceLineCount(lines[1..])
  }

  /** The face of a line that resolves against the streams of `st`, if it is a face line. */
  function LineFaces(st: ParseState, line: ObjLine): seq<Face> {
    if (line.F? || line.FBare?) && LineFace(st, line).Ok? then [LineFace(st, line).value] else []
  }

  /** The faces of a run of lines, each face line resolved against the streams of `st`
      extended by the `v`, `vt` and `vn` lines before it. */
  function FacesOf(st: ParseState, lines: seq<ObjLine>): seq<Face>
    decreases |lines|
  {
    if lines == [] then []
    else LineFaces(st, lines[0]) + FacesOf(Advance(st, lines[0]), lines[1..])
  }

  /** The streams of `st` extended by what one line reads. */
  function Advance(st: ParseState, line: ObjLine): ParseState {
    st.(positions := st.positions + LinePositions(line),
        texcoords := st.texcoords + LineTexcoords(line),
        normals := st.normals + LineNormals(line))
  }

  /** Resolving reads only the three streams. */
  lemma {:induction false} FacesOfStreams(st1: ParseState, st2: ParseState, lines: seq<ObjLine>)
    requires st1.positions == st2.positions && st1.texcoords == st2.texcoords && st1.normals == st2.normals
    ensures FacesOf(st1, lines) == FacesOf(st2, lines)
    decreases |lines|
  {
    if lines != [] {
      assert LineFaces(st1, lines[0]) == LineFaces(st2, lines[0]) by {
        if lines[0].F? {
          var refs := lines[0].refs;
          assert forall k :: 0 <= k < |refs| ==> (RefInRange(st1, refs[k]) <==> RefInRange(st2, refs[k]));
          if ResolveFace(st1, refs).Ok? {
            assert ResolveFace(st1, refs).value.vertexes == ResolveFace(st2, refs).value.vertexes;
          }
        } else if lines[0].FBare? {
          assert ResolveBareFace(st1, lines[0].indices) == ResolveBareFace(st2, lines[0].indices);
        }
      }
      FacesOfStreams(Advance(st1, lines[0]), Advance(st2, lines[0]), lines[1..]);
    }
  }

  /** One completed step that starts no mesh adds the face of its line, if any, to the
      current mesh. */
  lemma StepMeshes(st: ParseState, files: Files, line: ObjLine)
    requires st.meshes != [] && !StartsMesh(line)
    requires Step(st, files, line).Done?
    ensures var s := Step(st, files, line).state; var last := |st.meshes| - 1;
      && |s.meshes| == |st.meshes| && s.meshes[..last] == st.meshes[..last]
      && s.meshes[last].material == st.meshes[last].material
      && s.meshes[last].faces == st.meshes[last].faces + LineFaces(st, line)
      && |LineFaces(st, line)| == (if line.F? || line.FBare? then 1 else 0)
  {
    match line
    case Mtllib(path) =>
    case F(refs) =>
    case FBare(indices) =>
    case _ =>
  }

  /** Once `usemtl` has started a mesh, every face line up to the next `usemtl` is resolved
      against the streams read before it and appended to that mesh, in order, and no other
      mesh changes. */
  lemma {:induction false} FacesGoToCurrentMesh(st: ParseState, files: Files, lines: seq<ObjLine>)
    requires st.meshes != []
    requires forall k :: 0 <= k < |lines| ==> !StartsMesh(lines[k])
    requires Interpret(st, files, lines).Done?
    ensures var s := Interpret(st, files, lines).state; var last := |st.meshes| - 1;
      && |s.meshes| == |st.meshes| && s.meshes[..last] == st.meshes[..last]
      && s.meshes[last].material == st.meshes[last].material
      && s.meshes[last].faces == st.meshes[last].faces + FacesOf(st, lines)
      && |FacesOf(st, lines)| == FaceLineCount(lines)
    decreases |lines|
  {
    if lines != [] {
      var o := Step(st, files, lines[0]);
      assert o.Done? && Interpret(st, files, lines) == Interpret(o.state, files, lines[1..]);
      StepMeshes(st, files, lines[0]);
      StepStreams(st, files, lines[0]);
      FacesGoToCurrentMesh(o.state, files, lines[1..]);
      FacesOfStreams(o.state, Advance(st, lines[0]), lines[1..]);
      var last := |st.meshes| - 1;
      assert st.meshes[..last] == o.state.meshes[..last];
      assert FacesOf(st, lines) == LineFaces(st, lines[0]) + FacesOf(o.state, lines[1..]);
      assert (st.meshes[last].faces + LineFaces(st, lines[0])) + FacesOf(o.state, lines[1..])
        == st.meshes[last].faces + FacesOf(st, lines);
    }
  }
}
