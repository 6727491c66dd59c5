/** The writers shared by both variants: `export_material` (combiner230/importers/wavefront.py:90-97,
    minify230/importers/wavefront.py:88-95) and the flat geometry writer, `export_model_fast`
    of the tolerant variant and `export_model` of the strict one (combiner230/importers/wavefront.py:100-114,
    minify230/importers/wavefront.py:97-118). Output is the sequence of written lines; writing
    the file is not part of this model. */
module Exporter {
  import opened Wrappers
  import opened Errors
  import opened Dicts
  import opened Model
  import opened Directives
  import opened MaterialLoader

  /** What `export` leaves behind: the model as the writers left it, the images saved under
      their texture names, and the material and geometry files, each present only when its
      writer got to the end (both build all their lines before writing the file). */
  datatype Written = Written(model: Model, images: seq<Texture>, mtl: Option<seq<MtlLine>>, obj: Option<seq<ObjLine>>)

  /** The four lines written for the material registered under `key`. */
  function MaterialLines(key: string, mat: Material): seq<MtlLine>
    requires mat.texture.Some?
  {
    [Newmtl([key]), Kd(ColorValues(mat.diffuse)), Ka(ColorValues(mat.ambient)), MapKd(mat.texture.value.name)]
  }

  /** The materials under the first `i` keys have textures. */
  predicate TexturedUpTo(d: Dict<Material>, i: nat)
    requires Valid(d) && i <= |d.keys|
  {
    forall j :: 0 <= j < i ==> d.items[d.keys[j]].texture.Some?
  }

  /** Every registered material has a texture (`material.texture.name` is looked up for each). */
  ghost predicate AllTextured(d: Dict<Material>) {
    forall k :: k in d.items ==> d.items[k].texture.Some?
  }

  /** The lines for the first `i` keys, in key order. */
  function MaterialLinesUpTo(d: Dict<Material>, i: nat): (lines: seq<MtlLine>)
    requires Valid(d) && i <= |d.keys| && TexturedUpTo(d, i)
    ensures |lines| == 4 * i
    ensures forall j :: 0 <= j < i ==> lines[4 * j..4 * j + 4] == MaterialLines(d.keys[j], d.items[d.keys[j]])
  {
    if i == 0 then []
    else
      var prior := MaterialLinesUpTo(d, i - 1);
      var lines := prior + MaterialLines(d.keys[i - 1], d.items[d.keys[i - 1]]);
      assert forall j :: 0 <= j < i - 1 ==> lines[4 * j..4 * j + 4] == prior[4 * j..4 * j + 4];
      lines
  }

  /** `export_material`: four lines per material in key order, or an AttributeError when some
      material has no texture (then nothing is written). */
  function ExportMaterial(d: Dict<Material>): (r: Result<seq<MtlLine>, Error>)
    requires Valid(d)
    ensures r.Ok? <==> AllTextured(d)
    ensures r.Err? ==> r.error == MissingTexture
  {
    if TexturedUpTo(d, |d.keys|) then Ok(MaterialLinesUpTo(d, |d.keys|)) else Err(MissingTexture)
  }

  /** The loop of `export_material`. */
  method ExportMaterialLines(d: Dict<Material>) returns (r: Result<seq<MtlLine>, Error>)
    requires Valid(d)
    ensures r == ExportMaterial(d)
  {
    var lines: seq<MtlLine> := [];
    for i := 0 to |d.keys|
      invariant TexturedUpTo(d, i)
      invariant lines == MaterialLinesUpTo(d, i)
    {
      var material := d.items[d.keys[i]];
      if material.texture.None? {
        return Err(MissingTexture);
      }
      lines := lines + MaterialLines(d.keys[i], material);
    }
    return Ok(lines);
  }

  /** The textures of the materials under the first `i` keys, in key order. */
  function TexturesUpTo(d: Dict<Material>, i: nat): (ts: seq<Texture>)
    requires Valid(d) && i <= |d.keys| && TexturedUpTo(d, i)
    ensures |ts| == i && forall j :: 0 <= j < i ==> ts[j] == d.items[d.keys[j]].texture.value
  {
    seq(i, j requires 0 <= j < i => d.items[d.keys[j]].texture.value)
  }

  /** The dictionary restricted to its first `i` keys. */
  function Prefix(d: Dict<Material>, i: nat): Dict<Material>
    requires Valid(d) && i <= |d.keys|
  {
    Dict(d.keys[..i], map k | k in d.keys[..i] :: d.items[k])
  }

  /** A written material file reads back as it was written: each material is registered under
      its own name, and each texture name is a plain file name whose image `images` holds. */
  ghost predicate Reloadable(d: Dict<Material>, images: map<string, Image>) {
    && Valid(d)
    && forall k :: k in d.items ==>
         && d.items[k].name == k
         && d.items[k].texture.Some?
         && var t := d.items[k].texture.value;
         && t.name in images && images[t.name] == t.image && '/' !in t.name
  }

  /** The image files the texture loop of `export` leaves, by file name: each texture saved
      under its name, a later texture overwriting an earlier one of the same name. */
  function SavedImages(textures: seq<Texture>): map<string, Image>
    decreases |textures|
  {
    if textures == [] then map[]
    else SavedImages(textures[..|textures| - 1])[textures[|textures| - 1].name := textures[|textures| - 1].image]
  }

  /** When all textures of one name hold the same image, that image is the file saved
      under the name. */
  lemma {:induction false} SavedImage(textures: seq<Texture>, i: nat)
    requires i < |textures|
    requires forall j :: 0 <= j < |textures| && textures[j].name == textures[i].name ==> textures[j].image == textures[i].image
    ensures textures[i].name in SavedImages(textures) && SavedImages(textures)[textures[i].name] == textures[i].image
    decreases |textures|
  {
    var last := |textures| - 1;
    if i < last && textures[last].name != textures[i].name {
      SavedImage(textures[..last], i);
    }
  }

  /** `Path(name).name` of a name without a '/' is the name itself. */
  lemma BaseNameOfPlainName(path: string)
    requires '/' !in path
    ensures BaseName(path) == path
  {
  }

  /** `Color(*values)` of a colour's four components is that colour. */
  lemma ColorRoundTrip(c: Color)
    ensures MakeColor(ColorValues(c)) == c
  {
    var r := MakeColor(ColorValues(c));
    assert ColorValues(r) == ColorValues(c);
    assert ColorValues(r)[0] == r.red && ColorValues(r)[1] == r.green && ColorValues(r)[2] == r.blue && ColorValues(r)[3] == r.alpha;
  }

  /** The material loop over two runs of lines is the loop over the first, then the second. */
  lemma {:induction false} LoadLinesAppend(st: MtlState, images: map<string, Image>, a: seq<MtlLine>, b: seq<MtlLine>)
    requires CursorValid(st)
    ensures LoadLines(st, images, a + b) ==
      match LoadLines(st, images, a)
      case Done(s) => LoadLines(s, images, b)
      case Aborted(s, e) => Aborted(s, e)
    decreases |a|
  {
    if a == [] {
      assert a + b == b;
    } else {
      assert (a + b)[0] == a[0] && (a + b)[1..] == a[1..] + b;
      match MtlStep(st, images, a[0])
      case Aborted(s, e) =>
      case Done(s) => LoadLinesAppend(s, images, a[1..], b);
    }
  }

  /** The material loop over a line that completes, then the rest. */
  lemma LoadCons(st: MtlState, images: map<string, Image>, lines: seq<MtlLine>)
    requires CursorValid(st) && lines != [] && MtlStep(st, images, lines[0]).Done?
    ensures LoadLines(st, images, lines) == LoadLines(MtlStep(st, images, lines[0]).state, images, lines[1..])
  {
  }

  /** `Kd` or `Ka` of a colour's four components sets that colour on the current material. */
  lemma ReloadColor(st: MtlState, images: map<string, Image>, c: Color, ambient: bool)
    requires CursorValid(st) && st.current.Some?
    ensures var line := if ambient then Ka(ColorValues(c)) else Kd(ColorValues(c));
      MtlStep(st, images, line) == Done(SetCurrent(st, if ambient then Current(st).(ambient := c) else Current(st).(diffuse := c)))
  {
    ColorRoundTrip(c);
  }

  /** `map_Kd` of a plain texture name whose image is at hand gives the current material
      that texture and appends it. */
  lemma ReloadTexture(st: MtlState, images: map<string, Image>, t: Texture)
    requires CursorValid(st) && st.current.Some?
    requires t.name in images && images[t.name] == t.image && '/' !in t.name
    ensures LoadLines(st, images, [MapKd(t.name)]) ==
      Done(SetCurrent(st.(model := st.model.(textures := st.model.textures + [t])), Current(st).(texture := Some(t))))
  {
    var loaded := st.(model := st.model.(textures := st.model.textures + [t]));
    assert OpenTexture(images, t.name) == t by { BaseNameOfPlainName(t.name); }
    assert Current(loaded) == Current(st);
    assert MtlStep(st, images, MapKd(t.name)) == Done(SetCurrent(loaded, Current(st).(texture := Some(t))));
    LoadCons(st, images, [MapKd(t.name)]);
    assert [MapKd(t.name)][1..] == [];
  }

  /** Reading back the four lines of one material registers it under its key, makes it
      current and appends its texture. */
  lemma ReloadOne(st: MtlState, images: map<string, Image>, key: string, mat: Material)
    requires CursorValid(st)
    requires mat.name == key && mat.texture.Some?
    requires mat.texture.value.name in images && images[mat.texture.value.name] == mat.texture.value.image
    requires '/' !in mat.texture.value.name
    ensures LoadLines(st, images, MaterialLines(key, mat)) ==
      Done(MtlState(st.model.(materials := Put(st.model.materials, key, mat), textures := st.model.textures + [mat.texture.value]), Some(key)))
  {
    var t := mat.texture.value;
    var lines := MaterialLines(key, mat);
    var ms := st.model.materials;
    var blank := NewMaterial(key);
    var s1 := MtlState(st.model.(materials := Put(ms, key, blank)), Some(key));
    LoadCons(st, images, lines);
    var s2 := SetCurrent(s1, blank.(diffuse := mat.diffuse));
    ReloadColor(s1, images, mat.diffuse, false);
    LoadCons(s1, images, lines[1..]);
    var s3 := SetCurrent(s2, blank.(diffuse := mat.diffuse, ambient := mat.ambient));
    ReloadColor(s2, images, mat.ambient, true);
    LoadCons(s2, images, lines[1..][1..]);
    assert lines[1..][1..][1..] == [MapKd(t.name)];
    ReloadTexture(s3, images, t);
    assert blank.(diffuse := mat.diffuse, ambient := mat.ambient, texture := Some(t)) == mat;
    PutPut(ms, key, blank, blank.(diffuse := mat.diffuse));
    PutPut(ms, key, blank.(diffuse := mat.diffuse), blank.(diffuse := mat.diffuse, ambient := mat.ambient));
    PutPut(ms, key, blank.(diffuse := mat.diffuse, ambient := mat.ambient), mat);
  }

  /** One more key of the dictionary is one more store into the restricted dictionary. */
  lemma PrefixStep(d: Dict<Material>, i: nat)
    requires Valid(d) && 0 < i <= |d.keys|
    ensures Put(Prefix(d, i - 1), d.keys[i - 1], d.items[d.keys[i - 1]]) == Prefix(d, i)
  {
    assert d.keys[..i] == d.keys[..i - 1] + [d.keys[i - 1]];
    assert d.keys[i - 1] !in d.keys[..i - 1];
  }

  /** One more key contributes its material's texture. */
  lemma TexturesStep(d: Dict<Material>, i: nat)
    requires Valid(d) && 0 < i <= |d.keys| && TexturedUpTo(d, i)
    ensures TexturesUpTo(d, i - 1) + [d.items[d.keys[i - 1]].texture.value] == TexturesUpTo(d, i)
  {
    var a, b := TexturesUpTo(d, i - 1) + [d.items[d.keys[i - 1]].texture.value], TexturesUpTo(d, i);
    assert forall j :: 0 <= j < i ==> a[j] == b[j];
  }

  /** Reading back the lines of the first `i` materials yields them, in key order, with
      their textures. */
  lemma {:induction false} ReloadUpTo(d: Dict<Material>, images: map<string, Image>, i: nat)
    requires Reloadable(d, images) && i <= |d.keys|
    ensures TexturedUpTo(d, i)
    ensures LoadLines(MtlState(EmptyModel(), None), images, MaterialLinesUpTo(d, i)) ==
      Done(MtlState(Model([], Prefix(d, i), TexturesUpTo(d, i)), if i == 0 then None else Some(d.keys[i - 1])))
  {
    if i > 0 {
      ReloadUpTo(d, images, i - 1);
      var key := d.keys[i - 1];
      var mat := d.items[key];
      var st := MtlState(Model([], Prefix(d, i - 1), TexturesUpTo(d, i - 1)), if i == 1 then None else Some(d.keys[i - 2]));
      assert CursorValid(st) by {
        if i > 1 {
          assert d.keys[i - 2] in d.keys[..i - 1];
        }
      }
      LoadLinesAppend(MtlState(EmptyModel(), None), images, MaterialLinesUpTo(d, i - 1), MaterialLines(key, mat));
      ReloadOne(st, images, key, mat);
      PrefixStep(d, i);
      TexturesStep(d, i);
    }
  }

  /** Restricted to all its keys, the dictionary is itself. */
  lemma PrefixAll(d: Dict<Material>)
    requires Valid(d)
    ensures Prefix(d, |d.keys|) == d
  {
    assert d.keys[..|d.keys|] == d.keys;
  }

  /** Reading back what `export_material` wrote gives back the material table, and one
      texture per material, in key order. */
  lemma MaterialRoundTrip(d: Dict<Material>, images: map<string, Image>)
    requires Reloadable(d, images)
    ensures ExportMaterial(d).Ok?
    ensures LoadMaterial(EmptyModel(), images, ExportMaterial(d).value) == Done(Model([], d, TexturesUpTo(d, |d.keys|)))
  {
    ReloadUpTo(d, images, |d.keys|);
    PrefixAll(d);
  }

  /** The corners of a run of faces, face after face. */
  function FaceCorners(faces: seq<Face>): seq<Vertex> {
    if faces == [] then [] else FaceCorners(faces[..|faces| - 1]) + faces[|faces| - 1].vertexes
  }

  /** The corners of a run of meshes, mesh after mesh. */
  function MeshCorners(meshes: seq<Mesh>): seq<Vertex> {
    if meshes == [] then [] else MeshCorners(meshes[..|meshes| - 1]) + FaceCorners(meshes[|meshes| - 1].faces)
  }

  /** Corner `k` of face `j` of mesh `i` is one of the corners of the run of meshes. */
  lemma {:induction false} CornerInFaces(faces: seq<Face>, j: nat, k: nat)
    requires j < |faces| && k < |faces[j].vertexes|
    ensures faces[j].vertexes[k] in FaceCorners(faces)
  {
    var n := |faces| - 1;
    if j < n {
      assert faces[..n][j] == faces[j];
      CornerInFaces(faces[..n], j, k);
    }
  }

  lemma {:induction false} CornerInMeshes(meshes: seq<Mesh>, i: nat, j: nat, k: nat)
    requires i < |meshes| && j < |meshes[i].faces| && k < |meshes[i].faces[j].vertexes|
    ensures meshes[i].faces[j].vertexes[k] in MeshCorners(meshes)
  {
    var n := |meshes| - 1;
    if i < n {
      assert meshes[..n][i] == meshes[i];
      CornerInMeshes(meshes[..n], i, j, k);
    } else {
      CornerInFaces(meshes[i].faces, j, k);
    }
  }

  /** `mesh.material.texture.image.width` and `.height`, or 0 for a mesh without a texture,
      where they are never looked up because the mesh has no corner (see MeshError). */
  function ImageWidth(mesh: Mesh): nat {
    if mesh.material.texture.Some? then mesh.material.texture.value.image.width else 0
  }

  function ImageHeight(mesh: Mesh): nat {
    if mesh.material.texture.Some? then mesh.material.texture.value.image.height else 0
  }

  /** The error the writer meets at a mesh's first corner: an AttributeError without a
      texture, a ZeroDivisionError for an image of width or height 0. */
  function MeshError(mesh: Mesh): (e: Option<Error>)
    ensures e.None? ==> FaceCorners(mesh.faces) == [] || (ImageWidth(mesh) > 0 && ImageHeight(mesh) > 0)
  {
    if FaceCorners(mesh.faces) == [] then None
    else if mesh.material.texture.None? then Some(MissingTexture)
    else if ImageWidth(mesh) == 0 || ImageHeight(mesh) == 0 then Some(DivisionByZero)
    else None
  }

  /** No mesh of the run fails. */
  predicate Writable(meshes: seq<Mesh>) {
    forall i :: 0 <= i < |meshes| ==> MeshError(meshes[i]).None?
  }

  /** The error of the first mesh that has one. */
  function ExportError(meshes: seq<Mesh>): (e: Option<Error>)
    ensures e.None? <==> Writable(meshes)
    ensures e.Some? ==> exists i :: 0 <= i < |meshes| && MeshError(meshes[i]) == e && forall i' :: 0 <= i' < i ==> MeshError(meshes[i']).None?
  {
    if meshes == [] then None
    else
      var prior := ExportError(meshes[..|meshes| - 1]);
      assert forall i :: 0 <= i < |meshes| - 1 ==> meshes[..|meshes| - 1][i] == meshes[i];
      if prior.Some? then prior else MeshError(meshes[|meshes| - 1])
  }

  /** `x / d`. The writer divides only at a corner of a mesh whose image has a nonzero
      size (see MeshError), so the value given for `d == 0` is never written. The quotient
      is taken through a function value, so that proofs about the written lines that never
      look at a texcoord's value do not unfold a division. */
  const Divide: (real, nat) -> real := (x: real, d: nat) => if d == 0 then 0.0 else x / d as real

  function Ratio(x: real, d: nat): real {
    Divide(x, d)
  }

  /** The three lines of one corner: its position, its texcoord divided by the image size,
      and three components of its normal. */
  function VertexLines(v: Vertex, w: nat, h: nat): seq<ObjLine> {
    [V(PositionValues(v.position)), Vt([Ratio(v.texcoord.u, w), Ratio(v.texcoord.v, h)]), Vn([v.normal.x, v.normal.y, v.normal.z])]
  }

  /** The lines of a run of corners. */
  function CornerLines(vs: seq<Vertex>, w: nat, h: nat): (lines: seq<ObjLine>)
    ensures |lines| == 3 * |vs|
  {
    if vs == [] then [] else CornerLines(vs[..|vs| - 1], w, h) + VertexLines(vs[|vs| - 1], w, h)
  }

  /** `j/j/j` for the `n` corners numbered from `index` on: the `k`-th reference names
      corner `index + k` in all three streams. */
  function RefsFrom(index: Index, n: nat): seq<Ref> {
    seq(n, k requires 0 <= k < n => Ref(index + k, index + k, Some(index + k)))
  }

  /** One face: the lines of its corners, then its `f` line. */
  function FaceLines(face: Face, w: nat, h: nat, index: Index): seq<ObjLine>
  {
    CornerLines(face.vertexes, w, h) + [F(RefsFrom(index, |face.vertexes|))]
  }

  /** The faces of one mesh, with corners numbered from `index` on. */
  function FacesLines(faces: seq<Face>, w: nat, h: nat, index: Index): seq<ObjLine>
  {
    if faces == [] then []
    else
      var prior := faces[..|faces| - 1];
      FacesLines(prior, w, h, index) + FaceLines(faces[|faces| - 1], w, h, index + |FaceCorners(prior)|)
  }

  /** One mesh: its `usemtl` line, then its faces. */
  function MeshLines(mesh: Mesh, index: Index): seq<ObjLine> {
    [Usemtl([mesh.material.name])] + FacesLines(mesh.faces, ImageWidth(mesh), ImageHeight(mesh), index)
  }

  /** The meshes, with corners numbered from `index` on. */
  function MeshesLines(meshes: seq<Mesh>, index: Index): seq<ObjLine> {
    if meshes == [] then []
    else
      var prior := meshes[..|meshes| - 1];
      MeshesLines(prior, index) + MeshLines(meshes[|meshes| - 1], index + |MeshCorners(prior)|)
  }

  /** The first two lines of a written geometry file. */
  function Header(objName: string): seq<ObjLine> {
    [Mtllib("material.mtl"), O([objName])]
  }

  /** The flat writer: one `v`, `vt` and `vn` line per corner and one `f` line per face, with
      one counter shared by the three streams; nothing is written when a corner's mesh has
      no texture or an empty image. */
  function FlatExport(objName: string, m: Model): (r: Result<seq<ObjLine>, Error>)
    ensures r.Ok? <==> Writable(m.meshes)
    ensures r.Err? ==> exists i :: 0 <= i < |m.meshes| && MeshError(m.meshes[i]) == Some(r.error)
  {
    match ExportError(m.meshes)
    case Some(e) => Err(e)
    case None => Ok(Header(objName) + MeshesLines(m.meshes, 1))
  }

  /** One face: the three lines of every corner, then the `f` line, which gains
      `index/index/index` for each corner while the shared counter goes up by one. */
  method EmitFace(face: Face, w: nat, h: nat, index: Index) returns (lines: seq<ObjLine>, next: Index)
    ensures lines == FaceLines(face, w, h, index)
    ensures next == index + |face.vertexes|
  {
    var vs := face.vertexes;
    lines := [];
    for k := 0 to |vs|
      invariant lines == CornerLines(vs[..k], w, h)
    {
      assert vs[..k + 1][..k] == vs[..k];
      lines := lines + VertexLines(vs[k], w, h);
    }
    assert vs[..|vs|] == vs;
    var refs: seq<Ref> := [];
    next := index;
    for k := 0 to |vs|
      invariant next == index + k
      invariant refs == RefsFrom(index, k)
    {
      refs := refs + [Ref(next, next, Some(next))];
      next := next + 1;
    }
    lines := lines + [F(refs)];
  }

  /** Some face has a corner exactly when the run of corners is not empty. */
  lemma {:induction false} FaceCornersEmpty(faces: seq<Face>)
    ensures FaceCorners(faces) == [] <==> forall j :: 0 <= j < |faces| ==> faces[j].vertexes == []
  {
    if faces != [] {
      FaceCornersEmpty(faces[..|faces| - 1]);
      assert forall j :: 0 <= j < |faces| - 1 ==> faces[..|faces| - 1][j] == faces[j];
    }
  }

  /** A prefix with a corner leaves the whole run with one. */
  lemma FaceCornersPrefix(faces: seq<Face>, j: nat)
    requires j <= |faces| && FaceCorners(faces[..j]) != []
    ensures FaceCorners(faces) != []
  {
    FaceCornersEmpty(faces[..j]);
    FaceCornersEmpty(faces);
    var k :| 0 <= k < j && faces[..j][k].vertexes != [];
    assert faces[k].vertexes != [];
  }

  /** One more face adds its corners and its lines. */
  lemma FacesPrefixStep(faces: seq<Face>, j: nat, w: nat, h: nat, index: Index)
    requires j < |faces|
    ensures FaceCorners(faces[..j + 1]) == FaceCorners(faces[..j]) + faces[j].vertexes
    ensures FacesLines(faces[..j + 1], w, h, index) == FacesLines(faces[..j], w, h, index) + FaceLines(faces[j], w, h, index + |FaceCorners(faces[..j])|)
  {
    assert faces[..j + 1][..j] == faces[..j];
  }

  /** The error of the first mesh that has one is the error of the whole export. */
  lemma FirstError(objName: string, m: Model, i: nat)
    requires i < |m.meshes| && MeshError(m.meshes[i]).Some?
    requires Writable(m.meshes[..i])
    ensures FlatExport(objName, m) == Err(MeshError(m.meshes[i]).value)
  {
    assert forall i' :: 0 <= i' < i ==> m.meshes[..i][i'] == m.meshes[i'];
    assert ExportError(m.meshes) == MeshError(m.meshes[i]);
  }

  /** With no error, the export is the header and the lines of all meshes. */
  lemma NoError(objName: string, m: Model)
    requires Writable(m.meshes)
    ensures FlatExport(objName, m) == Ok(Header(objName) + MeshesLines(m.meshes, 1))
  {
  }

  /** The `usemtl` line and the faces of one mesh; the texture is looked up at each corner,
      so a mesh fails only at a corner. */
  method EmitMesh(mesh: Mesh, index: Index) returns (r: Result<seq<ObjLine>, Error>, next: Index)
    ensures r.Err? <==> MeshError(mesh).Some?
    ensures r.Err? ==> Some(r.error) == MeshError(mesh)
    ensures r.Ok? ==> r.value == MeshLines(mesh, index) && next == index + |FaceCorners(mesh.faces)|
  {
    var w, h := ImageWidth(mesh), ImageHeight(mesh);
    var usable := mesh.material.texture.Some? && w > 0 && h > 0;
    var body, ok;
    body, next, ok := EmitFaces(mesh.faces, w, h, index, usable);
    if !ok {
      return Err(if mesh.material.texture.None? then MissingTexture else DivisionByZero), next;
    }
    return Ok([Usemtl([mesh.material.name])] + body), next;
  }

  /** The loop over the faces of a mesh: it stops at the first face with a corner when the
      image is not `usable`, and otherwise writes the lines of every face. */
  method EmitFaces(faces: seq<Face>, w: nat, h: nat, index: Index, usable: bool) returns (body: seq<ObjLine>, next: Index, ok: bool)
    ensures ok <==> usable || FaceCorners(faces) == []
    ensures ok ==> body == FacesLines(faces, w, h, index) && next == index + |FaceCorners(faces)|
  {
    body := [];
    next := index;
    for j := 0 to |faces|
      invariant usable || FaceCorners(faces[..j]) == []
      invariant body == FacesLines(faces[..j], w, h, index)
      invariant next == index + |FaceCorners(faces[..j])|
    {
      FacesPrefixStep(faces, j, w, h, index);
      if faces[j].vertexes != [] && !usable {
        FaceCornersPrefix(faces, j + 1);
        return body, next, false;
      }
      var faceLines;
      faceLines, next := EmitFace(faces[j], w, h, next);
      body := body + faceLines;
    }
    assert faces[..|faces|] == faces;
    ok := true;
  }

  /** One more mesh adds its lines and its corners. */
  lemma MeshesStep(meshes: seq<Mesh>, i: nat)
    requires i < |meshes| && Writable(meshes[..i]) && MeshError(meshes[i]).None?
    ensures Writable(meshes[..i + 1])
    ensures MeshesLines(meshes[..i + 1], 1) == MeshesLines(meshes[..i], 1) + MeshLines(meshes[i], 1 + |MeshCorners(meshes[..i])|)
    ensures MeshCorners(meshes[..i + 1]) == MeshCorners(meshes[..i]) + FaceCorners(meshes[i].faces)
  {
    assert meshes[..i + 1][..i] == meshes[..i];
  }

  /** The writer's loop, mesh after mesh. */
  method ExportFlat(objName: string, m: Model) returns (r: Result<seq<ObjLine>, Error>)
    ensures r == FlatExport(objName, m)
  {
    var meshes := m.meshes;
    var body := [];
    var index: Index := 1;
    for i := 0 to |meshes|
      invariant Writable(meshes[..i])
      invariant body == MeshesLines(meshes[..i], 1)
      invariant index == 1 + |MeshCorners(meshes[..i])|
    {
      var meshLines;
      meshLines, index := EmitMesh(meshes[i], index);
      if meshLines.Err? {
        FirstError(objName, m, i);
        return Err(meshLines.error);
      }
      MeshesStep(meshes, i);
      body := body + meshLines.value;
    }
    assert meshes[..|meshes|] == meshes;
    NoError(objName, m);
    return Ok(Header(objName) + body);
  }
}
