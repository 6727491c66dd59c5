/** `Wavefront` of the strict variant (minify230/importers/wavefront.py:17-140): `parse`
    runs the shared line loop and then scales every mesh's texcoords to pixels, failing on
    the first corner of a mesh without a texture; `export` saves the textures, then writes
    the material file and the flat geometry file. */
module Minify230Wavefront {
  import opened Wrappers
  import opened Errors
  import Dicts
  import opened Model
  import opened Directives
  import MaterialLoader
  import opened ObjInterpreter
  import opened Exporter
  import opened PixelSpace
  import opened FlatReadback

  /** The post-pass reaches `mesh.material.texture.image` at the first corner of a mesh, so a
      mesh without a texture is only accepted when it has no corner. */
  predicate Scalable(mesh: Mesh) {
    mesh.material.texture.Some? || FaceCorners(mesh.faces) == []
  }

  /** The post-pass over the meshes one call of `parse` started: all of them scaled, or an
      AttributeError (the meshes are then never added to the model). */
  function StrictPixel(meshes: seq<Mesh>): (r: Result<seq<Mesh>, Error>)
    ensures r.Ok? <==> forall i :: 0 <= i < |meshes| ==> Scalable(meshes[i])
    ensures r.Err? ==> r.error == MissingTexture
    ensures r.Ok? ==> |r.value| == |meshes|
  {
    if forall i :: 0 <= i < |meshes| ==> Scalable(meshes[i]) then
      Ok(seq(|meshes|, i requires 0 <= i < |meshes| => PixelMesh(meshes[i])))
    else Err(MissingTexture)
  }

  /** Each scaled mesh keeps its material and the shape of its faces, and every corner moves
      to the pixel of its image: `u` times the width, `v` times the height. */
  lemma StrictPixelCorner(meshes: seq<Mesh>, i: nat, j: nat, k: nat)
    requires StrictPixel(meshes).Ok?
    requires i < |meshes| && j < |meshes[i].faces| && k < |meshes[i].faces[j].vertexes|
    ensures var r := StrictPixel(meshes).value[i];
      var v := meshes[i].faces[j].vertexes[k];
      && meshes[i].material.texture.Some?
      && r.material == meshes[i].material && |r.faces| == |meshes[i].faces|
      && |r.faces[j].vertexes| == |meshes[i].faces[j].vertexes|
      && r.faces[j].vertexes[k].position == v.position
      && r.faces[j].vertexes[k].normal == v.normal
      && r.faces[j].vertexes[k].texcoord == Uv(v.texcoord.u * ImageWidth(meshes[i]) as real, v.texcoord.v * ImageHeight(meshes[i]) as real)
  {
    assert Scalable(meshes[i]);
    if meshes[i].material.texture.None? {
      CornerInFaces(meshes[i].faces, j, k);
      assert false;
    }
    PixelCorner(meshes[i], j, k);
  }

  /** `parse()`: the line loop over a model, then the post-pass, then `meshes` appended to the
      model's own. A failure leaves what `load_material` did to the model, and no new mesh. */
  function Parsed(model: Model, files: Files, lines: seq<ObjLine>): (o: Outcome<Model>)
    requires Dicts.Valid(model.materials)
    ensures Dicts.Valid(o.state.materials)
    ensures o.Done? <==> Interpret(Start(model), files, lines).Done? && StrictPixel(Interpret(Start(model), files, lines).state.meshes).Ok?
    ensures o.Aborted? && Interpret(Start(model), files, lines).Done? ==> o.error == MissingTexture
    ensures o.Aborted? ==> o.state.meshes == model.meshes
    ensures o.Done? ==> |o.state.meshes| == |model.meshes| + MeshStarts(lines) && o.state.meshes[..|model.meshes|] == model.meshes
    ensures o.Done? ==> o.state.meshes[|model.meshes|..] == StrictPixel(Interpret(Start(model), files, lines).state.meshes).value
    ensures o.Done? ==> o.state.materials == Interpret(Start(model), files, lines).state.model.materials
  {
    InterpretKeepsModelMeshes(Start(model), files, lines);
    match Interpret(Start(model), files, lines)
    case Aborted(s, e) => Aborted(s.model, e)
    case Done(s) =>
      InterpretMeshCount(Start(model), files, lines);
      match StrictPixel(s.meshes)
      case Err(e) => Aborted(s.model, e)
      case Ok(ms) => Done(s.model.(meshes := s.model.meshes + ms))
  }

  /** `export()`: the textures are saved first; an AttributeError in `export_material` stops
      before either file is written, and one in the geometry writer after the material file. */
  function Exported(objName: string, m: Model): (o: Outcome<Written>)
    requires Dicts.Valid(m.materials)
    ensures o.state.model == m && o.state.images == m.textures
    ensures o.Done? <==> AllTextured(m.materials) && Writable(m.meshes)
    ensures o.state.mtl.Some? <==> AllTextured(m.materials)
    ensures o.state.obj.Some? <==> o.Done?
    ensures o.Aborted? ==> o.error == MissingTexture || o.error == DivisionByZero
  {
    match ExportMaterial(m.materials)
    case Err(e) => Aborted(Written(m, m.textures, None, None), e)
    case Ok(mtl) =>
      match FlatExport(objName, m)
      case Err(e) => Aborted(Written(m, m.textures, Some(mtl), None), e)
      case Ok(obj) => Done(Written(m, m.textures, Some(mtl), Some(obj)))
  }

  /** What `export()` writes reads back as the model: the material file gives back the
      material table and its textures, and the geometry file one position, texcoord and normal
      per corner, in order, named by `f` lines counting from 1. */
  lemma ExportReadsBack(objName: string, m: Model, images: map<string, Image>)
    requires Reloadable(m.materials, images) && Writable(m.meshes)
    ensures var o := Exported(objName, m);
      var vs := MeshCorners(m.meshes);
      && o.Done?
      && MaterialLoader.LoadMaterial(EmptyModel(), images, o.state.mtl.value) == Done(Model([], m.materials, TexturesUpTo(m.materials, |m.materials.keys|)))
      && PositionsOf(o.state.obj.value) == Positions(vs)
      && TexcoordsOf(o.state.obj.value) == ReadTexcoords(m.meshes)
      && NormalsOf(o.state.obj.value) == Normals(vs)
      && RefsOf(o.state.obj.value) == RefsFrom(1, |vs|)
  {
    MaterialRoundTrip(m.materials, images);
    FlatReadsBack(objName, m);
  }

  /** The material file written by `export()` reads back, from the image files the same call
      saves, as the material table and its textures, provided every material is registered
      under its own name with one of the model's textures, texture names are plain file
      names, and textures of one name hold one image. */
  lemma ExportReloadsSaved(objName: string, m: Model)
    requires Dicts.Valid(m.materials) && Writable(m.meshes)
    requires forall k :: k in m.materials.items ==>
      && m.materials.items[k].name == k && m.materials.items[k].texture.Some?
      && m.materials.items[k].texture.value in m.textures && '/' !in m.materials.items[k].texture.value.name
    requires forall i, j :: 0 <= i < |m.textures| && 0 <= j < |m.textures| && m.textures[i].name == m.textures[j].name ==>
      m.textures[i].image == m.textures[j].image
    ensures var o := Exported(objName, m);
      && o.Done?
      && MaterialLoader.LoadMaterial(EmptyModel(), SavedImages(o.state.images), o.state.mtl.value) == Done(Model([], m.materials, TexturesUpTo(m.materials, |m.materials.keys|)))
  {
    var images := SavedImages(m.textures);
    forall k | k in m.materials.items
      ensures var t := m.materials.items[k].texture.value; t.name in images && images[t.name] == t.image
    {
      var t := m.materials.items[k].texture.value;
      var i :| 0 <= i < |m.textures| && m.textures[i] == t;
      SavedImage(m.textures, i);
    }
    assert Reloadable(m.materials, images);
    ExportReadsBack(objName, m, images);
  }

  /** The post-pass loop: it stops at the first corner of a mesh without a texture. */
  method PixelPass(meshes: seq<Mesh>) returns (r: Result<seq<Mesh>, Error>)
    ensures r == StrictPixel(meshes)
  {
    var scaled := [];
    for i := 0 to |meshes|
      invariant forall i' :: 0 <= i' < i ==> Scalable(meshes[i'])
      invariant |scaled| == i && forall i' :: 0 <= i' < i ==> scaled[i'] == PixelMesh(meshes[i'])
    {
      var mesh := meshes[i];
      if mesh.material.texture.None? {
        var found := HasCorner(mesh.faces);
        if found {
          return Err(MissingTexture);
        }
      } else {
        var faces := ScaleFaceList(mesh.faces, ImageWidth(mesh), ImageHeight(mesh));
        mesh := mesh.(faces := faces);
      }
      scaled := scaled + [mesh];
    }
    assert scaled == seq(|meshes|, i requires 0 <= i < |meshes| => PixelMesh(meshes[i]));
    return Ok(scaled);
  }

  /** The importer and exporter of one geometry file. `objName` is the file's name, written
      on the `o` line; `model` is the model `parse`, `load_material` and `load_texture` fill. */
  class Wavefront {
    const objName: string
    var model: Model

    ghost predicate Valid()
      reads this
    {
      Dicts.Valid(model.materials)
    }

    constructor(objName: string)
      ensures Valid() && this.objName == objName && model == EmptyModel()
    {
      this.objName := objName;
      model := EmptyModel();
    }

    /** `parse()` over the lines of the geometry file; `files` holds the material files and
        images it may open. The outcome carries `model` as the call leaves it. */
    method Parse(files: Files, lines: seq<ObjLine>) returns (o: Outcome<Model>)
      requires Valid()
      modifies this
      ensures Valid() && o == Parsed(old(model), files, lines) && model == o.state
    {
      var interpreted := InterpretLines(model, files, lines);
      InterpretKeepsModelMeshes(Start(model), files, lines);
      model := interpreted.state.model;
      if interpreted.Aborted? {
        return Aborted(model, interpreted.error);
      }
      var scaled := PixelPass(interpreted.state.meshes);
      if scaled.Err? {
        return Aborted(model, scaled.error);
      }
      model := model.(meshes := model.meshes + scaled.value);
      return Done(model);
    }

    /** `load_material()` over the lines of one material file. */
    method LoadMaterial(images: map<string, Image>, lines: seq<MtlLine>) returns (o: Outcome<Model>)
      requires Valid()
      modifies this
      ensures Valid() && o == MaterialLoader.LoadMaterial(old(model), images, lines) && model == o.state
    {
      MaterialLoader.LoadLinesKeepsMeshes(MaterialLoader.MtlState(model, None), images, lines);
      o := MaterialLoader.LoadMaterialLines(model, images, lines);
      model := o.state;
    }

    /** `load_texture()`: opens the image and appends the texture to the model, or fails
        with nothing appended when there is no file at `path`. */
    method LoadTexture(images: map<string, Image>, path: string) returns (r: Result<Texture, Error>)
      modifies this
      ensures path in images ==> r == Ok(MaterialLoader.OpenTexture(images, path)) && model == old(model).(textures := old(model).textures + [r.value])
      ensures path !in images ==> r == Err(FileNotFound(path)) && model == old(model)
    {
      if path !in images {
        return Err(FileNotFound(path));
      }
      var texture := MaterialLoader.OpenTexture(images, path);
      model := model.(textures := model.textures + [texture]);
      return Ok(texture);
    }

    /** `export()` of a model. */
    method Export(m: Model) returns (o: Outcome<Written>)
      requires Dicts.Valid(m.materials)
      ensures o == Exported(objName, m)
    {
      var mtl := ExportMaterialLines(m.materials);
      if mtl.Err? {
        return Aborted(Written(m, m.textures, None, None), mtl.error);
      }
      var obj := ExportFlat(objName, m);
      if obj.Err? {
        return Aborted(Written(m, m.textures, Some(mtl.value), None), obj.error);
      }
      return Done(Written(m, m.textures, Some(mtl.value), Some(obj.value)));
    }
  }
}
