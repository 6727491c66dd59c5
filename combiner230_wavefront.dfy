/** `Wavefront` of the tolerant variant (combiner230/importers/wavefront.py:11-178): `parse`
    runs the shared line loop and scales the texcoords of the textured meshes to pixels,
    skipping the others; `export` saves the textures, writes the material file, then either
    the flat geometry file (`fast_export`) or the deduplicated one. */
module Combiner230Wavefront {
  import opened Wrappers
  import opened Errors
  import Dicts
  import opened Model
  import opened Directives
  import MaterialLoader
  import opened ObjInterpreter
  import opened Exporter
  import opened PixelSpace
  import opened FlatReadback
  import opened DedupExporter

  /** The post-pass over the meshes one call of `parse` started: the textured ones scaled,
      the others skipped. */
  function TolerantPixel(meshes: seq<Mesh>): seq<Mesh> {
    seq(|meshes|, i requires 0 <= i < |meshes| => PixelMesh(meshes[i]))
  }

  /** The post-pass never fails: it keeps every mesh's material and the shape of its faces,
      leaves an untextured mesh as it is, and moves every corner of a textured one to the
      pixel of its image. */
  lemma TolerantPixelCorner(meshes: seq<Mesh>, i: nat, j: nat, k: nat)
    requires i < |meshes| && j < |meshes[i].faces| && k < |meshes[i].faces[j].vertexes|
    ensures var r := TolerantPixel(meshes);
      var v := meshes[i].faces[j].vertexes[k];
      && |r| == |meshes|
      && (meshes[i].material.texture.None? ==> r[i] == meshes[i])
      && r[i].material == meshes[i].material && |r[i].faces| == |meshes[i].faces|
      && |r[i].faces[j].vertexes| == |meshes[i].faces[j].vertexes|
      && r[i].faces[j].vertexes[k].position == v.position
      && r[i].faces[j].vertexes[k].normal == v.normal
      && (meshes[i].material.texture.Some? ==>
            r[i].faces[j].vertexes[k].texcoord == Uv(v.texcoord.u * ImageWidth(meshes[i]) as real, v.texcoord.v * ImageHeight(meshes[i]) as real))
  {
    PixelCorner(meshes[i], j, k);
  }

  /** `parse()`: the line loop over a model, then the post-pass, then `meshes` appended to the
      model's own. Only the line loop can fail; a failure leaves what `load_material` did to
      the model, and no new mesh. */
  function Parsed(model: Model, files: Files, lines: seq<ObjLine>): (o: Outcome<Model>)
    requires Dicts.Valid(model.materials)
    ensures Dicts.Valid(o.state.materials)
    ensures o.Done? <==> Interpret(Start(model), files, lines).Done?
    ensures o.Aborted? ==> o.error == Interpret(Start(model), files, lines).error && o.state.meshes == model.meshes
    ensures o.Done? ==> |o.state.meshes| == |model.meshes| + MeshStarts(lines) && o.state.meshes[..|model.meshes|] == model.meshes
    ensures o.Done? ==> o.state.meshes[|model.meshes|..] == TolerantPixel(Interpret(Start(model), files, lines).state.meshes)
    ensures o.Done? ==> o.state.materials == Interpret(Start(model), files, lines).state.model.materials
  {
    InterpretKeepsModelMeshes(Start(model), files, lines);
    match Interpret(Start(model), files, lines)
    case Aborted(s, e) => Aborted(s.model, e)
    case Done(s) =>
      InterpretMeshCount(Start(model), files, lines);
      Done(s.model.(meshes := s.model.meshes + TolerantPixel(s.meshes)))
  }

  /** The geometry writer `export` dispatches to, with the model it leaves: the flat writer
      leaves the model alone, the deduplicating one leaves its meshes as far as its first
      loop normalised them. */
  function GeometryExport(objName: string, fast: bool, orders: SetOrders, m: Model): (r: (Model, Result<seq<ObjLine>, Error>))
    requires OrderLaw(orders)
    ensures r.0.materials == m.materials && r.0.textures == m.textures && |r.0.meshes| == |m.meshes|
    ensures fast ==> r.0 == m && r.1 == FlatExport(objName, m)
    ensures !fast ==> r.0.meshes == Normalize(m.meshes).state && r.1 == DedupExport(objName, orders, m.meshes)
  {
    if fast then (m, FlatExport(objName, m))
    else (m.(meshes := Normalize(m.meshes).state), DedupExport(objName, orders, m.meshes))
  }

  /** `export()`: the textures are saved first; an AttributeError in `export_material` stops
      before either file is written or any mesh is touched, and a failure of the geometry
      writer comes after the material file. */
  function Exported(objName: string, fast: bool, orders: SetOrders, m: Model): (o: Outcome<Written>)
    requires Dicts.Valid(m.materials) && OrderLaw(orders)
    ensures o.state.images == m.textures
    ensures o.state.model.materials == m.materials && o.state.model.textures == m.textures && |o.state.model.meshes| == |m.meshes|
    ensures fast || !AllTextured(m.materials) ==> o.state.model == m
    ensures !fast && AllTextured(m.materials) ==> o.state.model.meshes == Normalize(m.meshes).state
    ensures o.Done? <==> AllTextured(m.materials) && (if fast then Writable(m.meshes) else forall i :: 0 <= i < |m.meshes| ==> Dividable(m.meshes[i]))
    ensures o.state.mtl.Some? <==> AllTextured(m.materials)
    ensures o.state.obj.Some? <==> o.Done?
    ensures o.Done? ==> o.state.obj == Some(if fast then FlatExport(objName, m).value else DedupExport(objName, orders, m.meshes).value)
    ensures o.Aborted? ==> o.error == MissingTexture || o.error == DivisionByZero
  {
    match ExportMaterial(m.materials)
    case Err(e) => Aborted(Written(m, m.textures, None, None), e)
    case Ok(mtl) =>
      var (after, obj) := GeometryExport(objName, fast, orders, m);
      match obj
      case Err(e) =>
        Aborted(Written(after, m.textures, Some(mtl), None), e)
      case Ok(lines) => Done(Written(after, m.textures, Some(mtl), Some(lines)))
  }

  /** Importing and then exporting without `fast_export` gives back, for a corner of a
      textured mesh the post-pass scaled, the `u` and `v` the geometry file gave it: the first
      loop leaves them in the model once it has passed the mesh, and when it completes, the
      written file's reference for the corner names a `vt` line holding them. */
  lemma DedupUndoesPixel(objName: string, orders: SetOrders, meshes: seq<Mesh>, i: nat, j: nat, k: nat)
    requires OrderLaw(orders)
    requires i < |meshes| && j < |meshes[i].faces| && k < |meshes[i].faces[j].vertexes|
    requires meshes[i].material.texture.Some? && ImageWidth(meshes[i]) > 0 && ImageHeight(meshes[i]) > 0
    ensures var p := TolerantPixel(meshes);
      var n := Normalize(p);
      var t := meshes[i].faces[j].vertexes[k].texcoord;
      && (i < FirstUndividable(p) ==> n.state[i].faces[j].vertexes[k].texcoord == Uv(t.u, t.v))
      && (n.Done? ==>
            var cs := MeshCorners(n.state);
            var v := n.state[i].faces[j].vertexes[k];
            && DedupExport(objName, orders, p) == Ok(DedupLines(objName, orders, n.state))
            && Resolvable(TablesOf(orders, cs), v)
            && var r := RefOf(TablesOf(orders, cs), v);
               && r.texcoord <= |VtLines(TexcoordListing(orders, cs))|
               && VtLines(TexcoordListing(orders, cs))[r.texcoord - 1] == Vt([t.u, t.v]))
  {
    var p := TolerantPixel(meshes);
    var n := Normalize(p);
    if i < FirstUndividable(p) {
      assert n.state[i] == NormalizeMesh(PixelMesh(meshes[i]));
      NormalizeUndoesPixel(meshes[i], j, k);
    }
    if n.Done? {
      TolerantPixelCorner(meshes, i, j, k);
      NormalizedCorner(p[i], j, k);
      RefsResolve(orders, n.state, i, j, k);
    }
  }

  /** The same with `fast_export`: the flat writer's `vt` line reads back as the corner's `u`
      and `v`. */
  lemma FlatExportUndoesPixel(meshes: seq<Mesh>, i: nat, j: nat, k: nat)
    requires i < |meshes| && j < |meshes[i].faces| && k < |meshes[i].faces[j].vertexes|
    requires meshes[i].material.texture.Some? && ImageWidth(meshes[i]) > 0 && ImageHeight(meshes[i]) > 0
    ensures var p := TolerantPixel(meshes)[i];
      var t := meshes[i].faces[j].vertexes[k].texcoord;
      ScaledOne(p.faces[j].vertexes[k], ImageWidth(p), ImageHeight(p)) == Uvw(t.u, t.v, 1.0)
  {
    FlatUndoesPixel(meshes[i], j, k);
  }

  /** The post-pass loop, skipping the meshes without a texture. */
  method PixelPass(meshes: seq<Mesh>) returns (r: seq<Mesh>)
    ensures r == TolerantPixel(meshes)
  {
    r := meshes;
    for i := 0 to |meshes|
      invariant |r| == |meshes|
      invariant forall i' :: 0 <= i' < i ==> r[i'] == PixelMesh(meshes[i'])
      invariant r[i..] == meshes[i..]
    {
      var mesh := meshes[i];
      if mesh.material.texture.None? {
        continue;
      }
      var faces := ScaleFaceList(mesh.faces, ImageWidth(mesh), ImageHeight(mesh));
      r := r[i := mesh.(faces := faces)];
    }
  }

  /** The importer and exporter of one geometry file. `objName` is the file's name, written
      on the `o` line, and `fast` is `fast_export`; `model` is the model `parse`,
      `load_material` and `load_texture` fill. */
  class Wavefront {
    const objName: string
    const fast: bool
    var model: Model

    ghost predicate Valid()
      reads this
    {
      Dicts.Valid(model.materials)
    }

    constructor(objName: string, fast: bool)
      ensures Valid() && this.objName == objName && this.fast == fast && model == EmptyModel()
    {
      this.objName := objName;
      this.fast := fast;
      model := EmptyModel();
    }

    /** `parse()` over the lines of the geometry file; `files` holds the material files and
        images it may open. The outcome carries `model` as the call leaves it. */
    method Parse(files: Files, lines: seq<ObjLine>) returns (o: Outcome<Model>)
      requires Valid()
      modifies this
      ensures Valid() && o == Parsed(old(model), files, lines) && model == o.state
    {
      var interpreted := InterpretLines(model, files, lines);
      InterpretKeepsModelMeshes(Start(model), files, lines);
      model := interpreted.state.model;
      if interpreted.Aborted? {
        return Aborted(model, interpreted.error);
      }
      var scaled := PixelPass(interpreted.state.meshes);
      model := model.(meshes := model.meshes + scaled);
      return Done(model);
    }

    /** `load_material()` over the lines of one material file. */
    method LoadMaterial(images: map<string, Image>, lines: seq<MtlLine>) returns (o: Outcome<Model>)
      requires Valid()
      modifies this
      ensures Valid() && o == MaterialLoader.LoadMaterial(old(model), images, lines) && model == o.state
    {
      MaterialLoader.LoadLinesKeepsMeshes(MaterialLoader.MtlState(model, None), images, lines);
      o := MaterialLoader.LoadMaterialLines(model, images, lines);
      model := o.state;
    }

    /** `load_texture()`: opens the image and appends the texture to the model, or fails
        with nothing appended when there is no file at `path`. */
    method LoadTexture(images: map<string, Image>, path: string) returns (r: Result<Texture, Error>)
      modifies this
      ensures path in images ==> r == Ok(MaterialLoader.OpenTexture(images, path)) && model == old(model).(textures := old(model).textures + [r.value])
      ensures path !in images ==> r == Err(FileNotFound(path)) && model == old(model)
    {
      if path !in images {
        return Err(FileNotFound(path));
      }
      var texture := MaterialLoader.OpenTexture(images, path);
      model := model.(textures := model.textures + [texture]);
      return Ok(texture);
    }

    /** `export()` of a model, with `orders` standing for the iteration order of `set()`. */
    method Export(orders: SetOrders, m: Model) returns (o: Outcome<Written>)
      requires Dicts.Valid(m.materials) && OrderLaw(orders)
      ensures o == Exported(objName, fast, orders, m)
    {
      var mtl := ExportMaterialLines(m.materials);
      if mtl.Err? {
        return Aborted(Written(m, m.textures, None, None), mtl.error);
      }
      var after := m;
      var obj;
      if fast {
        obj := ExportFlat(objName, m);
      } else {
        var normalized;
        normalized, obj := ExportDedup(objName, orders, m.meshes);
        after := m.(meshes := normalized.state);
      }
      if obj.Err? {
        return Aborted(Written(after, m.textures, Some(mtl.value), None), obj.error);
      }
      return Done(Written(after, m.textures, Some(mtl.value), Some(obj.value)));
    }
  }
}
