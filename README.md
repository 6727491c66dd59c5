# minify230 / combiner230 in Dafny

minify230 reads a Wavefront mesh: an OBJ geometry file plus its MTL material file. It then packs the used part of every texture into one atlas image and writes the mesh back out. The repository has two near-identical variants:

- **minify230**, the strict one. The minifier fails on any mesh without a texture; the pixel-space post-pass and the flat writer fail on one that has a corner. The exporter is a flat writer.
- **combiner230**, the tolerant one. Its post-pass and minifier skip meshes without a texture. Its `export` either writes flat (`fast_export`) or deduplicates the `v`/`vt`/`vn` values through index tables.

This project models, in Dafny, the core that both variants share:

- the `Wavefront` importer: `parse`, `load_material`, `load_texture` and the pixel-space post-pass;
- the `Wavefront` exporter: `export`, `export_material`, the flat writer and the deduplicating writer;
- `Box2` and `Minifier.minify`;
- the records and tuple constructors of `model.py`.

It proves what these promise about indices, bounds, placement and round trips.

## Structure

- `wrappers.dfy`, `errors.dfy`, `dicts.dfy`: support modules.
  - `Option` and `Result` types.
  - The Python exceptions the code raises, as an `Error` kind.
  - `Outcome`, which is `Done(state)` or `Aborted(state, error)`. It keeps the object as a failing step left it: `load_material` and `minify` change `self.model` before they can fail.
  - `Dict`, an insertion-ordered dictionary, as Python's `dict` is.
- `model.dfy`: the records and tuple constructors of `minify230/model.py`.
  - Texcoords are `Uvw(u, v, w)` triples or `Uv(u, v)` pairs, because the post-pass, the minifier and the dedup writer store 2-tuples.
  - An `Image` is its size plus the crops pasted onto it.
- `directives.dfy`: one record per OBJ or MTL line, already split and converted to numbers.
- `obj_interpreter.dfy`: the line loop of `parse`, which is the same in both variants.
  - A state records the positions, texcoords, normals and meshes of one call.
  - Functions specify it; methods with loops implement it.
- `material_loader.dfy`: `load_material` and `load_texture`, the same in both variants. They use a cursor that names the current material.
- `pixel_space.dfy`: the per-mesh texcoord scaling of the post-pass, with its nested loops.
- `exporter.dfy`: `export_material`, the flat geometry writer, and the material-file round trip.
- `flat_readback.dfy`: what the importer would read back from the flat writer's lines.
- `dedup_exporter.dfy`: `export_model` of combiner230.
  - Its first loop normalises texcoords in place and collects the corners.
  - The `set()`s are turned into index tables.
  - Its second loop writes the `f` lines.
- `box.dfy`, `atlas.dfy`: `Box2`, and the pieces both `minify` variants share:
  - the bounds fold;
  - the packer sizes;
  - the offsets table;
  - the crop-and-paste loop;
  - the remap into an atlas slot.
- `minify230_minifier.dfy`, `combiner230_minifier.dfy`: each variant's `minify`, as a specification function plus a `Minifier` class whose `Minify` method updates `model`.
- `minify230_wavefront.dfy`, `combiner230_wavefront.dfy`: each variant's `Wavefront` class. It holds `model` and is proved against the functions `Parsed` and `Exported`.

## Behaviour worth noting

The model does what the code does in these cases:

- **Where parsed meshes go.** `parse` collects the meshes in a local list and appends them to `model.meshes` only after the loop and the post-pass. A failing parse therefore adds no mesh, even though `usemtl` has already started one in the local list.
- **Failed material loads.** A failing `load_material` leaves the materials and textures it already registered. Nothing is rolled back.
- **Zero-size boxes.** A box of zero width or height is handed to the packer as `ceil(0) = 0`. It is not rounded up to 1×1.
- **Untextured meshes and materials.** Where an `AttributeError` is raised depends on the variant and on what the mesh holds:
  - The strict post-pass and both flat writers fail only on an untextured mesh with at least one corner, because they reach the texture only inside the corner loop (`Scalable`, `MeshError`).
  - `export_material` fails on any untextured material, in both variants.
  - The strict `minify` fails on any untextured mesh, because it reads the texture name before the face loop.
  - Only combiner230's post-pass and `minify` skip untextured meshes.
- **Texture names.** Two textures with the same name share one bounding box, the union of their corners, as the dictionary keyed by name gives.

## Model

| member | source | states |
|---|---|---|
| Model.PositionArgs | minify230/model.py:11-12 | `Position(*values)` keeps the given values in order; the left-out components take the defaults `0, 0, 0, 1` |
| Model.TexcoordArgs | minify230/model.py:7-8 | `Texcoord(*values)` is a triple that keeps the given values; `v` defaults to 0 and `w` to 1 |
| Model.ColorArgs | minify230/model.py:15-16 | `Color(*values)` keeps the given values; the rest default to 1 |
| Model.Defaults | minify230/model.py:7-58 | `Position()` is `(0,0,0,1)` and `Texcoord()` is `(0,0,1)`. `Color()` is `(1,1,1,1)`. A new `Material` has default colours and no texture. A default `Vertex` has `Position()` as its position and its normal. A new `Mesh` has no faces, and `Model()` is empty |
| Dicts.Put | minify230/model.py:57 | `d[k] = v`: an existing key keeps its place in the order, a new key goes last, and the dictionary stays well formed |
| Dicts.PutPut | minify230/importers/wavefront.py:127-129 | storing twice under one key is the same as storing the second value, so the last `newmtl` of a name wins |
| ObjInterpreter.InterpretLines | combiner230/importers/wavefront.py:32-67 | the loop of `parse` over the lines computes `Interpret` from empty streams |
| ObjInterpreter.IgnoredLinesChangeNothing | combiner230/importers/wavefront.py:33-42 | comment lines, `o` lines, unknown directives, and `f` lines before any `usemtl` leave the whole state unchanged |
| ObjInterpreter.AttributeLinesAppendOne | combiner230/importers/wavefront.py:43-48 | `v`, `vt` and `vn` each append exactly one constructed value to their own stream and to nothing else. A `v` with fewer than three values, or a `vt` with none, is ignored. Too many values is a `TypeError` |
| ObjInterpreter.UsemtlStartsMesh | combiner230/importers/wavefront.py:49-51 | `usemtl name` fails with a `KeyError` exactly when `name` is not declared. Otherwise it appends one new, empty mesh bound to that material |
| ObjInterpreter.SlashFaceResolution | combiner230/importers/wavefront.py:56-63 | a slash face resolves exactly when every reference is within the streams. Vertex `k` then takes `positions[p-1]` and `texcoords[t-1]`, plus `normals[n-1]` when `n` is given or else the default normal. Otherwise it is an `IndexError` |
| ObjInterpreter.BareFaceResolution | minify230/importers/wavefront.py:68-71 | a face without slashes resolves exactly when every index is within the positions; each vertex takes that position with the default texcoord and normal |
| ObjInterpreter.ResolveSlashFace | combiner230/importers/wavefront.py:57-62 | the inner loop over slash references computes the resolution above |
| ObjInterpreter.ResolveBareIndices | combiner230/importers/wavefront.py:65-66 | the inner loop over bare indices computes the resolution above |
| ObjInterpreter.FaceGoesToCurrentMesh | minify230/importers/wavefront.py:56-71 | after a `usemtl`, a face line completes exactly when its references resolve against the streams read so far. If they do not, it is an `IndexError` and nothing changes. If they do, the resolved face, with one vertex per reference, is appended to the current mesh and to no other |
| ObjInterpreter.FacesGoToCurrentMesh | combiner230/importers/wavefront.py:49-67 | the faces that the last `usemtl`'s mesh gains up to the next `usemtl` are exactly `FacesOf` the lines: each face line resolved against the `v`, `vt` and `vn` values read before it, one face per face line, in order. The material and every other mesh are unchanged |
| ObjInterpreter.PositionsAreTheVLines | combiner230/importers/wavefront.py:43-44 | a completed parse holds exactly the positions of the applicable `v` lines, in file order |
| ObjInterpreter.TexcoordsAreTheVtLines | combiner230/importers/wavefront.py:45-46 | likewise, the texcoords are exactly those of the `vt` lines |
| ObjInterpreter.NormalsAreTheVnLines | combiner230/importers/wavefront.py:47-48 | likewise, the normals are exactly those of the `vn` lines |
| ObjInterpreter.InterpretMeshCount | minify230/importers/wavefront.py:53-55 | a completed loop has started one mesh per applicable `usemtl` line and no other |
| ObjInterpreter.InterpretKeepsModelMeshes | minify230/importers/wavefront.py:36-71 | whether it completes or stops, the loop leaves `model.meshes` alone, keeps the material dictionary well formed, and only adds meshes |
| MaterialLoader.LoadMaterialLines | combiner230/importers/wavefront.py:158-173 | the loop of `load_material` computes `LoadMaterial`, which starts without a current material and stops at the first failure |
| MaterialLoader.NewmtlRegisters | combiner230/importers/wavefront.py:165-167 | `newmtl name` registers a fresh default material under its name and makes it current. A name declared before keeps its place. Textures and meshes are unchanged |
| MaterialLoader.ColorSetsCurrentOnly | combiner230/importers/wavefront.py:168-171 | `Kd`/`Ka` change one colour of the current material and nothing else. Before any `newmtl` they fail with `UnboundLocalError` and change nothing |
| MaterialLoader.MapKdAppendsOneTexture | combiner230/importers/wavefront.py:172-178 | `map_Kd` appends exactly one texture and gives it to the current material only. Before any `newmtl` the texture is still appended, then the step fails. A missing image changes nothing |
| MaterialLoader.LoadLinesKeepsMeshes | minify230/importers/wavefront.py:120-135 | loading materials never touches the meshes, keeps the dictionary well formed, keeps every registered name, and only appends textures |
| MaterialLoader.BaseName | minify230/importers/wavefront.py:138 | `Path.name` is the suffix of the path after its last `/` and holds no `/` |
| PixelSpace.PixelCorner | combiner230/importers/wavefront.py:68-75 | the post-pass keeps each mesh's material, faces, corners, positions and normals. It scales each corner's texcoord once, to `(u·width, v·height)`, when the mesh has a texture |
| PixelSpace.PixelRoundTrip | combiner230/importers/wavefront.py:74-75 | dividing by the image size undoes the post-pass's scaling, for an image of nonzero size |
| PixelSpace.ScaleFaceList | minify230/importers/wavefront.py:74-77 | the nested loops that reassign every texcoord of a face list compute the scaled faces |
| PixelSpace.HasCorner | minify230/importers/wavefront.py:74-76 | the scan over faces finds a corner exactly when the faces have one |
| Minify230Wavefront.StrictPixel | minify230/importers/wavefront.py:72-77 | the strict post-pass succeeds exactly when every mesh has a texture or no corner; otherwise it is an `AttributeError` |
| Minify230Wavefront.StrictPixelCorner | minify230/importers/wavefront.py:72-77 | after a successful strict post-pass, every mesh with a corner has a texture; each corner keeps its position and normal, and its texcoord becomes `(u·width, v·height)` |
| Minify230Wavefront.PixelPass | minify230/importers/wavefront.py:72-77 | the post-pass loop computes `StrictPixel` |
| Minify230Wavefront.Parsed | minify230/importers/wavefront.py:28-79 | `parse` completes exactly when the loop and the post-pass do; a post-pass failure is an `AttributeError`. A failure adds no mesh. Success appends, after the existing meshes, one mesh per `usemtl`: the loop's meshes as the post-pass scaled them. The materials are those the loop left, and the material dictionary stays well formed |
| Minify230Wavefront.Wavefront.constructor | minify230/importers/wavefront.py:19-23 | a new importer holds the empty `Model()` and the geometry file's name |
| Minify230Wavefront.Wavefront.Parse | minify230/importers/wavefront.py:28-79 | `parse()` leaves `model` as `Parsed` of the old model, also after a failure |
| Minify230Wavefront.Wavefront.LoadMaterial | minify230/importers/wavefront.py:120-135 | `load_material()` leaves `model` as `LoadMaterial` of the old model |
| Minify230Wavefront.Wavefront.LoadTexture | minify230/importers/wavefront.py:137-140 | `load_texture()` appends exactly the texture named by the path's last part and returns it. A missing file appends nothing |
| Minify230Wavefront.Exported | minify230/importers/wavefront.py:81-86 | `export` saves every texture. It completes exactly when every material has a texture and every mesh with a corner has a texture of nonzero size. The material file is written exactly when every material has a texture, and the geometry file exactly on success. The model is untouched |
| Minify230Wavefront.Wavefront.Export | minify230/importers/wavefront.py:81-118 | `export()` computes `Exported` |
| Minify230Wavefront.ExportReadsBack | minify230/importers/wavefront.py:88-118 | what `export` writes reads back: `load_material` gives back the material table and its textures. The geometry file gives one position, texcoord and normal per corner, in order, named by `f` references counting from 1 |
| Minify230Wavefront.ExportReloadsSaved | minify230/importers/wavefront.py:81-95 | the material file `export` writes reads back from the image files the same call saves (`SavedImages` of the textures) as the material table and its textures. This needs every material registered under its own name with one of the model's textures, plain texture file names, and one image per texture name |
| Exporter.ExportMaterial | combiner230/importers/wavefront.py:90-97 | `export_material` succeeds exactly when every material has a texture; otherwise it is an `AttributeError` and nothing is written |
| Exporter.MaterialLinesUpTo | minify230/importers/wavefront.py:90-94 | the `i`-th material in key order gets exactly the four lines `newmtl`, `Kd`, `Ka`, `map_Kd` |
| Exporter.ExportMaterialLines | minify230/importers/wavefront.py:89-94 | the loop of `export_material` computes `ExportMaterial` |
| Exporter.MaterialRoundTrip | combiner230/importers/wavefront.py:90-97 | reading back what `export_material` wrote gives the same material dictionary, in the same order, and appends each material's texture once |
| Exporter.SavedImage | minify230/importers/wavefront.py:83-84 | the texture loop of `export` leaves a texture's image saved under its name, provided the textures of that name hold the same image; a later texture of the same name overwrites an earlier one |
| Exporter.ExportError | minify230/importers/wavefront.py:101-112 | the flat writer's error is that of the first mesh that has one; there is none exactly when every mesh can be written |
| Exporter.FlatExport | combiner230/importers/wavefront.py:100-114 | the flat writer succeeds exactly when no mesh has a corner without a texture of nonzero size; its error is that of such a mesh |
| Exporter.FirstError | minify230/importers/wavefront.py:101-117 | the first mesh that cannot be written decides the writer's error |
| Exporter.NoError | combiner230/importers/wavefront.py:100-114 | with no error, the output is the `mtllib` and `o` lines followed by every mesh's `usemtl`, corner and `f` lines, with corners numbered from 1 |
| Exporter.EmitFace | combiner230/importers/wavefront.py:105-113 | one face writes three lines per corner and one `f` line. The counter advances by the number of corners |
| Exporter.EmitMesh | minify230/importers/wavefront.py:101-117 | one mesh writes its `usemtl` line and its faces, or fails with that mesh's error. The counter advances by the mesh's corners |
| Exporter.ExportFlat | minify230/importers/wavefront.py:97-118 | the writer's loop, with its single `index` counter, computes `FlatExport` |
| FlatReadback.EntriesOfCorners | combiner230/importers/wavefront.py:106-109 | the `k`-th value read back belongs to the `k`-th corner. The texcoord is `(u/width, v/height, 1)`, and the normal is `(x, y, z, 1)` |
| FlatReadback.FlatReadsBack | combiner230/importers/wavefront.py:100-114 | exactly one `v`, `vt` and `vn` is written per corner: the position, texcoord and normal streams read back are one per corner, in order, and the `j`-th corner is referenced as `j/j/j` |
| FlatReadback.FlatUndoesPixel | minify230/importers/wavefront.py:112 | a corner that the import scaled to pixels is written back with the `u` and `v` it was read with |
| DedupExporter.IndexMapBijection | combiner230/importers/wavefront.py:131-133 | each index table maps the listed distinct values one-to-one onto `1..n`, with the value listed at `i` getting `i + 1` |
| DedupExporter.Normalize | combiner230/importers/wavefront.py:122-129 | the first loop completes exactly when every textured mesh with a corner has an image of nonzero size; otherwise it is a `ZeroDivisionError`. The meshes before the first one that fails are normalised and the rest left as they were, so on success every mesh is normalised |
| DedupExporter.FirstUndividable | combiner230/importers/wavefront.py:122-127 | the meshes before the first failing one all divide, and that mesh does not |
| DedupExporter.NormalizedCorner | combiner230/importers/wavefront.py:126-127 | normalising keeps positions, normals and shape. A textured mesh's texcoords are left divided by its image's width and height; an untextured mesh is unchanged |
| DedupExporter.NormalizeUndoesPixel | combiner230/importers/wavefront.py:127 | normalising a mesh that the import scaled gives back the `u` and `v` it was read with |
| DedupExporter.NormalizeOne | combiner230/importers/wavefront.py:123-129 | the first loop's body for one mesh fails exactly when the mesh cannot be divided, and otherwise normalises it |
| DedupExporter.NormalizeAll | combiner230/importers/wavefront.py:122-129 | the first loop computes `Normalize` and, on success, collects every corner of the normalised meshes in order |
| DedupExporter.CornerIndexed | combiner230/importers/wavefront.py:131-137 | every corner's position, texcoord and normal is listed once. Its index names the `v`, `vt` or `vn` line holding that value |
| DedupExporter.AllResolvable | combiner230/importers/wavefront.py:141-148 | the three table lookups of every corner of every mesh succeed |
| DedupExporter.RefsResolve | combiner230/importers/wavefront.py:131-149 | every reference of an `f` line maps back, through the written `v`, `vt` and `vn` lines, to its own corner's position, texcoord and normal |
| DedupExporter.DedupReadsBack | combiner230/importers/wavefront.py:118-153 | reading the deduplicated file back gives exactly the three hash-ordered listings as the position, texcoord and normal streams, one entry per distinct value. The dropped position `w`, texcoord third component and normal `w` come back as their defaults |
| DedupExporter.UsemtlReadBack | combiner230/importers/wavefront.py:140-149 | `usemtl` is written only when a mesh's material differs from the previous mesh's. Nothing is lost: a reader of the `f` lines assigns every face its own mesh's material, in order |
| DedupExporter.DedupExport | combiner230/importers/wavefront.py:117-155 | `export_model` writes exactly when the first loop completes; otherwise it is a `ZeroDivisionError` and nothing is written |
| DedupExporter.WriteFaces | combiner230/importers/wavefront.py:140-149 | the second loop writes `FLines`: a `usemtl` line on every change of material, then one `f` line per face |
| DedupExporter.ExportDedup | combiner230/importers/wavefront.py:117-155 | the writer leaves the meshes as `Normalize` does and yields `DedupExport`'s lines |
| Combiner230Wavefront.TolerantPixelCorner | combiner230/importers/wavefront.py:68-76 | the tolerant post-pass never fails. It leaves an untextured mesh as it is and scales every corner of a textured mesh to `(u·width, v·height)`, keeping positions and normals |
| Combiner230Wavefront.PixelPass | combiner230/importers/wavefront.py:69-75 | the post-pass loop, skipping untextured meshes, computes `TolerantPixel` |
| Combiner230Wavefront.Parsed | combiner230/importers/wavefront.py:24-77 | `parse` completes exactly when the line loop does, and fails with the loop's error while adding no mesh. Success appends, after the existing meshes, one mesh per `usemtl`: the loop's meshes as the tolerant post-pass left them. The materials are those the loop left |
| Combiner230Wavefront.GeometryExport | combiner230/importers/wavefront.py:85-88 | the flat writer leaves the model alone and writes `FlatExport`. The dedup writer leaves the meshes as `Normalize` leaves them, keeps the materials and textures, and writes `DedupExport` |
| Combiner230Wavefront.Exported | combiner230/importers/wavefront.py:80-88 | `export` saves every texture and failing `export_material` writes nothing. It completes exactly when every material has a texture and the chosen writer succeeds. The geometry file is written exactly on success, and it holds the chosen writer's lines. Only the dedup path changes the meshes |
| Combiner230Wavefront.DedupUndoesPixel | combiner230/importers/wavefront.py:122-153 | import, then export without `fast_export`. A corner of a textured mesh that the first loop has passed is left in the model with the `u` and `v` the geometry file gave it. When the loop completes, the export is the deduplicated file of the normalised meshes, and the corner's reference names a `vt` line holding that `u` and `v` |
| Combiner230Wavefront.FlatExportUndoesPixel | combiner230/importers/wavefront.py:108 | the same with `fast_export`, through the flat writer's `vt` line |
| Combiner230Wavefront.Wavefront.constructor | combiner230/importers/wavefront.py:13-18 | a new importer holds the empty `Model()`, the file name and `fast_export` |
| Combiner230Wavefront.Wavefront.Parse | combiner230/importers/wavefront.py:24-77 | `parse()` leaves `model` as `Parsed` of the old model |
| Combiner230Wavefront.Wavefront.LoadMaterial | combiner230/importers/wavefront.py:157-173 | `load_material()` leaves `model` as `LoadMaterial` of the old model |
| Combiner230Wavefront.Wavefront.LoadTexture | combiner230/importers/wavefront.py:175-178 | `load_texture()` appends exactly one texture and returns it, or appends nothing for a missing file |
| Combiner230Wavefront.Wavefront.Export | combiner230/importers/wavefront.py:80-155 | `export()` computes `Exported` |
| Box.PointBox | minify230/minifier.py:9-11 | `Box2(p, p)` contains `p`, has width and height 0, and is the least box containing `p` |
| Box.Extend | minify230/minifier.py:51-55 | the min/max update gives the least box enclosing the old box and containing the point; each component comes from one of the two |
| Box.ExtendKeepsBoxIffContained | combiner230/minifier.py:24-25 | the update leaves a box unchanged exactly when `__contains__` holds for the point |
| Box.OffsetsWithinSize | combiner230/minifier.py:16-25 | a point of a box lies within `width` and `height` of its minimum corner |
| Box.Ceil | minify230/minifier.py:56 | `math.ceil` gives the least integer not below its argument |
| Atlas.Include | combiner230/minifier.py:51-55 | one more texcoord: its texture's box contains it and encloses the old box, and every other box is unchanged |
| Atlas.FoldNames | minify230/minifier.py:38-55 | the bounds fold boxes exactly the texture names of the visited corners |
| Atlas.FoldBounds | minify230/minifier.py:37-55 | after the bounds fold, every visited texcoord lies in its texture's box (`min ≤ texcoord ≤ max`), and every box component is some visited texcoord's component |
| Atlas.FoldOrderIndependent | minify230/minifier.py:43-55 | visiting the same texcoords in another order, or with repetition, gives the same boxes |
| Atlas.SeedIsFirstStep | combiner230/minifier.py:46-48 | seeding a new texture's box from its first corner gives the same box as the fold alone |
| Atlas.TexturedCornerSampled | combiner230/minifier.py:42-55 | every corner of every textured mesh is visited, tagged with its texture's name |
| Atlas.Sizes | minify230/minifier.py:56 | the packer gets `(ceil(width), ceil(height))` for every box, in key order; each is the least integer size the box fits in |
| Atlas.OffsetsLookup | minify230/minifier.py:61-63 | `texture_offsets` gives the `i`-th key the `i`-th placement, and keeps the key order |
| Atlas.BuildOffsets | minify230/minifier.py:61-63 | the `enumerate(positions)` loop computes that table |
| Atlas.PasteAll | minify230/minifier.py:64-69 | the texture loop succeeds exactly when every texture of the model has a box; otherwise it is a `KeyError`. The canvas keeps its size |
| Atlas.PastedCrops | combiner230/minifier.py:66-71 | the canvas receives one crop per texture, in order, cut to the texture's box and pasted at its placement |
| Atlas.PasteTextures | combiner230/minifier.py:66-71 | the texture loop computes `PasteAll` |
| Atlas.RemapTexcoord | minify230/minifier.py:81-82 | `u' = u - min.u + off.x` and `v' = v - min.v + H - off.y - height`. A texcoord inside its box lands in its slot `[off.x, off.x+width] × [H-off.y-height, H-off.y]` |
| Atlas.RemapIsTranslation | combiner230/minifier.py:82-83 | the remap is a translation: it keeps the distance between any two texcoords of a texture |
| Atlas.RemapCorners | minify230/minifier.py:71-82 | the box's minimum corner lands on the slot's bottom-left, and its maximum corner lands on the top-right |
| Atlas.RemappedFacesInSlot | combiner230/minifier.py:80-83 | every corner of a mesh whose box covers it lands in its texture's slot |
| Atlas.InSlotOnCanvas | minify230/minifier.py:57-59 | a texcoord in a slot that fits on the canvas lies on the canvas |
| Atlas.RemapFaceList | combiner230/minifier.py:80-83 | the nested remap loops compute the remapped faces |
| Atlas.GrowByFaces | minify230/minifier.py:40-55 | the nested bounds loops over one mesh compute the fold over its corners |
| Atlas.CombinedMaterial | minify230/minifier.py:59-60 | `Material('combined', Color(), Color(), combined_texture)`, whose texture is `combined.png` |
| Atlas.BoundsNames | combiner230/minifier.py:41-55 | a texture has a box exactly when one of its corners was visited; there are no boxes exactly when there are no corners |
| Minify230Minifier.BoundsFrom | minify230/minifier.py:37-55 | the strict bounds loop fails with an `AttributeError` exactly when some mesh has no texture. Otherwise it is the fold over every corner |
| Minify230Minifier.CollectBounds | minify230/minifier.py:37-55 | the bounds loop computes `BoundsFrom` |
| Minify230Minifier.MaxOf | minify230/minifier.py:57-58 | `max()` of a non-empty run is one of its elements and at least every element |
| Minify230Minifier.CanvasHolds | minify230/minifier.py:57-58 | every placed box ends left of the canvas's right edge and above its bottom edge |
| Minify230Minifier.CanvasTight | minify230/minifier.py:57-58 | some placed box reaches the right edge and some reaches the bottom edge |
| Minify230Minifier.PlacementsFit | minify230/minifier.py:56-63 | every box's slot, placed by the `i`-th placement, fits on the canvas |
| Minify230Minifier.RemapMeshes | minify230/minifier.py:71-82 | the remap loop completes exactly when every mesh's texture has a box; otherwise it is a `KeyError`. The meshes before the first unboxed one are remapped and the rest are untouched |
| Minify230Minifier.RemapEach | minify230/minifier.py:71-82 | the remap loop, mesh after mesh, computes `RemapMeshes` |
| Minify230Minifier.WithMaterial | minify230/minifier.py:83-84 | every mesh takes the combined material and keeps its faces |
| Minify230Minifier.SetMaterial | minify230/minifier.py:83-84 | the material loop computes `WithMaterial` |
| Minify230Minifier.Install | minify230/minifier.py:70-85 | the tail of `minify` installs `textures == [combined]` and completes exactly when every mesh's texture has a box. A failure leaves the materials untouched, the meshes before the first unboxed one remapped and the rest untouched. Success leaves every mesh remapped with the combined material, and `materials == {'combined': combined}` |
| Minify230Minifier.InstallDone | minify230/minifier.py:70-85 | a finished tail leaves `textures == [combined]` and `materials == {'combined': combined}`. Every mesh is its remapped self with the combined material |
| Minify230Minifier.Assemble | minify230/minifier.py:59-85 | after layout, `minify` completes exactly when every texture of the model and every mesh's texture has a box. A texture without one stops it before any change |
| Minify230Minifier.MinifiedSucceeds | minify230/minifier.py:36-86 | `minify` completes exactly when every mesh has a texture, there is at least one corner, and every texture of the model and every mesh's texture has a visited corner |
| Minify230Minifier.MinifiedEarlyFailures | minify230/minifier.py:39-58 | a mesh without a texture is an `AttributeError`, and no corner at all is a `ValueError` of `max()`. Both leave the model as it was |
| Minify230Minifier.MinifiedDone | minify230/minifier.py:36-86 | after a finished `minify`: `textures == [combined]`, and the atlas holds one crop per texture on the canvas sized by the layout. `materials == {'combined': combined}`, and every mesh is remapped with the combined material |
| Minify230Minifier.MinifiedCornerInSlot | minify230/minifier.py:71-82 | after a finished `minify`, every corner keeps its position and normal; its texcoord lies in its texture's slot and on the canvas |
| Minify230Minifier.Minifier.Minify | minify230/minifier.py:36-86 | `minify()` leaves `model` as `Minified` of the old model, also after a failure part-way through |
| Minify230Minifier.Minifier.InstallAtlas | minify230/minifier.py:70-85 | the tail of `minify()` leaves `model` as `Install` of the old model |
| Combiner230Minifier.Seed | combiner230/minifier.py:46-48 | seeding a box from the first corner adds nothing that the fold over the mesh's corners would not |
| Combiner230Minifier.BoundsFrom | combiner230/minifier.py:41-55 | the tolerant bounds loop skips untextured meshes and fails only with an `IndexError`. On success it is the fold over every textured corner, boxing every textured mesh's texture |
| Combiner230Minifier.BoundsFailIff | combiner230/minifier.py:45-48 | the bounds loop fails exactly when some mesh is the first to name a texture and has no `faces[0].vertexes[0]` |
| Combiner230Minifier.CollectBounds | combiner230/minifier.py:41-55 | the bounds loop computes `BoundsFrom` |
| Combiner230Minifier.Reach | combiner230/minifier.py:58-62 | the running `max(acc, x)` is at least `acc` and every element, and is one of them |
| Combiner230Minifier.Extent | combiner230/minifier.py:58-62 | the extent loop computes `max_right` and `max_bottom` from 0 over `pos + size` |
| Combiner230Minifier.LayoutFits | combiner230/minifier.py:56-65 | every box's slot fits on the `max_right` by `max_bottom` canvas |
| Combiner230Minifier.RemapTextured | combiner230/minifier.py:72-84 | the remap loop keeps the number of meshes |
| Combiner230Minifier.RemapEach | combiner230/minifier.py:72-84 | the remap loop computes `RemapTextured` |
| Combiner230Minifier.Assemble | combiner230/minifier.py:63-86 | after layout, `minify` completes exactly when every texture of the model has a box. Otherwise it is a `KeyError` before any change; on success the atlas is `max_right` by `max_bottom` |
| Combiner230Minifier.Minified | combiner230/minifier.py:40-87 | every failure of the tolerant `minify` leaves the model as it was, and is an `IndexError` or a `KeyError` |
| Combiner230Minifier.MinifiedOutcome | combiner230/minifier.py:40-87 | `minify` fails with an `IndexError` exactly when a texture is first met on a mesh without a corner. Otherwise it fails with a `KeyError` when some texture of the model has no corner, and otherwise it finishes |
| Combiner230Minifier.AssembleDone | combiner230/minifier.py:63-86 | a finished tail leaves the atlas texture and material, untextured meshes untouched, and every textured mesh remapped with the combined material |
| Combiner230Minifier.MinifiedDone | combiner230/minifier.py:40-87 | after a finished `minify`: `textures == [combined]` on a `max_right` by `max_bottom` canvas holding the crops, and `materials == {'combined': combined}`. Untextured meshes are untouched; the others are remapped with the combined material |
| Combiner230Minifier.MinifiedCornerInSlot | combiner230/minifier.py:72-83 | after a finished `minify`, every corner of a textured mesh keeps its position and normal, and its texcoord lies in its slot and on the canvas |
| Combiner230Minifier.Minifier.Minify | combiner230/minifier.py:40-87 | `minify()` leaves `model` as `Minified` of the old model |

## Left out

- File and path I/O is not modelled: reading and writing text, `mkdir`, `relative_to`, `Image.open` and `Image.save`, and the path joining in `get`.
  - A geometry file is a sequence of already-split `ObjLine` records. `Files` maps paths to material lines and images, and output is the sequence of written line records.
  - `mtllib` and `map_Kd` carry an already resolved path. So the difference between the variants' `get` (`Path(*path)` over the split words in minify230, the rest of the line in combiner230) is not modelled.
  - The two written files are values in `Written`, not files.
- Splitting lines on spaces, `float()` parsing and the float formatting of the f-strings are not modelled. Numbers are `real`, so floating-point rounding is not modelled either: the multiply-then-divide round trips hold exactly here.
- Pixel contents are not modelled. An image is its size plus the crops pasted onto it; `crop`/`paste` are recorded, not performed, and the claim that the atlas covers each texture's used area is not modelled.
- `rpack.pack` is the parameter `pack`. The model relies only on it returning one placement per rectangle; non-overlap of the placements is neither assumed nor proved.
- The iteration order of `set(...)` in the dedup writer (`SetOrders`) is a parameter. It is constrained only to list each distinct value once (`OrderLaw`), because it depends on hashes.
- `Box2.__or__` and `Box2.__ior__` are not modelled: no code calls them, and their bodies would fail (`Texcoord` with four arguments, `.min` on a tuple).
- Face index 0 and negative indices are not modelled. Python would read from the end of the list; the `Index` type admits only `1 ≤ i`, and an index beyond the stream is the `IndexError` case.
- Malformed references such as `1//3` (`int('')` fails) are not representable as an `ObjLine` and are not modelled.
- `Texture.__hash__` (by name only) is not modelled. Equality of textures and materials is structural, as the dataclasses' `__eq__` is, and the bounds map keyed by name follows the code.
- DedupExporter.WriteFaces: the dedup writer's `mesh.material != material` is modelled exactly up to pixel contents. PIL's `Image.__eq__` compares pixels, but a modelled `Image` is only its size and pastes. So two same-size images with different pixels give one `usemtl` here and two in Python.
- `combiner230/profiler.py` (timing and printing) and `test.py` (a driver with fixed paths) are not part of this model.
- Python aliasing is not modelled: meshes, faces and vertices are values. This is sound here for three reasons:
  - every vertex is created fresh per corner;
  - `newmtl` always makes a new material;
  - `export` mutates the model it is given, and `Written.model` returns that model.
- Minify230Wavefront.Wavefront.Parse: requires the material dictionary to be well formed, a representation invariant (`Valid`) that every operation keeps, not a demand on the caller.
- Combiner230Minifier.RemapTextured: its own contract states only the length; what it leaves per mesh is stated by `Combiner230Minifier.AssembleDone` and `Combiner230Minifier.MinifiedDone`.
- FlatReadback.FlatReadsBack: the readback gives each texcoord third component 1 and each normal fourth component 1, because the writer drops them. A texcoord's `w` and a normal's `w` therefore do not survive a round trip.
- DedupExporter.DedupExport: writes `v` lines with three components, so a position's `w` does not survive the dedup writer.
