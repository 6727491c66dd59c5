/** `Minifier.minify` of the strict variant (minify230/minifier.py:32-86): every mesh must
    have a texture; the canvas is as large as the largest real right and bottom edge. */
module Minify230Minifier {
  import opened Wrappers
  import opened Errors
  import opened Dicts
  import opened Model
  import opened Box
  import opened Atlas

  /** Every mesh's material has a texture. */
  predicate Textured(meshes: seq<Mesh>) {
    forall i :: 0 <= i < |meshes| ==> meshes[i].material.texture.Some?
  }

  /** The bounds loop from `tb` on: an AttributeError at the first mesh without a texture,
      otherwise the fold over every corner of every mesh. */
  function BoundsFrom(tb: Dict<Box2>, meshes: seq<Mesh>): (r: Result<Dict<Box2>, Error>)
    ensures r.Err? <==> !Textured(meshes)
    ensures r.Err? ==> r.error == MissingTexture
    ensures r.Ok? ==> r.value == Fold(tb, TexturedSamples(meshes))
    decreases |meshes|
  {
    if meshes == [] then Ok(tb)
    else if meshes[0].material.texture.None? then Err(MissingTexture)
    else
      var name := meshes[0].material.texture.value.name;
      FoldAppend(tb, FaceSamples(name, meshes[0].faces), TexturedSamples(meshes[1..]));
      assert forall i :: 1 <= i < |meshes| ==> meshes[i] == meshes[1..][i - 1];
      BoundsFrom(Fold(tb, FaceSamples(name, meshes[0].faces)), meshes[1..])
  }

  /** `max()` of a non-empty run of numbers. */
  function MaxOf(xs: seq<real>): (m: real)
    requires xs != []
    ensures m in xs && forall i :: 0 <= i < |xs| ==> xs[i] <= m
  {
    if |xs| == 1 then xs[0]
    else
      var rest := MaxOf(xs[1..]);
      assert forall i :: 1 <= i < |xs| ==> xs[i] == xs[1..][i - 1];
      if xs[0] >= rest then xs[0] else rest
  }

  /** `pos[0] + bb.width` for every box with its placement, in key order. */
  function RightEdges(tb: Dict<Box2>, positions: seq<Placement>): (edges: seq<real>)
    requires Valid(tb) && |positions| == |tb.keys|
    ensures |edges| == |tb.keys|
    ensures forall i :: 0 <= i < |edges| ==> edges[i] == positions[i].x as real + Width(tb.items[tb.keys[i]])
  {
    seq(|tb.keys|, i requires 0 <= i < |tb.keys| => positions[i].x as real + Width(tb.items[tb.keys[i]]))
  }

  /** `pos[1] + bb.height` for every box with its placement, in key order. */
  function BottomEdges(tb: Dict<Box2>, positions: seq<Placement>): (edges: seq<real>)
    requires Valid(tb) && |positions| == |tb.keys|
    ensures |edges| == |tb.keys|
    ensures forall i :: 0 <= i < |edges| ==> edges[i] == positions[i].y as real + Height(tb.items[tb.keys[i]])
  {
    seq(|tb.keys|, i requires 0 <= i < |tb.keys| => positions[i].y as real + Height(tb.items[tb.keys[i]]))
  }

  /** The index of the first mesh whose texture has no box, or the number of meshes. */
  function FirstUnboxed(meshes: seq<Mesh>, tb: Dict<Box2>): (k: nat)
    ensures k <= |meshes| && (forall i :: 0 <= i < k ==> Boxed(meshes[i], tb))
    ensures k < |meshes| ==> !Boxed(meshes[k], tb)
    decreases |meshes|
  {
    if meshes == [] || !Boxed(meshes[0], tb) then 0
    else
      assert forall i :: 1 <= i < |meshes| ==> meshes[i] == meshes[1..][i - 1];
      1 + FirstUnboxed(meshes[1..], tb)
  }

  /** The meshes after the remap loop has handled the first `k` of them. */
  function RemapUpTo(meshes: seq<Mesh>, tb: Dict<Box2>, offsets: Dict<Placement>, canvasHeight: real, k: nat): (r: seq<Mesh>)
    requires k <= |meshes| && forall i :: 0 <= i < k ==> Boxed(meshes[i], tb)
    requires forall n :: n in tb.items ==> n in offsets.items
    ensures |r| == |meshes| && r[k..] == meshes[k..]
    ensures forall i :: 0 <= i < k ==> r[i] == RemapMesh(meshes[i], tb, offsets, canvasHeight)
  {
    seq(|meshes|, i requires 0 <= i < |meshes| =>
      if i < k then RemapMesh(meshes[i], tb, offsets, canvasHeight) else meshes[i])
  }

  /** The remap loop: it stops with a KeyError at the first mesh whose texture has no box,
      the meshes before it already remapped. */
  function RemapMeshes(meshes: seq<Mesh>, tb: Dict<Box2>, offsets: Dict<Placement>, canvasHeight: real): (o: Outcome<seq<Mesh>>)
    requires forall n :: n in tb.items ==> n in offsets.items
    ensures o.Done? <==> forall i :: 0 <= i < |meshes| ==> Boxed(meshes[i], tb)
    ensures o.Aborted? ==> o.error == MissingBound
    ensures o.state == RemapUpTo(meshes, tb, offsets, canvasHeight, FirstUnboxed(meshes, tb))
  {
    var k := FirstUnboxed(meshes, tb);
    if k == |meshes| then Done(RemapUpTo(meshes, tb, offsets, canvasHeight, k))
    else Aborted(RemapUpTo(meshes, tb, offsets, canvasHeight, k), MissingBound)
  }

  /** `mesh.material = combined_material` for every mesh. */
  function WithMaterial(meshes: seq<Mesh>, material: Material): (r: seq<Mesh>)
    ensures |r| == |meshes|
    ensures forall i :: 0 <= i < |r| ==> r[i] == meshes[i].(material := material)
  {
    seq(|meshes|, i requires 0 <= i < |meshes| => meshes[i].(material := material))
  }

  /** The second half of `minify`, once the canvas holds every crop: install the atlas
      texture, remap every mesh, then switch every material to the combined one. */
  function Install(m: Model, tb: Dict<Box2>, offsets: Dict<Placement>, canvasHeight: real, image: Image): (o: Outcome<Model>)
    requires forall n :: n in tb.items ==> n in offsets.items
    ensures o.Done? <==> forall i :: 0 <= i < |m.meshes| ==> Boxed(m.meshes[i], tb)
    ensures o.Aborted? ==> o.error == MissingBound
    ensures o.state.textures == [CombinedTexture(image)]
    ensures o.Aborted? ==>
      o.state == m.(textures := [CombinedTexture(image)], meshes := RemapUpTo(m.meshes, tb, offsets, canvasHeight, FirstUnboxed(m.meshes, tb)))
    ensures o.Done? ==>
      var combined := CombinedMaterial(image);
      o.state == Model(WithMaterial(RemapUpTo(m.meshes, tb, offsets, canvasHeight, |m.meshes|), combined),
        Single(combined.name, combined), [CombinedTexture(image)])
  {
    var combined := CombinedMaterial(image);
    var installed := m.(textures := [CombinedTexture(image)]);
    match RemapMeshes(m.meshes, tb, offsets, canvasHeight)
    case Aborted(meshes, e) => Aborted(installed.(meshes := meshes), e)
    case Done(meshes) => Done(installed.(meshes := WithMaterial(meshes, combined), materials := Single(combined.name, combined)))
  }

  /** The canvas: as wide as the rightmost and as high as the lowest edge of a placed box. */
  function CanvasWidth(tb: Dict<Box2>, positions: seq<Placement>): (w: real)
    requires Valid(tb) && Proper(tb) && tb.keys != [] && |positions| == |tb.keys|
    ensures 0.0 <= w
  {
    var edges := RightEdges(tb, positions);
    assert 0.0 <= edges[0];
    MaxOf(edges)
  }

  function CanvasHeight(tb: Dict<Box2>, positions: seq<Placement>): (h: real)
    requires Valid(tb) && Proper(tb) && tb.keys != [] && |positions| == |tb.keys|
    ensures 0.0 <= h
  {
    var edges := BottomEdges(tb, positions);
    assert 0.0 <= edges[0];
    MaxOf(edges)
  }

  /** The `i`-th placed box ends left of the canvas's right and above its bottom edge. */
  lemma CanvasHolds(tb: Dict<Box2>, positions: seq<Placement>, i: nat)
    requires Valid(tb) && Proper(tb) && tb.keys != [] && |positions| == |tb.keys| && i < |tb.keys|
    ensures positions[i].x as real + Width(tb.items[tb.keys[i]]) <= CanvasWidth(tb, positions)
    ensures positions[i].y as real + Height(tb.items[tb.keys[i]]) <= CanvasHeight(tb, positions)
  {
    assert RightEdges(tb, positions)[i] <= CanvasWidth(tb, positions);
    assert BottomEdges(tb, positions)[i] <= CanvasHeight(tb, positions);
  }

  /** The canvas is no larger than it must be: some placed box reaches its right edge and
      some placed box reaches its bottom edge. */
  lemma CanvasTight(tb: Dict<Box2>, positions: seq<Placement>)
    requires Valid(tb) && Proper(tb) && tb.keys != [] && |positions| == |tb.keys|
    ensures exists i :: 0 <= i < |tb.keys| && positions[i].x as real + Width(tb.items[tb.keys[i]]) == CanvasWidth(tb, positions)
    ensures exists i :: 0 <= i < |tb.keys| && positions[i].y as real + Height(tb.items[tb.keys[i]]) == CanvasHeight(tb, positions)
  {
    var rights, bottoms := RightEdges(tb, positions), BottomEdges(tb, positions);
    var i :| 0 <= i < |rights| && rights[i] == CanvasWidth(tb, positions);
    var j :| 0 <= j < |bottoms| && bottoms[j] == CanvasHeight(tb, positions);
    assert positions[i].x as real + Width(tb.items[tb.keys[i]]) == CanvasWidth(tb, positions);
    assert positions[j].y as real + Height(tb.items[tb.keys[j]]) == CanvasHeight(tb, positions);
  }

  /** Where the packer puts every box, and the canvas that holds them all. */
  datatype Layout = Layout(positions: seq<Placement>, offsets: Dict<Placement>, width: real, height: real)

  /** `rpack.pack` on the box sizes, the canvas size, and the name-to-placement table. */
  function PlanLayout(tb: Dict<Box2>, pack: seq<Size> -> seq<Placement>): (l: Layout)
    requires PackLaw(pack) && Valid(tb) && Proper(tb) && tb.keys != []
    ensures 0.0 <= l.width && 0.0 <= l.height
    ensures forall n :: n in tb.items ==> n in l.offsets.items
  {
    var positions := pack(Sizes(tb));
    OffsetsLookup(tb.keys, positions);
    Layout(positions, Offsets(tb.keys, positions), CanvasWidth(tb, positions), CanvasHeight(tb, positions))
  }

  /** Everything `minify` does once the boxes are laid out: paste the crops, then install. */
  function Assemble(m: Model, tb: Dict<Box2>, l: Layout): (o: Outcome<Model>)
    requires 0.0 <= l.width && 0.0 <= l.height
    requires forall n :: n in tb.items ==> n in l.offsets.items
    ensures o.Done? <==>
      && (forall i :: 0 <= i < |m.textures| ==> m.textures[i].name in tb.items)
      && (forall i :: 0 <= i < |m.meshes| ==> Boxed(m.meshes[i], tb))
    ensures (exists i :: 0 <= i < |m.textures| && m.textures[i].name !in tb.items) ==> o == Aborted(m, MissingBound)
    ensures o.Aborted? ==> o.error == MissingBound
  {
    match PasteAll(m.textures, tb, l.offsets, Image(Ceil(l.width), Ceil(l.height), []))
    case Err(e) => Aborted(m, e)
    case Ok(image) => Install(m, tb, l.offsets, l.height, image)
  }

  /** The whole of `minify` on a model, with `pack` standing for `rpack.pack`. A failure
      before the remap loop leaves the model as it was; one inside it leaves the atlas
      texture installed and the meshes before the failing one remapped. */
  function Minified(m: Model, pack: seq<Size> -> seq<Placement>): Outcome<Model>
    requires PackLaw(pack)
  {
    match BoundsFrom(EmptyDict(), m.meshes)
    case Err(e) => Aborted(m, e)
    case Ok(tb) => if tb.keys == [] then Aborted(m, NoBounds) else Assemble(m, tb, PlanLayout(tb, pack))
  }

  /** Every mesh has a texture with a visited corner. */
  ghost predicate MeshesSampled(m: Model) {
    forall i :: 0 <= i < |m.meshes| ==> m.meshes[i].material.texture.Some? && Sampled(m, m.meshes[i].material.texture.value.name)
  }

  /** The conditions `Assemble` checks, in terms of visited corners. */
  lemma BoxedIffSampled(m: Model)
    ensures (forall i :: 0 <= i < |m.textures| ==> m.textures[i].name in Bounds(m).items) <==> TexturesSampled(m)
    ensures (forall i :: 0 <= i < |m.meshes| ==> Boxed(m.meshes[i], Bounds(m))) <==> MeshesSampled(m)
  {
    BoundsNames(m);
  }

  /** With every mesh textured, the bounds loop yields `Bounds(m)`. */
  lemma TexturedMinified(m: Model, pack: seq<Size> -> seq<Placement>)
    requires PackLaw(pack) && Textured(m.meshes)
    ensures Minified(m, pack) ==
      if Bounds(m).keys == [] then Aborted(m, NoBounds) else Assemble(m, Bounds(m), PlanLayout(Bounds(m), pack))
  {
    assert BoundsFrom(EmptyDict(), m.meshes) == Ok(Bounds(m));
  }

  /** `minify` runs to the end exactly when every mesh has a texture, there is at least one
      corner, and every texture of the model and every mesh's texture has a corner. */
  lemma MinifiedSucceeds(m: Model, pack: seq<Size> -> seq<Placement>)
    requires PackLaw(pack)
    ensures Minified(m, pack).Done? <==> Textured(m.meshes) && TexturedSamples(m.meshes) != [] && TexturesSampled(m) && MeshesSampled(m)
  {
    if Textured(m.meshes) {
      TexturedMinified(m, pack);
      BoundsNames(m);
      BoxedIffSampled(m);
    } else {
      assert Minified(m, pack) == Aborted(m, MissingTexture);
    }
  }

  /** A model with a mesh that has no texture is refused, and so is a model without a single
      corner, both before anything is changed. */
  lemma MinifiedEarlyFailures(m: Model, pack: seq<Size> -> seq<Placement>)
    requires PackLaw(pack)
    ensures !Textured(m.meshes) ==> Minified(m, pack) == Aborted(m, MissingTexture)
    ensures Textured(m.meshes) && TexturedSamples(m.meshes) == [] ==>
      Minified(m, pack) == Aborted(m, NoBounds)
  {
  }

  /** The slot of the `i`-th key is the `i`-th placement, and it fits on the canvas. */
  lemma PlacementFits(tb: Dict<Box2>, positions: seq<Placement>, i: nat)
    requires Valid(tb) && Proper(tb) && tb.keys != [] && |positions| == |tb.keys| && i < |tb.keys|
    ensures var offsets := Offsets(tb.keys, positions);
      && tb.keys[i] in offsets.items && offsets.items[tb.keys[i]] == positions[i]
      && SlotInCanvas(tb.items[tb.keys[i]], positions[i], CanvasWidth(tb, positions), CanvasHeight(tb, positions))
  {
    OffsetsLookup(tb.keys, positions);
    CanvasHolds(tb, positions, i);
  }

  /** Every box's slot fits on the canvas: placement `i` goes to the `i`-th key, and the
      canvas reaches the far edge of every placed box. */
  lemma PlacementsFit(tb: Dict<Box2>, positions: seq<Placement>)
    requires Valid(tb) && Proper(tb) && tb.keys != [] && |positions| == |tb.keys|
    ensures forall n :: n in tb.items ==>
      (n in Offsets(tb.keys, positions).items &&
       SlotInCanvas(tb.items[n], Offsets(tb.keys, positions).items[n], CanvasWidth(tb, positions), CanvasHeight(tb, positions)))
  {
    forall n | n in tb.items
      ensures n in Offsets(tb.keys, positions).items
      ensures SlotInCanvas(tb.items[n], Offsets(tb.keys, positions).items[n], CanvasWidth(tb, positions), CanvasHeight(tb, positions))
    {
      var i :| 0 <= i < |tb.keys| && tb.keys[i] == n;
      PlacementFits(tb, positions, i);
    }
  }

  /** The same for the layout `minify` plans. */
  lemma LayoutFits(tb: Dict<Box2>, pack: seq<Size> -> seq<Placement>)
    requires PackLaw(pack) && Valid(tb) && Proper(tb) && tb.keys != []
    ensures var l := PlanLayout(tb, pack);
      forall n :: n in tb.items ==> SlotInCanvas(tb.items[n], l.offsets.items[n], l.width, l.height)
  {
    PlacementsFit(tb, pack(Sizes(tb)));
  }

  /** What a finished run of `Install` leaves: the atlas texture and material, and every
      mesh remapped and switched to the combined material. */
  lemma InstallDone(m: Model, tb: Dict<Box2>, offsets: Dict<Placement>, canvasHeight: real, image: Image)
    requires forall n :: n in tb.items ==> n in offsets.items
    requires Install(m, tb, offsets, canvasHeight, image).Done?
    ensures var r := Install(m, tb, offsets, canvasHeight, image).state;
      && r.textures == [CombinedTexture(image)]
      && r.materials == Single("combined", CombinedMaterial(image))
      && |r.meshes| == |m.meshes|
      && forall i :: 0 <= i < |m.meshes| ==> r.meshes[i] == RemapMesh(m.meshes[i], tb, offsets, canvasHeight).(material := CombinedMaterial(image))
  {
  }

  /** The canvas of a finished run, and the layout it was sized from. */
  function FinalLayout(m: Model, pack: seq<Size> -> seq<Placement>): Layout
    requires PackLaw(pack) && Bounds(m).keys != []
  {
    PlanLayout(Bounds(m), pack)
  }

  /** After a finished `minify`: `textures == [combined]`, `materials == {'combined': combined}`,
      and every mesh is the remapped original with the combined material, whose atlas image
      is the canvas sized by the layout with one crop per original texture. */
  lemma MinifiedDone(m: Model, pack: seq<Size> -> seq<Placement>)
    requires PackLaw(pack) && Minified(m, pack).Done?
    ensures Textured(m.meshes) && Bounds(m).keys != []
    ensures var tb := Bounds(m);
      var l := FinalLayout(m, pack);
      var canvas := Image(Ceil(l.width), Ceil(l.height), []);
      && PasteAll(m.textures, tb, l.offsets, canvas).Ok?
      && var image := PasteAll(m.textures, tb, l.offsets, canvas).value;
      && var r := Minified(m, pack).state;
      && r.textures == [CombinedTexture(image)]
      && r.materials == Single("combined", CombinedMaterial(image))
      && |r.meshes| == |m.meshes|
      && (forall i :: 0 <= i < |m.meshes| ==> Boxed(m.meshes[i], tb))
      && (forall i :: 0 <= i < |m.meshes| ==> r.meshes[i] == RemapMesh(m.meshes[i], tb, l.offsets, l.height).(material := CombinedMaterial(image)))
  {
    MinifiedEarlyFailures(m, pack);
    TexturedMinified(m, pack);
    var tb := Bounds(m);
    var l := FinalLayout(m, pack);
    var canvas := Image(Ceil(l.width), Ceil(l.height), []);
    var image := PasteAll(m.textures, tb, l.offsets, canvas).value;
    assert Minified(m, pack) == Install(m, tb, l.offsets, l.height, image);
    InstallDone(m, tb, l.offsets, l.height, image);
  }

  /** After a finished `minify`, corner `k` of face `j` of mesh `i` keeps its position and
      normal, and its texcoord lies in the slot of its mesh's texture, which lies on the canvas. */
  lemma MinifiedCornerInSlot(m: Model, pack: seq<Size> -> seq<Placement>, i: nat, j: nat, k: nat)
    requires PackLaw(pack) && Minified(m, pack).Done?
    requires i < |m.meshes| && j < |m.meshes[i].faces| && k < |m.meshes[i].faces[j].vertexes|
    ensures Textured(m.meshes) && Bounds(m).keys != []
    ensures var r := Minified(m, pack).state;
      && i < |r.meshes| && j < |r.meshes[i].faces| && k < |r.meshes[i].faces[j].vertexes|
      && var before := m.meshes[i].faces[j].vertexes[k];
      && var after := r.meshes[i].faces[j].vertexes[k];
      && var n := m.meshes[i].material.texture.value.name;
      && var l := FinalLayout(m, pack);
      && n in Bounds(m).items && n in l.offsets.items
      && after.position == before.position && after.normal == before.normal
      && InSlot(after.texcoord, Bounds(m).items[n], l.offsets.items[n], l.height)
      && 0.0 <= after.texcoord.u <= l.width && 0.0 <= after.texcoord.v <= l.height
  {
    MinifiedDone(m, pack);
    var tb := Bounds(m);
    var l := FinalLayout(m, pack);
    var n := m.meshes[i].material.texture.value.name;
    var before := m.meshes[i].faces[j].vertexes[k];
    TexturedCornerSampled(m.meshes, i, j, k);
    FoldBounds(TexturedSamples(m.meshes));
    assert Contains(tb.items[n], At(before.texcoord));
    LayoutFits(tb, pack);
    var after := RemapVertex(before, tb.items[n], l.offsets.items[n], l.height);
    assert Minified(m, pack).state.meshes[i].faces[j].vertexes[k] == after;
    InSlotOnCanvas(after.texcoord, tb.items[n], l.offsets.items[n], l.width, l.height);
  }

  /** The bounds loop over all meshes, with its nested loops over faces and vertexes. */
  method CollectBounds(meshes: seq<Mesh>) returns (r: Result<Dict<Box2>, Error>)
    ensures r == BoundsFrom(EmptyDict(), meshes)
  {
    var tb: Dict<Box2> := EmptyDict();
    for i := 0 to |meshes|
      invariant BoundsFrom(tb, meshes[i..]) == BoundsFrom(EmptyDict(), meshes)
    {
      assert meshes[i..][1..] == meshes[i + 1..];
      var material := meshes[i].material;
      if material.texture.None? {
        return Err(MissingTexture);
      }
      tb := GrowByFaces(tb, material.texture.value.name, meshes[i].faces);
    }
    return Ok(tb);
  }

  /** The remap loop, mesh after mesh, each with its texcoords moved into its texture's slot. */
  method RemapEach(meshes: seq<Mesh>, tb: Dict<Box2>, offsets: Dict<Placement>, height: real) returns (o: Outcome<seq<Mesh>>)
    requires forall n :: n in tb.items ==> n in offsets.items
    ensures o == RemapMeshes(meshes, tb, offsets, height)
  {
    var current := meshes;
    for i := 0 to |meshes|
      invariant forall i' :: 0 <= i' < i ==> Boxed(meshes[i'], tb)
      invariant current == RemapUpTo(meshes, tb, offsets, height, i)
    {
      if !Boxed(current[i], tb) {
        assert FirstUnboxed(meshes, tb) == i;
        return Aborted(current, MissingBound);
      }
      var name := current[i].material.texture.value.name;
      var faces := RemapFaceList(current[i].faces, tb.items[name], offsets.items[name], height);
      current := current[i := current[i].(faces := faces)];
      assert current == RemapUpTo(meshes, tb, offsets, height, i + 1);
    }
    assert FirstUnboxed(meshes, tb) == |meshes|;
    return Done(current);
  }

  /** `mesh.material = combined_material` for every mesh, in order. */
  method SetMaterial(meshes: seq<Mesh>, material: Material) returns (r: seq<Mesh>)
    ensures r == WithMaterial(meshes, material)
  {
    r := meshes;
    for i := 0 to |meshes|
      invariant |r| == |meshes|
      invariant r[..i] == WithMaterial(meshes, material)[..i] && r[i..] == meshes[i..]
    {
      r := r[i := r[i].(material := material)];
    }
  }

  /** `Minifier`: holds the model it minifies in place. */
  class Minifier {
    var model: Model

    constructor(model: Model)
      ensures this.model == model
    {
      this.model := model;
    }

    /** `minify()`, with `pack` standing for `rpack.pack`. The outcome carries the model
        left behind, which is what `model` now holds, also after a failure. */
    method Minify(pack: seq<Size> -> seq<Placement>) returns (o: Outcome<Model>)
      requires PackLaw(pack)
      modifies this
      ensures o == Minified(old(model), pack) && model == o.state
    {
      var bounds := CollectBounds(model.meshes);
      if bounds.Err? {
        return Aborted(model, bounds.error);
      }
      var tb := bounds.value;
      if tb.keys == [] {
        return Aborted(model, NoBounds);
      }
      var positions := pack(Sizes(tb));
      var width := CanvasWidth(tb, positions);
      var height := CanvasHeight(tb, positions);
      var offsets := BuildOffsets(tb.keys, positions);
      assert PlanLayout(tb, pack) == Layout(positions, offsets, width, height);
      var pasted := PasteTextures(model.textures, tb, offsets, Image(Ceil(width), Ceil(height), []));
      if pasted.Err? {
        return Aborted(model, pasted.error);
      }
      assert Minified(model, pack) == Install(model, tb, offsets, height, pasted.value);
      o := InstallAtlas(tb, offsets, height, pasted.value);
    }

    /** The tail of `minify()`: install the atlas texture, remap the meshes, then switch
        every material and replace the material table. */
    method InstallAtlas(tb: Dict<Box2>, offsets: Dict<Placement>, height: real, image: Image) returns (o: Outcome<Model>)
      requires forall n :: n in tb.items ==> n in offsets.items
      modifies this
      ensures o == Install(old(model), tb, offsets, height, image) && model == o.state
    {
      var combined := CombinedMaterial(image);
      model := model.(textures := [CombinedTexture(image)]);
      var remapped := RemapEach(model.meshes, tb, offsets, height);
      model := model.(meshes := remapped.state);
      if remapped.Aborted? {
        return Aborted(model, remapped.error);
      }
      var meshes := SetMaterial(model.meshes, combined);
      model := model.(meshes := meshes, materials := Single(combined.name, combined));
      return Done(model);
    }
  }
}
