/** `Minifier.minify` of the tolerant variant (combiner230/minifier.py:35-87): meshes without
    a texture are left alone, a texture's box is seeded from its first mesh's first corner,
    and the canvas is sized by whole-pixel edges starting from 0. */
module Combiner230Minifier {
  import opened Wrappers
  import opened Errors
  import opened Dicts
  import opened Model
  import opened Box
  import opened Atlas

  /** The mesh has a first face with a first vertex, `faces[0].vertexes[0]`. */
  predicate HasFirstCorner(mesh: Mesh) {
    mesh.faces != [] && mesh.faces[0].vertexes != []
  }

  /** `texture_bounds[name] = Box2(first, first)` for a name without a box yet. Seeding adds
      nothing the fold over the mesh's corners would not add anyway. */
  function Seed(tb: Dict<Box2>, name: string, faces: seq<Face>): (r: Dict<Box2>)
    requires name in tb.items || (faces != [] && faces[0].vertexes != [])
    ensures Fold(r, FaceSamples(name, faces)) == Fold(tb, FaceSamples(name, faces))
  {
    if name in tb.items then tb
    else
      SeedIsFirstStep(tb, name, faces);
      Put(tb, name, PointBox(At(faces[0].vertexes[0].texcoord)))
  }

  /** The bounds loop from `tb` on: meshes without a texture are skipped; a texture met for
      the first time gets the box of its mesh's first corner, an IndexError when that corner
      is missing; then every corner of the mesh extends its texture's box. */
  function BoundsFrom(tb: Dict<Box2>, meshes: seq<Mesh>): (r: Result<Dict<Box2>, Error>)
    ensures r.Err? ==> r.error == EmptyMesh
    ensures r.Ok? ==> r.value == Fold(tb, TexturedSamples(meshes))
    ensures r.Ok? ==> forall n :: n in tb.items ==> n in r.value.items
    ensures r.Ok? ==> forall i :: 0 <= i < |meshes| && meshes[i].material.texture.Some? ==> Boxed(meshes[i], r.value)
    decreases |meshes|
  {
    if meshes == [] then Ok(tb)
    else if meshes[0].material.texture.None? then
      assert forall i :: 1 <= i < |meshes| ==> meshes[i] == meshes[1..][i - 1];
      BoundsFrom(tb, meshes[1..])
    else
      var name := meshes[0].material.texture.value.name;
      var faces := meshes[0].faces;
      if name !in tb.items && !HasFirstCorner(meshes[0]) then Err(EmptyMesh)
      else
        FoldAppend(tb, FaceSamples(name, faces), TexturedSamples(meshes[1..]));
        FoldNames(Seed(tb, name, faces), FaceSamples(name, faces));
        assert forall i :: 1 <= i < |meshes| ==> meshes[i] == meshes[1..][i - 1];
        BoundsFrom(Fold(Seed(tb, name, faces), FaceSamples(name, faces)), meshes[1..])
  }

  /** Mesh `i` stops the bounds loop: it has a texture that no earlier textured mesh (and no
      box in `tb`) has named, and it lacks a first corner to seed the box from. */
  ghost predicate SeedMissing(tb: Dict<Box2>, meshes: seq<Mesh>, i: int) {
    && 0 <= i < |meshes|
    && meshes[i].material.texture.Some?
    && meshes[i].material.texture.value.name !in tb.items
    && !HasFirstCorner(meshes[i])
    && forall i' :: 0 <= i' < i && meshes[i'].material.texture.Some? ==>
         meshes[i'].material.texture.value.name != meshes[i].material.texture.value.name
  }

  /** After one textured mesh, exactly its texture's name has been added to the boxed names. */
  lemma NamesAfterMesh(tb: Dict<Box2>, name: string, faces: seq<Face>)
    requires name in tb.items || (faces != [] && faces[0].vertexes != [])
    ensures forall n :: n in Fold(Seed(tb, name, faces), FaceSamples(name, faces)).items <==> n in tb.items || n == name
  {
    FoldNames(Seed(tb, name, faces), FaceSamples(name, faces));
    FaceSamplesOfName(name, faces);
  }

  /** Past the first mesh, a mesh stops the loop from `tb` exactly when it stops the loop
      over the remaining meshes from `next`, the boxes after the first mesh. */
  lemma SeedMissingShift(tb: Dict<Box2>, next: Dict<Box2>, meshes: seq<Mesh>)
    requires meshes != []
    requires forall n :: n in next.items <==>
      n in tb.items || (meshes[0].material.texture.Some? && n == meshes[0].material.texture.value.name)
    ensures (exists i :: 1 <= i && SeedMissing(tb, meshes, i)) <==> exists i :: SeedMissing(next, meshes[1..], i)
  {
    var rest := meshes[1..];
    assert forall i :: 1 <= i < |meshes| ==> meshes[i] == rest[i - 1];
    forall i | 1 <= i < |meshes|
      ensures SeedMissing(tb, meshes, i) <==> SeedMissing(next, rest, i - 1)
    {
    }
    if exists i :: 1 <= i && SeedMissing(tb, meshes, i) {
      var i :| 1 <= i && SeedMissing(tb, meshes, i);
      assert SeedMissing(next, rest, i - 1);
    }
    if exists i :: SeedMissing(next, rest, i) {
      var i :| SeedMissing(next, rest, i);
      assert SeedMissing(tb, meshes, i + 1);
    }
  }

  /** Some mesh stops the loop exactly when the first one does or a later one does. */
  lemma FirstOrLater(tb: Dict<Box2>, meshes: seq<Mesh>)
    ensures (exists i :: SeedMissing(tb, meshes, i)) <==> SeedMissing(tb, meshes, 0) || exists i :: 1 <= i && SeedMissing(tb, meshes, i)
  {
  }

  /** The bounds loop fails exactly when some mesh is the first to name a new texture and
      has no first corner. */
  lemma {:induction false} BoundsFailIff(tb: Dict<Box2>, meshes: seq<Mesh>)
    ensures BoundsFrom(tb, meshes).Err? <==> exists i :: SeedMissing(tb, meshes, i)
    decreases |meshes|
  {
    if meshes != [] {
      if meshes[0].material.texture.None? {
        assert BoundsFrom(tb, meshes) == BoundsFrom(tb, meshes[1..]);
        BoundsFailIff(tb, meshes[1..]);
        SeedMissingShift(tb, tb, meshes);
        assert !SeedMissing(tb, meshes, 0);
        FirstOrLater(tb, meshes);
      } else {
        var name := meshes[0].material.texture.value.name;
        if name !in tb.items && !HasFirstCorner(meshes[0]) {
          assert SeedMissing(tb, meshes, 0);
        } else {
          var next := Fold(Seed(tb, name, meshes[0].faces), FaceSamples(name, meshes[0].faces));
          NamesAfterMesh(tb, name, meshes[0].faces);
          assert BoundsFrom(tb, meshes) == BoundsFrom(next, meshes[1..]);
          BoundsFailIff(next, meshes[1..]);
          SeedMissingShift(tb, next, meshes);
          assert !SeedMissing(tb, meshes, 0);
          FirstOrLater(tb, meshes);
        }
      }
    }
  }

  /** `max(acc, x)` over `xs` in order: at least `acc` and every element, and one of them. */
  function Reach(acc: int, xs: seq<int>): (r: int)
    ensures acc <= r && forall i :: 0 <= i < |xs| ==> xs[i] <= r
    ensures r == acc || exists i :: 0 <= i < |xs| && xs[i] == r
    decreases |xs|
  {
    if xs == [] then acc
    else
      assert forall i :: 1 <= i < |xs| ==> xs[i] == xs[1..][i - 1];
      Reach(if xs[0] > acc then xs[0] else acc, xs[1..])
  }

  /** `pos[0] + size[0]` over `zip(positions, texture_sizes)`. */
  function RightEdges(sizes: seq<Size>, positions: seq<Placement>): (edges: seq<int>)
    requires |positions| == |sizes|
    ensures |edges| == |sizes|
    ensures forall i :: 0 <= i < |edges| ==> edges[i] == positions[i].x + sizes[i].width
  {
    seq(|sizes|, i requires 0 <= i < |sizes| => positions[i].x + sizes[i].width)
  }

  /** `pos[1] + size[1]` over `zip(positions, texture_sizes)`. */
  function BottomEdges(sizes: seq<Size>, positions: seq<Placement>): (edges: seq<int>)
    requires |positions| == |sizes|
    ensures |edges| == |sizes|
    ensures forall i :: 0 <= i < |edges| ==> edges[i] == positions[i].y + sizes[i].height
  {
    seq(|sizes|, i requires 0 <= i < |sizes| => positions[i].y + sizes[i].height)
  }

  /** Where the packer puts every box, and the whole-pixel canvas `max_right` by `max_bottom`. */
  datatype Layout = Layout(sizes: seq<Size>, positions: seq<Placement>, offsets: Dict<Placement>, right: nat, bottom: nat)

  /** `rpack.pack` on the ceiled box sizes, the extent loop from 0, and the name-to-placement
      table. */
  function PlanLayout(tb: Dict<Box2>, pack: seq<Size> -> seq<Placement>): (l: Layout)
    requires PackLaw(pack) && Valid(tb)
    ensures forall n :: n in tb.items ==> n in l.offsets.items
  {
    var sizes := Sizes(tb);
    var positions := pack(sizes);
    OffsetsLookup(tb.keys, positions);
    Layout(sizes, positions, Offsets(tb.keys, positions), Reach(0, RightEdges(sizes, positions)), Reach(0, BottomEdges(sizes, positions)))
  }

  /** The remap loop: a mesh without a texture is skipped; every other one has its texcoords
      moved into its texture's slot and takes the combined material. */
  function RemapTextured(meshes: seq<Mesh>, tb: Dict<Box2>, offsets: Dict<Placement>, canvasHeight: real, combined: Material): (r: seq<Mesh>)
    requires forall i :: 0 <= i < |meshes| && meshes[i].material.texture.Some? ==> Boxed(meshes[i], tb)
    requires forall n :: n in tb.items ==> n in offsets.items
    ensures |r| == |meshes|
  {
    seq(|meshes|, i requires 0 <= i < |meshes| =>
      if meshes[i].material.texture.None? then meshes[i]
      else RemapMesh(meshes[i], tb, offsets, canvasHeight).(material := combined))
  }

  /** Everything `minify` does once the boxes are laid out: paste the crops onto the canvas,
      remap the textured meshes, then install the atlas texture and material. */
  function Assemble(m: Model, tb: Dict<Box2>, l: Layout): (o: Outcome<Model>)
    requires forall i :: 0 <= i < |m.meshes| && m.meshes[i].material.texture.Some? ==> Boxed(m.meshes[i], tb)
    requires forall n :: n in tb.items ==> n in l.offsets.items
    ensures o.Done? <==> forall i :: 0 <= i < |m.textures| ==> m.textures[i].name in tb.items
    ensures o.Aborted? ==> o == Aborted(m, MissingBound)
    ensures o.Done? ==> o.state.textures != [] && o.state.textures[0].image.width == l.right && o.state.textures[0].image.height == l.bottom
  {
    match PasteAll(m.textures, tb, l.offsets, Image(l.right, l.bottom, []))
    case Err(e) => Aborted(m, e)
    case Ok(image) =>
      var combined := CombinedMaterial(image);
      Done(Model(RemapTextured(m.meshes, tb, l.offsets, l.bottom as real, combined), Single(combined.name, combined), [CombinedTexture(image)]))
  }

  /** The whole of `minify` on a model, with `pack` standing for `rpack.pack`. Every failure
      happens before the model is touched. */
  function Minified(m: Model, pack: seq<Size> -> seq<Placement>): (o: Outcome<Model>)
    requires PackLaw(pack)
    ensures o.Aborted? ==> o.state == m && (o.error == EmptyMesh || o.error == MissingBound)
  {
    match BoundsFrom(EmptyDict(), m.meshes)
    case Err(e) => Aborted(m, e)
    case Ok(tb) => Assemble(m, tb, PlanLayout(tb, pack))
  }

  /** No mesh stops the bounds loop. */
  ghost predicate Seeded(m: Model) {
    forall i :: !SeedMissing(EmptyDict(), m.meshes, i)
  }

  /** When the bounds loop gets through, it yields the fold over every textured corner. */
  lemma SeededBounds(m: Model)
    requires Seeded(m)
    ensures BoundsFrom(EmptyDict(), m.meshes) == Ok(Bounds(m))
  {
    BoundsFailIff(EmptyDict(), m.meshes);
  }

  /** How `minify` ends: an IndexError when some texture is first met on a mesh without a
      corner, else a KeyError when some texture of the model has no visited corner, else a
      finished run. Both failures leave the model as it was. */
  lemma MinifiedOutcome(m: Model, pack: seq<Size> -> seq<Placement>)
    requires PackLaw(pack)
    ensures !Seeded(m) ==> Minified(m, pack) == Aborted(m, EmptyMesh)
    ensures Seeded(m) && !TexturesSampled(m) ==> Minified(m, pack) == Aborted(m, MissingBound)
    ensures Seeded(m) && TexturesSampled(m) ==> Minified(m, pack).Done?
  {
    BoundsFailIff(EmptyDict(), m.meshes);
    if Seeded(m) {
      BoundsNames(m);
      assert Minified(m, pack) == Assemble(m, Bounds(m), PlanLayout(Bounds(m), pack));
    }
  }

  /** Every box's slot fits on the canvas: the extent loop reaches the far edge of every
      ceiled size, which is at least the box's real extent. */
  lemma LayoutFits(tb: Dict<Box2>, pack: seq<Size> -> seq<Placement>)
    requires PackLaw(pack) && Valid(tb)
    ensures var l := PlanLayout(tb, pack);
      forall n :: n in tb.items ==> SlotInCanvas(tb.items[n], l.offsets.items[n], l.right as real, l.bottom as real)
  {
    var l := PlanLayout(tb, pack);
    var rights, bottoms := RightEdges(l.sizes, l.positions), BottomEdges(l.sizes, l.positions);
    forall n | n in tb.items
      ensures SlotInCanvas(tb.items[n], l.offsets.items[n], l.right as real, l.bottom as real)
    {
      var idx :| 0 <= idx < |tb.keys| && tb.keys[idx] == n;
      assert l.offsets.items[n] == l.positions[idx] by { OffsetsLookup(tb.keys, l.positions); }
      assert rights[idx] <= l.right && bottoms[idx] <= l.bottom;
    }
  }

  /** The layout of a model's boxes. */
  function FinalLayout(m: Model, pack: seq<Size> -> seq<Placement>): Layout
    requires PackLaw(pack)
  {
    PlanLayout(Bounds(m), pack)
  }

  /** What a finished `Assemble` leaves: the atlas texture and material, meshes without a
      texture untouched, every other one remapped with the combined material. */
  lemma AssembleDone(m: Model, tb: Dict<Box2>, l: Layout)
    requires forall i :: 0 <= i < |m.meshes| && m.meshes[i].material.texture.Some? ==> Boxed(m.meshes[i], tb)
    requires forall n :: n in tb.items ==> n in l.offsets.items
    requires Assemble(m, tb, l).Done?
    ensures var canvas := Image(l.right, l.bottom, []);
      && PasteAll(m.textures, tb, l.offsets, canvas).Ok?
      && var image := PasteAll(m.textures, tb, l.offsets, canvas).value;
      && var r := Assemble(m, tb, l).state;
      && image.width == l.right && image.height == l.bottom
      && r.textures == [CombinedTexture(image)]
      && r.materials == Single("combined", CombinedMaterial(image))
      && |r.meshes| == |m.meshes|
      && (forall i :: 0 <= i < |m.meshes| && m.meshes[i].material.texture.None? ==> r.meshes[i] == m.meshes[i])
      && (forall i :: 0 <= i < |m.meshes| && m.meshes[i].material.texture.Some? ==>
            r.meshes[i] == RemapMesh(m.meshes[i], tb, l.offsets, l.bottom as real).(material := CombinedMaterial(image)))
  {
  }

  /** After a finished `minify`: `textures == [combined]` on a canvas `max_right` by
      `max_bottom` holding the crops, `materials == {'combined': combined}`, meshes without a
      texture untouched, and every other mesh remapped with the combined material. */
  lemma MinifiedDone(m: Model, pack: seq<Size> -> seq<Placement>)
    requires PackLaw(pack) && Minified(m, pack).Done?
    ensures Seeded(m) && TexturesSampled(m)
    ensures forall i :: 0 <= i < |m.meshes| && m.meshes[i].material.texture.Some? ==> Boxed(m.meshes[i], Bounds(m))
    ensures var tb := Bounds(m);
      var l := FinalLayout(m, pack);
      var canvas := Image(l.right, l.bottom, []);
      && PasteAll(m.textures, tb, l.offsets, canvas).Ok?
      && var image := PasteAll(m.textures, tb, l.offsets, canvas).value;
      && var r := Minified(m, pack).state;
      && image.width == l.right && image.height == l.bottom
      && r.textures == [CombinedTexture(image)]
      && r.materials == Single("combined", CombinedMaterial(image))
      && |r.meshes| == |m.meshes|
      && (forall i :: 0 <= i < |m.meshes| && m.meshes[i].material.texture.None? ==> r.meshes[i] == m.meshes[i])
      && (forall i :: 0 <= i < |m.meshes| && m.meshes[i].material.texture.Some? ==>
            r.meshes[i] == RemapMesh(m.meshes[i], tb, l.offsets, l.bottom as real).(material := CombinedMaterial(image)))
  {
    MinifiedOutcome(m, pack);
    SeededBounds(m);
    assert Minified(m, pack) == Assemble(m, Bounds(m), FinalLayout(m, pack));
    AssembleDone(m, Bounds(m), FinalLayout(m, pack));
  }

  /** After a finished `minify`, corner `k` of face `j` of textured mesh `i` keeps its
      position and normal, and its texcoord lies in its texture's slot, on the canvas. */
  lemma MinifiedCornerInSlot(m: Model, pack: seq<Size> -> seq<Placement>, i: nat, j: nat, k: nat)
    requires PackLaw(pack) && Minified(m, pack).Done?
    requires i < |m.meshes| && m.meshes[i].material.texture.Some?
    requires j < |m.meshes[i].faces| && k < |m.meshes[i].faces[j].vertexes|
    ensures var r := Minified(m, pack).state;
      && i < |r.meshes| && j < |r.meshes[i].faces| && k < |r.meshes[i].faces[j].vertexes|
      && var before := m.meshes[i].faces[j].vertexes[k];
      && var after := r.meshes[i].faces[j].vertexes[k];
      && var n := m.meshes[i].material.texture.value.name;
      && var l := FinalLayout(m, pack);
      && n in Bounds(m).items && n in l.offsets.items
      && after.position == before.position && after.normal == before.normal
      && InSlot(after.texcoord, Bounds(m).items[n], l.offsets.items[n], l.bottom as real)
      && 0.0 <= after.texcoord.u <= l.right as real && 0.0 <= after.texcoord.v <= l.bottom as real
  {
    MinifiedDone(m, pack);
    var tb := Bounds(m);
    var l := FinalLayout(m, pack);
    var n := m.meshes[i].material.texture.value.name;
    var before := m.meshes[i].faces[j].vertexes[k];
    TexturedCornerSampled(m.meshes, i, j, k);
    FoldBounds(TexturedSamples(m.meshes));
    assert Contains(tb.items[n], At(before.texcoord));
    LayoutFits(tb, pack);
    var after := RemapVertex(before, tb.items[n], l.offsets.items[n], l.bottom as real);
    assert Minified(m, pack).state.meshes[i].faces[j].vertexes[k] == after;
    InSlotOnCanvas(after.texcoord, tb.items[n], l.offsets.items[n], l.right as real, l.bottom as real);
  }

  /** The bounds loop over all meshes: skip a mesh without a texture, seed a new texture's
      box from the mesh's first corner, then extend it over every face and vertex. */
  method CollectBounds(meshes: seq<Mesh>) returns (r: Result<Dict<Box2>, Error>)
    ensures r == BoundsFrom(EmptyDict(), meshes)
  {
    var tb: Dict<Box2> := EmptyDict();
    for i := 0 to |meshes|
      invariant BoundsFrom(tb, meshes[i..]) == BoundsFrom(EmptyDict(), meshes)
    {
      assert meshes[i..][1..] == meshes[i + 1..];
      var material := meshes[i].material;
      if material.texture.None? {
        continue;
      }
      var name := material.texture.value.name;
      var faces := meshes[i].faces;
      if name !in tb.items {
        if !HasFirstCorner(meshes[i]) {
          return Err(EmptyMesh);
        }
        var first := faces[0].vertexes[0].texcoord;
        assert Seed(tb, name, faces) == Put(tb, name, PointBox(At(first)));
        tb := Put(tb, name, PointBox(At(first)));
      } else {
        assert Seed(tb, name, faces) == tb;
      }
      tb := GrowByFaces(tb, name, faces);
    }
    return Ok(tb);
  }

  /** The extent loop over `zip(positions, texture_sizes)`, both maxima from 0. */
  method Extent(sizes: seq<Size>, positions: seq<Placement>) returns (right: int, bottom: int)
    requires |positions| == |sizes|
    ensures right == Reach(0, RightEdges(sizes, positions))
    ensures bottom == Reach(0, BottomEdges(sizes, positions))
  {
    var rights, bottoms := RightEdges(sizes, positions), BottomEdges(sizes, positions);
    right, bottom := 0, 0;
    for i := 0 to |sizes|
      invariant Reach(right, rights[i..]) == Reach(0, rights)
      invariant Reach(bottom, bottoms[i..]) == Reach(0, bottoms)
    {
      assert rights[i..][1..] == rights[i + 1..];
      assert bottoms[i..][1..] == bottoms[i + 1..];
      if positions[i].x + sizes[i].width > right {
        right := positions[i].x + sizes[i].width;
      }
      if positions[i].y + sizes[i].height > bottom {
        bottom := positions[i].y + sizes[i].height;
      }
    }
  }

  /** The remap loop, mesh after mesh. */
  method RemapEach(meshes: seq<Mesh>, tb: Dict<Box2>, offsets: Dict<Placement>, height: real, combined: Material) returns (r: seq<Mesh>)
    requires forall i :: 0 <= i < |meshes| && meshes[i].material.texture.Some? ==> Boxed(meshes[i], tb)
    requires forall n :: n in tb.items ==> n in offsets.items
    ensures r == RemapTextured(meshes, tb, offsets, height, combined)
  {
    r := meshes;
    for i := 0 to |meshes|
      invariant |r| == |meshes|
      invariant r[..i] == RemapTextured(meshes, tb, offsets, height, combined)[..i] && r[i..] == meshes[i..]
    {
      if r[i].material.texture.None? {
        continue;
      }
      var name := r[i].material.texture.value.name;
      var faces := RemapFaceList(r[i].faces, tb.items[name], offsets.items[name], height);
      r := r[i := r[i].(faces := faces, material := combined)];
    }
  }

  /** `Minifier`: holds the model it minifies in place. */
  class Minifier {
    var model: Model

    constructor(model: Model)
      ensures this.model == model
    {
      this.model := model;
    }

    /** `minify()`, with `pack` standing for `rpack.pack`. A failure leaves `model` as it
        was; a finished run leaves the minified model. */
    method Minify(pack: seq<Size> -> seq<Placement>) returns (o: Outcome<Model>)
      requires PackLaw(pack)
      modifies this
      ensures o == Minified(old(model), pack) && model == o.state
    {
      var bounds := CollectBounds(model.meshes);
      if bounds.Err? {
        return Aborted(model, bounds.error);
      }
      var tb := bounds.value;
      var sizes := Sizes(tb);
      var positions := pack(sizes);
      var right, bottom := Extent(sizes, positions);
      var offsets := BuildOffsets(tb.keys, positions);
      assert PlanLayout(tb, pack) == Layout(sizes, positions, offsets, right, bottom);
      var pasted := PasteTextures(model.textures, tb, offsets, Image(right, bottom, []));
      if pasted.Err? {
        return Aborted(model, pasted.error);
      }
      var combined := CombinedMaterial(pasted.value);
      var meshes := RemapEach(model.meshes, tb, offsets, bottom as real, combined);
      model := model.(meshes := meshes);
      model := model.(textures := [CombinedTexture(pasted.value)]);
      model := model.(materials := Single(combined.name, combined));
      return Done(model);
    }
  }
}
