/** The pieces the two `Minifier.minify` variants share (minify230/minifier.py:36-86,
    combiner230/minifier.py:40-87): the per-texture bounding-box fold, the sizes handed to
    the rectangle packer, the name-to-placement table, the crop-and-paste loop over the
    model's textures and the affine remap of a texcoord into its atlas slot. */
module Atlas {
  import opened Wrappers
  import opened Errors
  import opened Dicts
  import opened Model
  import opened Box

  /** The (u, v) part of a texcoord, the only part a box reads. */
  function At(t: Texcoord): Vec2 {
    Vec2(t.u, t.v)
  }

  /** One texcoord visited by a bounds loop, with the name of its mesh's texture. */
  datatype Sample = Sample(texture: string, at: Vec2)

  /** Every box encloses at least one point, so none is inverted. */
  ghost predicate Proper(tb: Dict<Box2>) {
    forall n :: n in tb.items ==> tb.items[n].min.x <= tb.items[n].max.x && tb.items[n].min.y <= tb.items[n].max.y
  }

  /** One more texcoord: a name not seen yet gets the box of the point, a known one has its
      box extended to the point. */
  function Include(tb: Dict<Box2>, s: Sample): (r: Dict<Box2>)
    ensures s.texture in r.items && Contains(r.items[s.texture], s.at)
    ensures forall n :: n != s.texture ==> (n in r.items <==> n in tb.items)
    ensures forall n :: n in tb.items && n != s.texture ==> r.items[n] == tb.items[n]
    ensures s.texture in tb.items ==> Encloses(r.items[s.texture], tb.items[s.texture])
    ensures Valid(tb) ==> Valid(r)
    ensures Proper(tb) ==> Proper(r)
  {
    if s.texture in tb.items then Put(tb, s.texture, Extend(tb.items[s.texture], s.at))
    else Put(tb, s.texture, PointBox(s.at))
  }

  /** The bounds after visiting `ss` in order, starting from `tb`. */
  function Fold(tb: Dict<Box2>, ss: seq<Sample>): (r: Dict<Box2>)
    ensures Valid(tb) ==> Valid(r)
    ensures Proper(tb) ==> Proper(r)
    decreases |ss|
  {
    if ss == [] then tb else Fold(Include(tb, ss[0]), ss[1..])
  }

  /** Folding over two runs of samples is folding over the first, then the second. */
  lemma {:induction false} FoldAppend(tb: Dict<Box2>, a: seq<Sample>, b: seq<Sample>)
    ensures Fold(tb, a + b) == Fold(Fold(tb, a), b)
    decreases |a|
  {
    if a != [] {
      assert (a + b)[1..] == a[1..] + b;
      FoldAppend(Include(tb, a[0]), a[1..], b);
    } else {
      assert a + b == b;
    }
  }

  /** Folding adds exactly the names of the samples to those already boxed. */
  lemma {:induction false} FoldNames(tb: Dict<Box2>, ss: seq<Sample>)
    ensures forall n :: n in Fold(tb, ss).items <==> n in tb.items || exists s :: s in ss && s.texture == n
    decreases |ss|
  {
    if ss != [] {
      FoldNames(Include(tb, ss[0]), ss[1..]);
      assert ss[0] in ss;
      forall s | s in ss[1..]
        ensures s in ss
      {
      }
      forall s | s in ss && s != ss[0]
        ensures s in ss[1..]
      {
      }
    }
  }

  /** The texcoords of a run of vertexes, tagged with a texture name. */
  function VertexSamples(name: string, vs: seq<Vertex>): (ss: seq<Sample>)
    ensures |ss| == |vs| && forall k :: 0 <= k < |vs| ==> ss[k] == Sample(name, At(vs[k].texcoord))
  {
    seq(|vs|, k requires 0 <= k < |vs| => Sample(name, At(vs[k].texcoord)))
  }

  /** The texcoords of a mesh's faces, face by face and corner by corner. */
  function FaceSamples(name: string, faces: seq<Face>): seq<Sample> {
    if faces == [] then [] else VertexSamples(name, faces[0].vertexes) + FaceSamples(name, faces[1..])
  }

  /** All samples of a mesh carry its texture's name; the first, when there is one, is the
      first corner of the first face. */
  lemma FaceSamplesOfName(name: string, faces: seq<Face>)
    ensures forall s :: s in FaceSamples(name, faces) ==> s.texture == name
    ensures faces != [] && faces[0].vertexes != [] ==>
      FaceSamples(name, faces) != [] && FaceSamples(name, faces)[0] == Sample(name, At(faces[0].vertexes[0].texcoord))
  {
    if faces != [] {
      FaceSamplesOfName(name, faces[1..]);
    }
  }

  /** Seeding a new name's box with its first sample, as the tolerant variant does, changes
      nothing: the first Include of that sample would create the same box. */
  lemma SeedIsFirstStep(tb: Dict<Box2>, name: string, faces: seq<Face>)
    requires name !in tb.items && faces != [] && faces[0].vertexes != []
    ensures Fold(Put(tb, name, PointBox(At(faces[0].vertexes[0].texcoord))), FaceSamples(name, faces)) == Fold(tb, FaceSamples(name, faces))
  {
    var p := At(faces[0].vertexes[0].texcoord);
    var ss := FaceSamples(name, faces);
    FaceSamplesOfName(name, faces);
    assert ss == [ss[0]] + ss[1..];
    ExtendKeepsBoxIffContained(PointBox(p), p);
    PutPut(tb, name, PointBox(p), PointBox(p));
    assert Include(Put(tb, name, PointBox(p)), ss[0]) == Include(tb, ss[0]);
  }

  /** The texcoords of the meshes that have a texture, each tagged with its texture's name;
      meshes without a texture contribute none. */
  function TexturedSamples(meshes: seq<Mesh>): seq<Sample> {
    if meshes == [] then []
    else if meshes[0].material.texture.None? then TexturedSamples(meshes[1..])
    else FaceSamples(meshes[0].material.texture.value.name, meshes[0].faces) + TexturedSamples(meshes[1..])
  }

  /** The four components of a box, so that one statement speaks for all of them. */
  datatype Side = MinX | MinY | MaxX | MaxY

  function Corner(b: Box2, side: Side): real {
    match side
    case MinX => b.min.x
    case MinY => b.min.y
    case MaxX => b.max.x
    case MaxY => b.max.y
  }

  /** The component of a point that `side` of a box is compared with. */
  function Coord(p: Vec2, side: Side): real {
    if side == MinX || side == MaxX then p.x else p.y
  }

  /** Exactly the names of the samples have a box. */
  ghost predicate Names(tb: Dict<Box2>, ss: seq<Sample>) {
    forall n :: n in tb.items <==> exists s :: s in ss && s.texture == n
  }

  /** Every sample lies in the box of its texture. */
  ghost predicate Covers(tb: Dict<Box2>, ss: seq<Sample>) {
    forall s :: s in ss ==> s.texture in tb.items && Contains(tb.items[s.texture], s.at)
  }

  /** Component `side` of box `b` is that component of some sample of texture `n`. */
  ghost predicate Attained(b: Box2, n: string, side: Side, ss: seq<Sample>) {
    exists s :: s in ss && s.texture == n && Coord(s.at, side) == Corner(b, side)
  }

  /** Every component of every box is the matching component of one of its samples. */
  ghost predicate Tight(tb: Dict<Box2>, ss: seq<Sample>) {
    forall n, side :: n in tb.items ==> Attained(tb.items[n], n, side, ss)
  }

  /** One Include step keeps the three properties, with the new sample added. */
  lemma IncludeBounds(tb: Dict<Box2>, ss: seq<Sample>, s: Sample)
    requires Names(tb, ss) && Covers(tb, ss) && Tight(tb, ss)
    ensures Names(Include(tb, s), ss + [s]) && Covers(Include(tb, s), ss + [s]) && Tight(Include(tb, s), ss + [s])
  {
    var r := Include(tb, s);
    var ss' := ss + [s];
    assert s in ss';
    forall n, side | n in r.items
      ensures Attained(r.items[n], n, side, ss')
    {
      if n != s.texture {
        assert Attained(tb.items[n], n, side, ss);
        var q :| q in ss && q.texture == n && Coord(q.at, side) == Corner(tb.items[n], side);
        assert q in ss';
      } else if n in tb.items && Corner(r.items[n], side) == Corner(tb.items[n], side) {
        assert Attained(tb.items[n], n, side, ss);
        var q :| q in ss && q.texture == n && Coord(q.at, side) == Corner(tb.items[n], side);
        assert q in ss';
      } else {
        assert Coord(s.at, side) == Corner(r.items[n], side);
      }
    }
  }

  /** The bounds of a run of samples, folded from no boxes at all: a box for exactly the
      names that occur, each containing all of its samples and each tight. */
  lemma {:induction false} FoldBounds(ss: seq<Sample>)
    ensures Names(Fold(EmptyDict(), ss), ss) && Covers(Fold(EmptyDict(), ss), ss) && Tight(Fold(EmptyDict(), ss), ss)
    decreases |ss|
  {
    if ss != [] {
      var init := ss[..|ss| - 1];
      assert ss == init + [ss[|ss| - 1]];
      FoldBounds(init);
      FoldAppend(EmptyDict(), init, [ss[|ss| - 1]]);
      IncludeBounds(Fold(EmptyDict(), init), init, ss[|ss| - 1]);
    }
  }

  /** Two tight covering boxes of the same samples agree on `side`: each one's extreme
      sample lies in the other. */
  lemma SameCorner(tb1: Dict<Box2>, ss1: seq<Sample>, tb2: Dict<Box2>, ss2: seq<Sample>, n: string, side: Side)
    requires forall s :: s in ss1 <==> s in ss2
    requires Covers(tb1, ss1) && Tight(tb1, ss1) && Covers(tb2, ss2) && Tight(tb2, ss2)
    requires n in tb1.items && n in tb2.items
    ensures Corner(tb1.items[n], side) == Corner(tb2.items[n], side)
  {
    assert Attained(tb1.items[n], n, side, ss1) && Attained(tb2.items[n], n, side, ss2);
    var q1 :| q1 in ss1 && q1.texture == n && Coord(q1.at, side) == Corner(tb1.items[n], side);
    var q2 :| q2 in ss2 && q2.texture == n && Coord(q2.at, side) == Corner(tb2.items[n], side);
    assert q1 in ss2 && q2 in ss1;
  }

  /** Two tight covering boxes of the same samples are the same box. */
  lemma SameBox(tb1: Dict<Box2>, ss1: seq<Sample>, tb2: Dict<Box2>, ss2: seq<Sample>, n: string)
    requires forall s :: s in ss1 <==> s in ss2
    requires Covers(tb1, ss1) && Tight(tb1, ss1) && Covers(tb2, ss2) && Tight(tb2, ss2)
    requires n in tb1.items && n in tb2.items
    ensures tb1.items[n] == tb2.items[n]
  {
    SameCorner(tb1, ss1, tb2, ss2, n, MinX);
    SameCorner(tb1, ss1, tb2, ss2, n, MinY);
    SameCorner(tb1, ss1, tb2, ss2, n, MaxX);
    SameCorner(tb1, ss1, tb2, ss2, n, MaxY);
  }

  /** Boxes for exactly the names of the same samples are boxes for the same names. */
  lemma SameNames(tb1: Dict<Box2>, ss1: seq<Sample>, tb2: Dict<Box2>, ss2: seq<Sample>)
    requires forall s :: s in ss1 <==> s in ss2
    requires Names(tb1, ss1) && Names(tb2, ss2)
    ensures forall n :: n in tb1.items <==> n in tb2.items
  {
    forall n | n in tb1.items
      ensures n in tb2.items
    {
      var q :| q in ss1 && q.texture == n;
      assert q in ss2;
    }
    forall n | n in tb2.items
      ensures n in tb1.items
    {
      var q :| q in ss2 && q.texture == n;
      assert q in ss1;
    }
  }

  /** Tight covering boxes for exactly the names of the same samples are the same boxes. */
  lemma SameBoxes(tb1: Dict<Box2>, ss1: seq<Sample>, tb2: Dict<Box2>, ss2: seq<Sample>)
    requires forall s :: s in ss1 <==> s in ss2
    requires Names(tb1, ss1) && Covers(tb1, ss1) && Tight(tb1, ss1)
    requires Names(tb2, ss2) && Covers(tb2, ss2) && Tight(tb2, ss2)
    ensures tb1.items == tb2.items
  {
    SameNames(tb1, ss1, tb2, ss2);
    forall n | n in tb1.items
      ensures tb1.items[n] == tb2.items[n]
    {
      SameBox(tb1, ss1, tb2, ss2, n);
    }
  }

  /** Visiting the same samples in another order, or with repetitions, gives the same boxes. */
  lemma FoldOrderIndependent(ss1: seq<Sample>, ss2: seq<Sample>)
    requires forall s :: s in ss1 <==> s in ss2
    ensures Fold(EmptyDict(), ss1).items == Fold(EmptyDict(), ss2).items
  {
    FoldBounds(ss1);
    FoldBounds(ss2);
    SameBoxes(Fold(EmptyDict(), ss1), ss1, Fold(EmptyDict(), ss2), ss2);
  }

  /** The component of a sample visited for corner `k` of face `j`. */
  lemma CornerSampled(name: string, faces: seq<Face>, j: nat, k: nat)
    requires j < |faces| && k < |faces[j].vertexes|
    ensures Sample(name, At(faces[j].vertexes[k].texcoord)) in FaceSamples(name, faces)
    decreases j
  {
    if j == 0 {
      assert VertexSamples(name, faces[0].vertexes)[k] == Sample(name, At(faces[j].vertexes[k].texcoord));
    } else {
      CornerSampled(name, faces[1..], j - 1, k);
    }
  }

  /** Every corner of every textured mesh is visited, tagged with its mesh's texture. */
  lemma {:induction false} TexturedCornerSampled(meshes: seq<Mesh>, i: nat, j: nat, k: nat)
    requires i < |meshes| && meshes[i].material.texture.Some?
    requires j < |meshes[i].faces| && k < |meshes[i].faces[j].vertexes|
    ensures Sample(meshes[i].material.texture.value.name, At(meshes[i].faces[j].vertexes[k].texcoord)) in TexturedSamples(meshes)
    decreases i
  {
    if i == 0 {
      CornerSampled(meshes[0].material.texture.value.name, meshes[0].faces, j, k);
    } else {
      TexturedCornerSampled(meshes[1..], i - 1, j, k);
    }
  }

  /** A rectangle size as handed to `rpack.pack`. */
  datatype Size = Size(width: int, height: int)

  /** The top-left corner `rpack.pack` assigns to one rectangle, in canvas rows from the top. */
  datatype Placement = Placement(x: nat, y: nat)

  /** What the minifier relies on from the packer: one placement per rectangle. */
  ghost predicate PackLaw(pack: seq<Size> -> seq<Placement>) {
    forall sizes :: |pack(sizes)| == |sizes|
  }

  /** `(math.ceil(b.width), math.ceil(b.height))` for every box, in key order: the least
      integer size the box fits in. */
  function Sizes(tb: Dict<Box2>): (sizes: seq<Size>)
    requires Valid(tb)
    ensures |sizes| == |tb.keys|
    ensures forall i :: 0 <= i < |sizes| ==>
      var b := tb.items[tb.keys[i]];
      && Width(b) <= sizes[i].width as real < Width(b) + 1.0
      && Height(b) <= sizes[i].height as real < Height(b) + 1.0
    ensures Proper(tb) ==> forall i :: 0 <= i < |sizes| ==> sizes[i].width >= 0 && sizes[i].height >= 0
  {
    seq(|tb.keys|, i requires 0 <= i < |tb.keys| =>
      Size(Ceil(Width(tb.items[tb.keys[i]])), Ceil(Height(tb.items[tb.keys[i]]))))
  }

  /** The name-to-placement table over distinct keys, filled in key order: the `i`-th
      placement goes to the `i`-th key, and the keys keep their order. */
  function Offsets(keys: seq<string>, positions: seq<Placement>): Dict<Placement>
    requires |positions| == |keys|
  {
    if keys == [] then EmptyDict()
    else
      var n := |keys| - 1;
      Put(Offsets(keys[..n], positions[..n]), keys[n], positions[n])
  }

  /** Over distinct keys, the table lists the keys in order and gives the `i`-th key the
      `i`-th placement. */
  lemma {:induction false} OffsetsLookup(keys: seq<string>, positions: seq<Placement>)
    requires |positions| == |keys| && Distinct(keys)
    ensures Valid(Offsets(keys, positions)) && Offsets(keys, positions).keys == keys
    ensures forall i :: 0 <= i < |keys| ==> keys[i] in Offsets(keys, positions).items && Offsets(keys, positions).items[keys[i]] == positions[i]
  {
    if keys != [] {
      var n := |keys| - 1;
      OffsetsLookup(keys[..n], positions[..n]);
      var prior := Offsets(keys[..n], positions[..n]);
      assert keys[n] !in prior.items by {
        assert forall i :: 0 <= i < n ==> keys[..n][i] == keys[i];
      }
      assert keys[..n] + [keys[n]] == keys;
    }
  }

  /** `combined_texture.image.paste(texture.image.crop(bound), offset)`, as a record. */
  function PasteOf(t: Texture, bound: Box2, offset: Placement): Paste {
    Paste(t.name, bound.min.x, bound.min.y, bound.max.x, bound.max.y, offset.x, offset.y)
  }

  /** The texture loop: crop every texture of the model to its box and paste the crop at the
      texture's placement, in order; a texture without a box stops it with a KeyError. */
  function PasteAll(textures: seq<Texture>, tb: Dict<Box2>, offsets: Dict<Placement>, canvas: Image): (r: Result<Image, Error>)
    requires forall n :: n in tb.items ==> n in offsets.items
    ensures r.Ok? <==> forall i :: 0 <= i < |textures| ==> textures[i].name in tb.items
    ensures r.Err? ==> r.error == MissingBound
    ensures r.Ok? ==> r.value.width == canvas.width && r.value.height == canvas.height
    decreases |textures|
  {
    if textures == [] then Ok(canvas)
    else if textures[0].name !in tb.items then Err(MissingBound)
    else
      var n := textures[0].name;
      PasteAll(textures[1..], tb, offsets, canvas.(pastes := canvas.pastes + [PasteOf(textures[0], tb.items[n], offsets.items[n])]))
  }

  /** After the texture loop the canvas holds, after what it held before, one crop per
      texture of the model, in order, each cut to the texture's box and pasted at its placement. */
  lemma {:induction false} PastedCrops(textures: seq<Texture>, tb: Dict<Box2>, offsets: Dict<Placement>, canvas: Image)
    requires forall n :: n in tb.items ==> n in offsets.items
    requires PasteAll(textures, tb, offsets, canvas).Ok?
    ensures var pastes := PasteAll(textures, tb, offsets, canvas).value.pastes;
      && |pastes| == |canvas.pastes| + |textures|
      && pastes[..|canvas.pastes|] == canvas.pastes
      && forall i :: 0 <= i < |textures| ==>
           pastes[|canvas.pastes| + i] == PasteOf(textures[i], tb.items[textures[i].name], offsets.items[textures[i].name])
    decreases |textures|
  {
    if textures != [] {
      var n := textures[0].name;
      var next := canvas.(pastes := canvas.pastes + [PasteOf(textures[0], tb.items[n], offsets.items[n])]);
      PastedCrops(textures[1..], tb, offsets, next);
      var pastes := PasteAll(textures, tb, offsets, canvas).value.pastes;
      assert pastes == PasteAll(textures[1..], tb, offsets, next).value.pastes;
      assert pastes[..|canvas.pastes|] == pastes[..|next.pastes|][..|canvas.pastes|];
      forall i | 0 <= i < |textures|
        ensures pastes[|canvas.pastes| + i] == PasteOf(textures[i], tb.items[textures[i].name], offsets.items[textures[i].name])
      {
        if i == 0 {
          assert pastes[|canvas.pastes|] == pastes[..|next.pastes|][|canvas.pastes|];
        } else {
          assert textures[i] == textures[1..][i - 1];
        }
      }
    }
  }

  /** Where a texcoord of a texture with box `bound` goes: shifted by the box's minimum
      corner onto the slot at `offset`, whose top row is `offset.y` below the top of a canvas
      `canvasHeight` high (texcoord rows count from the bottom). */
  function RemapTexcoord(t: Texcoord, bound: Box2, offset: Placement, canvasHeight: real): (r: Texcoord)
    ensures r.Uv?
    ensures Contains(bound, At(t)) ==> InSlot(r, bound, offset, canvasHeight)
  {
    Uv(t.u - bound.min.x + offset.x as real, t.v - bound.min.y + canvasHeight - offset.y as real - Height(bound))
  }

  /** The slot of a texture in the atlas, in texcoord space: `Width(bound)` wide from
      `offset.x`, `Height(bound)` high below row `offset.y` from the top. */
  predicate InSlot(t: Texcoord, bound: Box2, offset: Placement, canvasHeight: real) {
    && offset.x as real <= t.u <= offset.x as real + Width(bound)
    && canvasHeight - offset.y as real - Height(bound) <= t.v <= canvasHeight - offset.y as real
  }

  /** A slot fits on a canvas `width` by `height`: it ends left of the right edge and above
      the bottom edge. */
  predicate SlotInCanvas(bound: Box2, offset: Placement, width: real, height: real) {
    offset.x as real + Width(bound) <= width && offset.y as real + Height(bound) <= height
  }

  /** A texcoord in a slot that fits on the canvas lies on the canvas. */
  lemma InSlotOnCanvas(t: Texcoord, bound: Box2, offset: Placement, width: real, height: real)
    requires InSlot(t, bound, offset, height) && SlotInCanvas(bound, offset, width, height)
    ensures 0.0 <= t.u <= width && 0.0 <= t.v <= height
  {
  }

  /** The remap is a translation: it keeps the distance between any two texcoords of a texture. */
  lemma RemapIsTranslation(t1: Texcoord, t2: Texcoord, bound: Box2, offset: Placement, canvasHeight: real)
    ensures RemapTexcoord(t1, bound, offset, canvasHeight).u - RemapTexcoord(t2, bound, offset, canvasHeight).u == t1.u - t2.u
    ensures RemapTexcoord(t1, bound, offset, canvasHeight).v - RemapTexcoord(t2, bound, offset, canvasHeight).v == t1.v - t2.v
  {
  }

  /** The remap reverses the crop: the point at the box's minimum corner lands on the slot's
      bottom-left corner, and the maximum corner on its top-right corner. */
  lemma RemapCorners(bound: Box2, offset: Placement, canvasHeight: real)
    ensures var lo := RemapTexcoord(Uv(bound.min.x, bound.min.y), bound, offset, canvasHeight);
      lo.u == offset.x as real && lo.v == canvasHeight - offset.y as real - Height(bound)
    ensures var hi := RemapTexcoord(Uv(bound.max.x, bound.max.y), bound, offset, canvasHeight);
      hi.u == offset.x as real + Width(bound) && hi.v == canvasHeight - offset.y as real
  {
  }

  /** A vertex with its texcoord moved into the atlas; position and normal are untouched. */
  function RemapVertex(v: Vertex, bound: Box2, offset: Placement, canvasHeight: real): Vertex {
    v.(texcoord := RemapTexcoord(v.texcoord, bound, offset, canvasHeight))
  }

  /** Every vertex of every face remapped, the face structure kept. */
  function RemapFaces(faces: seq<Face>, bound: Box2, offset: Placement, canvasHeight: real): (r: seq<Face>)
    ensures |r| == |faces|
    ensures forall j :: 0 <= j < |faces| ==> |r[j].vertexes| == |faces[j].vertexes|
    ensures forall j, k :: 0 <= j < |faces| && 0 <= k < |faces[j].vertexes| ==>
      r[j].vertexes[k] == RemapVertex(faces[j].vertexes[k], bound, offset, canvasHeight)
  {
    seq(|faces|, j requires 0 <= j < |faces| =>
      Face(seq(|faces[j].vertexes|, k requires 0 <= k < |faces[j].vertexes| =>
        RemapVertex(faces[j].vertexes[k], bound, offset, canvasHeight))))
  }

  /** The faces of a mesh textured `name` land in its slot, given that its box covers them. */
  lemma RemappedFacesInSlot(name: string, faces: seq<Face>, bound: Box2, offset: Placement, canvasHeight: real)
    requires forall s :: s in FaceSamples(name, faces) ==> Contains(bound, s.at)
    ensures var r := RemapFaces(faces, bound, offset, canvasHeight);
      forall j, k :: 0 <= j < |r| && 0 <= k < |r[j].vertexes| ==> InSlot(r[j].vertexes[k].texcoord, bound, offset, canvasHeight)
  {
    forall j, k | 0 <= j < |faces| && 0 <= k < |faces[j].vertexes|
      ensures Contains(bound, At(faces[j].vertexes[k].texcoord))
    {
      CornerSampled(name, faces, j, k);
    }
  }

  /** The loop over one face's vertexes in the bounds pass. */
  method GrowByVertexes(tb: Dict<Box2>, name: string, vs: seq<Vertex>) returns (r: Dict<Box2>)
    ensures r == Fold(tb, VertexSamples(name, vs))
  {
    r := tb;
    for k := 0 to |vs|
      invariant Fold(r, VertexSamples(name, vs[k..])) == Fold(tb, VertexSamples(name, vs))
    {
      assert VertexSamples(name, vs[k..])[1..] == VertexSamples(name, vs[k + 1..]);
      r := Include(r, Sample(name, At(vs[k].texcoord)));
    }
  }

  /** The loops over one mesh's faces and their vertexes in the bounds pass. */
  method GrowByFaces(tb: Dict<Box2>, name: string, faces: seq<Face>) returns (r: Dict<Box2>)
    ensures r == Fold(tb, FaceSamples(name, faces))
  {
    r := tb;
    for j := 0 to |faces|
      invariant Fold(r, FaceSamples(name, faces[j..])) == Fold(tb, FaceSamples(name, faces))
    {
      assert faces[j..][1..] == faces[j + 1..];
      FoldAppend(r, VertexSamples(name, faces[j].vertexes), FaceSamples(name, faces[j + 1..]));
      r := GrowByVertexes(r, name, faces[j].vertexes);
    }
  }

  /** The name-to-placement loop `for index, position in enumerate(positions)`. */
  method BuildOffsets(keys: seq<string>, positions: seq<Placement>) returns (d: Dict<Placement>)
    requires |positions| == |keys| && Distinct(keys)
    ensures d == Offsets(keys, positions)
  {
    d := EmptyDict();
    for i := 0 to |positions|
      invariant d == Offsets(keys[..i], positions[..i])
    {
      assert keys[..i + 1][..i] == keys[..i] && positions[..i + 1][..i] == positions[..i];
      d := Put(d, keys[i], positions[i]);
    }
    assert keys[..|keys|] == keys && positions[..|positions|] == positions;
  }

  /** The texture loop: one crop-and-paste per texture of the model. */
  method PasteTextures(textures: seq<Texture>, tb: Dict<Box2>, offsets: Dict<Placement>, canvas: Image) returns (r: Result<Image, Error>)
    requires forall n :: n in tb.items ==> n in offsets.items
    ensures r == PasteAll(textures, tb, offsets, canvas)
  {
    var image := canvas;
    for i := 0 to |textures|
      invariant PasteAll(textures[i..], tb, offsets, image) == PasteAll(textures, tb, offsets, canvas)
    {
      assert textures[i..][1..] == textures[i + 1..];
      var name := textures[i].name;
      if name !in tb.items {
        return Err(MissingBound);
      }
      image := image.(pastes := image.pastes + [PasteOf(textures[i], tb.items[name], offsets.items[name])]);
    }
    return Ok(image);
  }

  /** The remap loops over one mesh's faces and their vertexes. */
  method RemapFaceList(faces: seq<Face>, bound: Box2, offset: Placement, canvasHeight: real) returns (r: seq<Face>)
    ensures r == RemapFaces(faces, bound, offset, canvasHeight)
  {
    r := faces;
    for j := 0 to |faces|
      invariant |r| == |faces|
      invariant r[..j] == RemapFaces(faces, bound, offset, canvasHeight)[..j]
      invariant r[j..] == faces[j..]
    {
      var vs := r[j].vertexes;
      for k := 0 to |vs|
        invariant |vs| == |faces[j].vertexes|
        invariant forall k' :: 0 <= k' < k ==> vs[k'] == RemapVertex(faces[j].vertexes[k'], bound, offset, canvasHeight)
        invariant vs[k..] == faces[j].vertexes[k..]
      {
        vs := vs[k := RemapVertex(vs[k], bound, offset, canvasHeight)];
      }
      assert vs == RemapFaces(faces, bound, offset, canvasHeight)[j].vertexes;
      r := r[j := Face(vs)];
    }
  }

  /** The atlas texture; `paste` fills its image in place, so what it ends up holding is
      the canvas after the texture loop. */
  function CombinedTexture(image: Image): (t: Texture)
    ensures t.name == "combined.png" && t.image == image
  {
    Texture("combined.png", image)
  }

  /** `Material('combined', Color(), Color(), combined_texture)`. */
  function CombinedMaterial(image: Image): (mat: Material)
    ensures mat.name == "combined" && mat.texture == Some(CombinedTexture(image))
    ensures mat.diffuse == MakeColor([]) && mat.ambient == MakeColor([])
  {
    Material("combined", MakeColor([]), MakeColor([]), Some(CombinedTexture(image)))
  }

  /** The box of the mesh's texture is known. */
  predicate Boxed(mesh: Mesh, tb: Dict<Box2>) {
    mesh.material.texture.Some? && mesh.material.texture.value.name in tb.items
  }

  /** A mesh with its texcoords moved into its texture's slot. */
  function RemapMesh(mesh: Mesh, tb: Dict<Box2>, offsets: Dict<Placement>, canvasHeight: real): Mesh
    requires Boxed(mesh, tb) && forall n :: n in tb.items ==> n in offsets.items
  {
    var name := mesh.material.texture.value.name;
    mesh.(faces := RemapFaces(mesh.faces, tb.items[name], offsets.items[name], canvasHeight))
  }

  /** The boxes of the textures, folded over every corner of every textured mesh in order. */
  function Bounds(m: Model): (tb: Dict<Box2>)
    ensures Valid(tb) && Proper(tb)
  {
    Fold(EmptyDict(), TexturedSamples(m.meshes))
  }

  /** Some corner of a mesh textured `name` was visited by the bounds loop. */
  ghost predicate Sampled(m: Model, name: string) {
    exists s :: s in TexturedSamples(m.meshes) && s.texture == name
  }

  /** A texture has a box exactly when one of its corners was visited, and there are no boxes
      exactly when there are no corners. */
  lemma BoundsNames(m: Model)
    ensures forall n :: n in Bounds(m).items <==> Sampled(m, n)
    ensures Bounds(m).keys == [] <==> TexturedSamples(m.meshes) == []
  {
    FoldBounds(TexturedSamples(m.meshes));
    if TexturedSamples(m.meshes) != [] {
      assert TexturedSamples(m.meshes)[0] in TexturedSamples(m.meshes);
      assert TexturedSamples(m.meshes)[0].texture in Bounds(m).items;
    }
  }

  /** Every texture of the model has a visited corner. */
  ghost predicate TexturesSampled(m: Model) {
    forall i :: 0 <= i < |m.textures| ==> Sampled(m, m.textures[i].name)
  }
}
