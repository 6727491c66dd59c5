/** `export_model` of the combiner variant, the deduplicating writer
    (combiner230/importers/wavefront.py:116-155): it normalises the texcoords of textured
    meshes in place, writes every distinct position, texcoord and normal once, and names
    them from the `f` lines through value-to-index tables. */
module DedupExporter {
  import opened Wrappers
  import opened Errors
  import opened Model
  import opened Directives
  import opened Exporter
  import opened PixelSpace
  import ObjInterpreter
  import FlatReadback

  /** No value occurs twice. */
  predicate Unique<T(==)>(l: seq<T>) {
    forall i, j :: 0 <= i < j < |l| ==> l[i] != l[j]
  }

  /** `l` holds every value of `s` exactly once, in some order: what iterating `set(s)` yields. */
  predicate Lists<T(==)>(l: seq<T>, s: seq<T>) {
    && Unique(l)
    && (forall i :: 0 <= i < |l| ==> l[i] in s)
    && (forall i :: 0 <= i < |s| ==> s[i] in l)
  }

  /** The order in which `set(...)` yields its values depends on their hashes; it is a
      parameter, one for each stream, of which only `Lists` is known. */
  datatype SetOrders = SetOrders(
    positions: seq<Position> -> seq<Position>,
    texcoords: seq<Texcoord> -> seq<Texcoord>,
    normals: seq<Position> -> seq<Position>)

  ghost predicate OrderLaw(orders: SetOrders) {
    && (forall s :: Lists(orders.positions(s), s))
    && (forall s :: Lists(orders.texcoords(s), s))
    && (forall s :: Lists(orders.normals(s), s))
  }

  /** `{value: i + 1 for i, value in enumerate(listing)}`. */
  function IndexMap<T(==)>(l: seq<T>): map<T, Index>
    requires Unique(l)
  {
    map i | 0 <= i < |l| :: l[i] := i + 1
  }

  /** The table is a bijection from the listed values onto `1..|l|`: each listed value gets
      its 1-based place, and each index names the value listed there. */
  lemma IndexMapBijection<T>(l: seq<T>)
    requires Unique(l)
    ensures forall i :: 0 <= i < |l| ==> l[i] in IndexMap(l) && IndexMap(l)[l[i]] == i + 1
    ensures forall x :: x in IndexMap(l) ==> IndexMap(l)[x] <= |l| && l[IndexMap(l)[x] - 1] == x
  {
    var d := IndexMap(l);
    forall x | x in d
      ensures d[x] <= |l| && l[d[x] - 1] == x
    {
      var i :| 0 <= i < |l| && l[i] == x;
      assert d[x] == i + 1;
    }
  }

  /** The three streams of the first loop, one entry per corner. */
  function PositionStream(vs: seq<Vertex>): seq<Position> {
    seq(|vs|, i requires 0 <= i < |vs| => vs[i].position)
  }

  function TexcoordStream(vs: seq<Vertex>): seq<Texcoord> {
    seq(|vs|, i requires 0 <= i < |vs| => vs[i].texcoord)
  }

  function NormalStream(vs: seq<Vertex>): seq<Position> {
    seq(|vs|, i requires 0 <= i < |vs| => vs[i].normal)
  }

  /** `(texcoord[0] / width, texcoord[1] / height)`. */
  function NormalTexcoord(t: Texcoord, w: nat, h: nat): Texcoord {
    Uv(Ratio(t.u, w), Ratio(t.v, h))
  }

  function NormalFace(face: Face, w: nat, h: nat): Face {
    Face(seq(|face.vertexes|, k requires 0 <= k < |face.vertexes| =>
      face.vertexes[k].(texcoord := NormalTexcoord(face.vertexes[k].texcoord, w, h))))
  }

  /** A textured mesh with its texcoords divided by its image's size; any other mesh as it is. */
  function NormalizeMesh(mesh: Mesh): Mesh {
    if mesh.material.texture.None? then mesh
    else
      var w, h := ImageWidth(mesh), ImageHeight(mesh);
      mesh.(faces := seq(|mesh.faces|, j requires 0 <= j < |mesh.faces| => NormalFace(mesh.faces[j], w, h)))
  }

  /** The division is reached only at a corner of a textured mesh. */
  predicate Dividable(mesh: Mesh) {
    mesh.material.texture.None? || FaceCorners(mesh.faces) == [] || (ImageWidth(mesh) > 0 && ImageHeight(mesh) > 0)
  }

  /** The index of the first mesh whose division fails, or the number of meshes. */
  function FirstUndividable(meshes: seq<Mesh>): (k: nat)
    ensures k <= |meshes| && (forall i :: 0 <= i < k ==> Dividable(meshes[i]))
    ensures k < |meshes| ==> !Dividable(meshes[k])
    decreases |meshes|
  {
    if meshes == [] || !Dividable(meshes[0]) then 0
    else
      assert forall i :: 1 <= i < |meshes| ==> meshes[i] == meshes[1..][i - 1];
      1 + FirstUndividable(meshes[1..])
  }

  /** The meshes after the first loop has handled the first `k` of them. */
  function NormalizedUpTo(meshes: seq<Mesh>, k: nat): seq<Mesh> {
    seq(|meshes|, i requires 0 <= i < |meshes| => if i < k then NormalizeMesh(meshes[i]) else meshes[i])
  }

  /** The first loop's effect on the model passed in: every textured mesh normalised, or a
      ZeroDivisionError at the first textured corner of an image of width or height 0, with
      the meshes before it already normalised. */
  function Normalize(meshes: seq<Mesh>): (o: Outcome<seq<Mesh>>)
    ensures o.Done? <==> forall i :: 0 <= i < |meshes| ==> Dividable(meshes[i])
    ensures o.Aborted? ==> o.error == DivisionByZero
    ensures |o.state| == |meshes|
    ensures forall i :: 0 <= i < |meshes| ==> o.state[i] == meshes[i] || o.state[i] == NormalizeMesh(meshes[i])
    ensures o.state == NormalizedUpTo(meshes, FirstUndividable(meshes))
    ensures o.Done? ==> forall i :: 0 <= i < |meshes| ==> o.state[i] == NormalizeMesh(meshes[i])
  {
    var k := FirstUndividable(meshes);
    if k == |meshes| then Done(NormalizedUpTo(meshes, k)) else Aborted(NormalizedUpTo(meshes, k), DivisionByZero)
  }

  /** A normalised mesh keeps its material, faces, corners, positions and normals; a textured
      one has every texcoord divided by its image's size. */
  lemma NormalizedCorner(mesh: Mesh, j: nat, k: nat)
    requires j < |mesh.faces| && k < |mesh.faces[j].vertexes|
    ensures var r := NormalizeMesh(mesh);
      var v := mesh.faces[j].vertexes[k];
      && r.material == mesh.material && |r.faces| == |mesh.faces|
      && |r.faces[j].vertexes| == |mesh.faces[j].vertexes|
      && r.faces[j].vertexes[k].position == v.position
      && r.faces[j].vertexes[k].normal == v.normal
      && r.faces[j].vertexes[k].texcoord ==
           if mesh.material.texture.None? then v.texcoord
           else Uv(Ratio(v.texcoord.u, ImageWidth(mesh)), Ratio(v.texcoord.v, ImageHeight(mesh)))
  {
  }

  /** Normalising a mesh that the import's post-pass scaled gives back the `u` and `v` of
      every corner as the geometry file gave them. */
  lemma NormalizeUndoesPixel(mesh: Mesh, j: nat, k: nat)
    requires mesh.material.texture.Some? && ImageWidth(mesh) > 0 && ImageHeight(mesh) > 0
    requires j < |mesh.faces| && k < |mesh.faces[j].vertexes|
    ensures var t := mesh.faces[j].vertexes[k].texcoord;
      NormalizeMesh(PixelMesh(mesh)).faces[j].vertexes[k].texcoord == Uv(t.u, t.v)
  {
    var w, h := ImageWidth(mesh), ImageHeight(mesh);
    var t := mesh.faces[j].vertexes[k].texcoord;
    PixelCorner(mesh, j, k);
    NormalizedCorner(PixelMesh(mesh), j, k);
    PixelRoundTrip(t, w, h);
  }

  /** The three tables of `export_model`. */
  datatype Tables = Tables(positions: map<Position, Index>, texcoords: map<Texcoord, Index>, normals: map<Position, Index>)

  /** The hash orders of the three streams of a run of corners. */
  function PositionListing(orders: SetOrders, cs: seq<Vertex>): seq<Position> {
    orders.positions(PositionStream(cs))
  }

  function TexcoordListing(orders: SetOrders, cs: seq<Vertex>): seq<Texcoord> {
    orders.texcoords(TexcoordStream(cs))
  }

  function NormalListing(orders: SetOrders, cs: seq<Vertex>): seq<Position> {
    orders.normals(NormalStream(cs))
  }

  function TablesOf(orders: SetOrders, cs: seq<Vertex>): Tables
    requires OrderLaw(orders)
  {
    Tables(IndexMap(PositionListing(orders, cs)), IndexMap(TexcoordListing(orders, cs)), IndexMap(NormalListing(orders, cs)))
  }

  /** All three values of a corner have an index. */
  predicate Resolvable(t: Tables, v: Vertex) {
    v.position in t.positions && v.texcoord in t.texcoords && v.normal in t.normals
  }

  predicate MeshResolvable(t: Tables, mesh: Mesh) {
    forall j, k :: 0 <= j < |mesh.faces| && 0 <= k < |mesh.faces[j].vertexes| ==> Resolvable(t, mesh.faces[j].vertexes[k])
  }

  /** `position_dict[...]/texcoord_dict[...]/normal_dict[...]` for one corner. */
  function RefOf(t: Tables, v: Vertex): Ref
    requires Resolvable(t, v)
  {
    Ref(t.positions[v.position], t.texcoords[v.texcoord], Some(t.normals[v.normal]))
  }

  /** The `f` line of one face. */
  function FaceLine(t: Tables, face: Face): ObjLine
    requires forall k :: 0 <= k < |face.vertexes| ==> Resolvable(t, face.vertexes[k])
  {
    F(seq(|face.vertexes|, k requires 0 <= k < |face.vertexes| && Resolvable(t, face.vertexes[k]) => RefOf(t, face.vertexes[k])))
  }

  /** The `f` lines of one mesh, one per face. */
  function MeshFaceLines(t: Tables, mesh: Mesh): seq<ObjLine>
    requires MeshResolvable(t, mesh)
  {
    seq(|mesh.faces|, j requires 0 <= j < |mesh.faces| => FaceLine(t, mesh.faces[j]))
  }

  /** `usemtl` is written when the mesh's material differs from the previous mesh's (there is
      none before the first mesh). */
  function UsemtlLines(mesh: Mesh, previous: Option<Material>): seq<ObjLine> {
    if previous != Some(mesh.material) then [Usemtl([mesh.material.name])] else []
  }

  /** The `f_lines` of the second loop, from the material of the mesh before on. */
  function FLines(t: Tables, meshes: seq<Mesh>, previous: Option<Material>): seq<ObjLine>
    requires forall i :: 0 <= i < |meshes| ==> MeshResolvable(t, meshes[i])
    decreases |meshes|
  {
    if meshes == [] then []
    else
      assert forall i :: 1 <= i < |meshes| ==> meshes[1..][i - 1] == meshes[i];
      UsemtlLines(meshes[0], previous) + MeshFaceLines(t, meshes[0]) + FLines(t, meshes[1..], Some(meshes[0].material))
  }

  /** `v x y z`, `vt u v` and `vn x y z` for every listed value. */
  function VLines(l: seq<Position>): seq<ObjLine> {
    seq(|l|, i requires 0 <= i < |l| => V([l[i].x, l[i].y, l[i].z]))
  }

  function VtLines(l: seq<Texcoord>): seq<ObjLine> {
    seq(|l|, i requires 0 <= i < |l| => Vt([l[i].u, l[i].v]))
  }

  function VnLines(l: seq<Position>): seq<ObjLine> {
    seq(|l|, i requires 0 <= i < |l| => Vn([l[i].x, l[i].y, l[i].z]))
  }

  /** A listed value has an index, and the index names the place it is listed at. */
  lemma Indexed<T>(l: seq<T>, x: T)
    requires Unique(l) && x in l
    ensures x in IndexMap(l) && IndexMap(l)[x] <= |l| && l[IndexMap(l)[x] - 1] == x
  {
    IndexMapBijection(l);
  }

  /** Each of the three values of corner `c` is listed, so it has an index, and the line
      written at that index holds the value. */
  lemma CornerIndexed(orders: SetOrders, cs: seq<Vertex>, c: nat)
    requires OrderLaw(orders) && c < |cs|
    ensures var pl, tl, nl := PositionListing(orders, cs), TexcoordListing(orders, cs), NormalListing(orders, cs);
      var v := cs[c];
      && Unique(pl) && Unique(tl) && Unique(nl)
      && v.position in IndexMap(pl) && IndexMap(pl)[v.position] <= |pl|
      && VLines(pl)[IndexMap(pl)[v.position] - 1] == V([v.position.x, v.position.y, v.position.z])
      && v.texcoord in IndexMap(tl) && IndexMap(tl)[v.texcoord] <= |tl|
      && VtLines(tl)[IndexMap(tl)[v.texcoord] - 1] == Vt([v.texcoord.u, v.texcoord.v])
      && v.normal in IndexMap(nl) && IndexMap(nl)[v.normal] <= |nl|
      && VnLines(nl)[IndexMap(nl)[v.normal] - 1] == Vn([v.normal.x, v.normal.y, v.normal.z])
  {
    var pl, tl, nl := PositionListing(orders, cs), TexcoordListing(orders, cs), NormalListing(orders, cs);
    assert Lists(pl, PositionStream(cs)) && PositionStream(cs)[c] == cs[c].position;
    assert Lists(tl, TexcoordStream(cs)) && TexcoordStream(cs)[c] == cs[c].texcoord;
    assert Lists(nl, NormalStream(cs)) && NormalStream(cs)[c] == cs[c].normal;
    Indexed(pl, cs[c].position);
    Indexed(tl, cs[c].texcoord);
    Indexed(nl, cs[c].normal);
    PositionLine(pl, cs[c].position);
    TexcoordLine(tl, cs[c].texcoord);
    NormalLine(nl, cs[c].normal);
  }

  /** Every corner of the meshes finds its three values in the tables built from them. */
  lemma AllResolvable(orders: SetOrders, meshes: seq<Mesh>)
    requires OrderLaw(orders)
    ensures forall i :: 0 <= i < |meshes| ==> MeshResolvable(TablesOf(orders, MeshCorners(meshes)), meshes[i])
  {
    var cs := MeshCorners(meshes);
    forall i, j, k | 0 <= i < |meshes| && 0 <= j < |meshes[i].faces| && 0 <= k < |meshes[i].faces[j].vertexes|
      ensures Resolvable(TablesOf(orders, cs), meshes[i].faces[j].vertexes[k])
    {
      CornerInMeshes(meshes, i, j, k);
      var c :| 0 <= c < |cs| && cs[c] == meshes[i].faces[j].vertexes[k];
      CornerIndexed(orders, cs, c);
    }
  }

  /** The written file over normalised meshes: the header, every distinct position, texcoord
      and normal once in hash order, then the `usemtl` and `f` lines. */
  function DedupLines(objName: string, orders: SetOrders, meshes: seq<Mesh>): seq<ObjLine>
    requires OrderLaw(orders)
  {
    var cs := MeshCorners(meshes);
    AllResolvable(orders, meshes);
    Header(objName) + VLines(PositionListing(orders, cs)) + VtLines(TexcoordListing(orders, cs)) +
      VnLines(NormalListing(orders, cs)) + FLines(TablesOf(orders, cs), meshes, None)
  }

  /** `export_model`: nothing is written when the first loop stops. */
  function DedupExport(objName: string, orders: SetOrders, meshes: seq<Mesh>): (r: Result<seq<ObjLine>, Error>)
    requires OrderLaw(orders)
    ensures r.Ok? <==> Normalize(meshes).Done?
    ensures r.Err? ==> r.error == DivisionByZero
  {
    match Normalize(meshes)
    case Aborted(_, e) => Err(e)
    case Done(ms) => Ok(DedupLines(objName, orders, ms))
  }

  /** Every reference of an `f` line names the `v`, `vt` and `vn` lines that hold its corner's
      own position (its first three components), texcoord (`u` and `v`) and normal. */
  lemma RefsResolve(orders: SetOrders, meshes: seq<Mesh>, i: nat, j: nat, k: nat)
    requires OrderLaw(orders)
    requires i < |meshes| && j < |meshes[i].faces| && k < |meshes[i].faces[j].vertexes|
    ensures var cs := MeshCorners(meshes);
      var v := meshes[i].faces[j].vertexes[k];
      && Resolvable(TablesOf(orders, cs), v)
      && RefNames(RefOf(TablesOf(orders, cs), v), v, orders, cs)
  {
    var cs := MeshCorners(meshes);
    CornerInMeshes(meshes, i, j, k);
    var c :| 0 <= c < |cs| && cs[c] == meshes[i].faces[j].vertexes[k];
    CornerRef(orders, cs, c);
  }

  /** The three indexes of `r` name the `v`, `vt` and `vn` lines of the corners `cs` that
      hold the position (its first three components), texcoord (`u` and `v`) and normal of `v`. */
  ghost predicate RefNames(r: Ref, v: Vertex, orders: SetOrders, cs: seq<Vertex>) {
    var vl, vtl, vnl := VLines(PositionListing(orders, cs)), VtLines(TexcoordListing(orders, cs)), VnLines(NormalListing(orders, cs));
    && r.position <= |vl| && vl[r.position - 1] == V([v.position.x, v.position.y, v.position.z])
    && r.texcoord <= |vtl| && vtl[r.texcoord - 1] == Vt([v.texcoord.u, v.texcoord.v])
    && r.normal.Some? && r.normal.value <= |vnl| && vnl[r.normal.value - 1] == Vn([v.normal.x, v.normal.y, v.normal.z])
  }

  lemma CornerRef(orders: SetOrders, cs: seq<Vertex>, c: nat)
    requires OrderLaw(orders) && c < |cs|
    ensures Resolvable(TablesOf(orders, cs), cs[c]) && RefNames(RefOf(TablesOf(orders, cs), cs[c]), cs[c], orders, cs)
  {
    CornerIndexed(orders, cs, c);
    var pl, tl, nl := PositionListing(orders, cs), TexcoordListing(orders, cs), NormalListing(orders, cs);
    var t := TablesOf(orders, cs);
    assert t == Tables(IndexMap(pl), IndexMap(tl), IndexMap(nl));
    assert RefOf(t, cs[c]) == Ref(IndexMap(pl)[cs[c].position], IndexMap(tl)[cs[c].texcoord], Some(IndexMap(nl)[cs[c].normal]));
  }

  /** The line a table names for a listed value holds that value. */
  lemma PositionLine(l: seq<Position>, x: Position)
    requires Unique(l) && x in IndexMap(l) && IndexMap(l)[x] <= |l| && l[IndexMap(l)[x] - 1] == x
    ensures VLines(l)[IndexMap(l)[x] - 1] == V([x.x, x.y, x.z])
  {
  }

  lemma TexcoordLine(l: seq<Texcoord>, x: Texcoord)
    requires Unique(l) && x in IndexMap(l) && IndexMap(l)[x] <= |l| && l[IndexMap(l)[x] - 1] == x
    ensures VtLines(l)[IndexMap(l)[x] - 1] == Vt([x.u, x.v])
  {
  }

  lemma NormalLine(l: seq<Position>, x: Position)
    requires Unique(l) && x in IndexMap(l) && IndexMap(l)[x] <= |l| && l[IndexMap(l)[x] - 1] == x
    ensures VnLines(l)[IndexMap(l)[x] - 1] == Vn([x.x, x.y, x.z])
  {
  }

  /** The name of the last `usemtl` before each `f` line, starting from `current`: the
      material a reader of the file gives each face. */
  function FaceMaterials(lines: seq<ObjLine>, current: Option<string>): seq<Option<string>>
    decreases |lines|
  {
    if lines == [] then []
    else
      match lines[0]
      case Usemtl(names) => FaceMaterials(lines[1..], if |names| == 1 then Some(names[0]) else current)
      case F(_) => [current] + FaceMaterials(lines[1..], current)
      case _ => FaceMaterials(lines[1..], current)
  }

  /** `n` copies of `x`. */
  function Repeat<T>(x: T, n: nat): seq<T>
    decreases n
  {
    if n == 0 then [] else [x] + Repeat(x, n - 1)
  }

  /** The name of its mesh's material, once for every face, mesh after mesh. */
  function MeshFaceMaterials(meshes: seq<Mesh>): seq<Option<string>>
    decreases |meshes|
  {
    if meshes == [] then []
    else Repeat(Some(meshes[0].material.name), |meshes[0].faces|) + MeshFaceMaterials(meshes[1..])
  }

  /** A run of `f` lines gives each of its faces the current material and keeps it. */
  lemma {:induction false} FacesKeepMaterial(fs: seq<ObjLine>, rest: seq<ObjLine>, current: Option<string>)
    requires forall i :: 0 <= i < |fs| ==> fs[i].F?
    ensures FaceMaterials(fs + rest, current) == Repeat(current, |fs|) + FaceMaterials(rest, current)
    decreases |fs|
  {
    if fs != [] {
      assert (fs + rest)[0] == fs[0] && (fs + rest)[1..] == fs[1..] + rest;
      assert FaceMaterials(fs + rest, current) == [current] + FaceMaterials(fs[1..] + rest, current);
      FacesKeepMaterial(fs[1..], rest, current);
      assert Repeat(current, |fs|) == [current] + Repeat(current, |fs| - 1);
      assert [current] + (Repeat(current, |fs| - 1) + FaceMaterials(rest, current)) ==
        Repeat(current, |fs|) + FaceMaterials(rest, current);
    } else {
      assert fs + rest == rest;
    }
  }

  /** Skipping `usemtl` when the material repeats loses nothing: a reader of the `f` lines
      gives every face the name of its own mesh's material. */
  lemma {:induction false} UsemtlReadBack(t: Tables, meshes: seq<Mesh>, previous: Option<Material>, current: Option<string>)
    requires forall i :: 0 <= i < |meshes| ==> MeshResolvable(t, meshes[i])
    requires previous.Some? ==> current == Some(previous.value.name)
    ensures FaceMaterials(FLines(t, meshes, previous), current) == MeshFaceMaterials(meshes)
    decreases |meshes|
  {
    if meshes != [] {
      var m := meshes[0];
      var fs := MeshFaceLines(t, m);
      var rest := FLines(t, meshes[1..], Some(m.material));
      var name := Some(m.material.name);
      assert FLines(t, meshes, previous) == UsemtlLines(m, previous) + (fs + rest);
      FacesKeepMaterial(fs, rest, name);
      if previous != Some(m.material) {
        assert (UsemtlLines(m, previous) + (fs + rest))[1..] == fs + rest;
      } else {
        assert UsemtlLines(m, previous) + (fs + rest) == fs + rest;
      }
      UsemtlReadBack(t, meshes[1..], Some(m.material), name);
    }
  }

  /** The inner loops of the first loop: `vertex.texcoord = ...` on every corner of a face list. */
  method NormalFaceList(faces: seq<Face>, w: nat, h: nat) returns (r: seq<Face>)
    ensures r == seq(|faces|, j requires 0 <= j < |faces| => NormalFace(faces[j], w, h))
  {
    r := faces;
    for j := 0 to |faces|
      invariant |r| == |faces|
      invariant forall j' :: 0 <= j' < j ==> r[j'] == NormalFace(faces[j'], w, h)
      invariant r[j..] == faces[j..]
    {
      var vertexes := r[j].vertexes;
      for k := 0 to |vertexes|
        invariant |vertexes| == |faces[j].vertexes|
        invariant forall k' :: 0 <= k' < k ==> vertexes[k'] == faces[j].vertexes[k'].(texcoord := NormalTexcoord(faces[j].vertexes[k'].texcoord, w, h))
        invariant vertexes[k..] == faces[j].vertexes[k..]
      {
        vertexes := vertexes[k := vertexes[k].(texcoord := NormalTexcoord(vertexes[k].texcoord, w, h))];
      }
      assert vertexes == NormalFace(faces[j], w, h).vertexes;
      r := r[j := Face(vertexes)];
    }
  }

  /** The body of the first loop for one mesh: it fails exactly when the mesh is textured,
      its image has a side of 0 and it has a corner to divide. */
  method NormalizeOne(mesh: Mesh) returns (ok: bool, r: Mesh)
    ensures ok <==> Dividable(mesh)
    ensures ok ==> r == NormalizeMesh(mesh)
  {
    if mesh.material.texture.None? {
      return true, mesh;
    }
    var w, h := ImageWidth(mesh), ImageHeight(mesh);
    if w == 0 || h == 0 {
      var found := HasCorner(mesh.faces);
      if found {
        return false, mesh;
      }
    }
    var faces := NormalFaceList(mesh.faces, w, h);
    return true, mesh.(faces := faces);
  }

  /** The first loop: normalise each textured mesh in place and collect its corners. */
  method NormalizeAll(meshes: seq<Mesh>) returns (o: Outcome<seq<Mesh>>, corners: seq<Vertex>)
    ensures o == Normalize(meshes)
    ensures o.Done? ==> corners == MeshCorners(o.state)
  {
    var current := meshes;
    corners := [];
    for i := 0 to |meshes|
      invariant forall i' :: 0 <= i' < i ==> Dividable(meshes[i'])
      invariant current == NormalizedUpTo(meshes, i)
      invariant corners == MeshCorners(current[..i])
    {
      assert current[i] == meshes[i];
      var ok, mesh := NormalizeOne(meshes[i]);
      if !ok {
        assert FirstUndividable(meshes) == i;
        return Aborted(current, DivisionByZero), corners;
      }
      current := current[i := mesh];
      assert current[..i + 1][..i] == current[..i];
      corners := corners + FaceCorners(mesh.faces);
    }
    assert FirstUndividable(meshes) == |meshes|;
    assert current[..|meshes|] == current;
    return Done(current), corners;
  }

  /** The `f_lines` from mesh `i` on are its `usemtl` line, if any, its faces, then those of
      the meshes after it, whatever was written before them. */
  lemma FLinesStep(t: Tables, meshes: seq<Mesh>, i: nat, previous: Option<Material>, written: seq<ObjLine>)
    requires i < |meshes| && forall i' :: 0 <= i' < |meshes| ==> MeshResolvable(t, meshes[i'])
    ensures written + FLines(t, meshes[i..], previous) ==
      (written + UsemtlLines(meshes[i], previous) + MeshFaceLines(t, meshes[i])) + FLines(t, meshes[i + 1..], Some(meshes[i].material))
  {
    assert meshes[i..][0] == meshes[i] && meshes[i..][1..] == meshes[i + 1..];
  }

  /** The loop over the faces of one mesh: one `f` line each. */
  method WriteMeshFaces(t: Tables, mesh: Mesh) returns (lines: seq<ObjLine>)
    requires MeshResolvable(t, mesh)
    ensures lines == MeshFaceLines(t, mesh)
  {
    lines := [];
    for j := 0 to |mesh.faces|
      invariant lines == MeshFaceLines(t, mesh)[..j]
    {
      lines := lines + [FaceLine(t, mesh.faces[j])];
    }
  }

  /** The second loop: `usemtl` on every change of material, then one `f` line per face. */
  method WriteFaces(t: Tables, meshes: seq<Mesh>) returns (lines: seq<ObjLine>)
    requires forall i :: 0 <= i < |meshes| ==> MeshResolvable(t, meshes[i])
    ensures lines == FLines(t, meshes, None)
  {
    lines := [];
    var material: Option<Material> := None;
    for i := 0 to |meshes|
      invariant lines + FLines(t, meshes[i..], material) == FLines(t, meshes, None)
    {
      FLinesStep(t, meshes, i, material, lines);
      var faces := WriteMeshFaces(t, meshes[i]);
      lines := lines + UsemtlLines(meshes[i], material) + faces;
      material := Some(meshes[i].material);
    }
    assert meshes[|meshes|..] == [];
  }

  /** `export_model`: the model's meshes as the first loop leaves them, and the lines
      written, if any. */
  method ExportDedup(objName: string, orders: SetOrders, meshes: seq<Mesh>) returns (normalized: Outcome<seq<Mesh>>, r: Result<seq<ObjLine>, Error>)
    requires OrderLaw(orders)
    ensures normalized == Normalize(meshes)
    ensures r == DedupExport(objName, orders, meshes)
  {
    var corners;
    normalized, corners := NormalizeAll(meshes);
    if normalized.Aborted? {
      return normalized, Err(normalized.error);
    }
    var ms := normalized.state;
    var positions := orders.positions(PositionStream(corners));
    var texcoords := orders.texcoords(TexcoordStream(corners));
    var normals := orders.normals(NormalStream(corners));
    var tables := Tables(IndexMap(positions), IndexMap(texcoords), IndexMap(normals));
    AllResolvable(orders, ms);
    var fLines := WriteFaces(tables, ms);
    r := Ok(Header(objName) + VLines(positions) + VtLines(texcoords) + VnLines(normals) + fLines);
  }

  /** What the importer reads back from the listings: `v x y z` loses the position's `w`,
      `vt u v` the texcoord's third component and `vn x y z` the normal's `w`, which take
      their defaults. */
  function ListedPositions(l: seq<Position>): seq<Position> {
    seq(|l|, i requires 0 <= i < |l| => Position(l[i].x, l[i].y, l[i].z, 1.0))
  }

  function ListedTexcoords(l: seq<Texcoord>): seq<Texcoord> {
    seq(|l|, i requires 0 <= i < |l| => Uvw(l[i].u, l[i].v, 1.0))
  }

  function ListedNormals(l: seq<Position>): seq<Position> {
    seq(|l|, i requires 0 <= i < |l| => Position(l[i].x, l[i].y, l[i].z, 1.0))
  }

  /** No line of `lines` is a `v`, `vt` or `vn` line. */
  predicate NoStreamLines(lines: seq<ObjLine>) {
    forall i :: 0 <= i < |lines| ==> !lines[i].V? && !lines[i].Vt? && !lines[i].Vn?
  }

  lemma {:induction false} NoStreamLinesReadNothing(lines: seq<ObjLine>)
    requires NoStreamLines(lines)
    ensures ObjInterpreter.PositionsOf(lines) == [] && ObjInterpreter.TexcoordsOf(lines) == [] && ObjInterpreter.NormalsOf(lines) == []
    decreases |lines|
  {
    if lines != [] {
      assert forall i :: 0 <= i < |lines| - 1 ==> lines[1..][i] == lines[i + 1];
      NoStreamLinesReadNothing(lines[1..]);
    }
  }

  /** The second loop writes only `usemtl` and `f` lines. */
  lemma {:induction false} FLinesNoStream(t: Tables, meshes: seq<Mesh>, previous: Option<Material>)
    requires forall i :: 0 <= i < |meshes| ==> MeshResolvable(t, meshes[i])
    ensures NoStreamLines(FLines(t, meshes, previous))
    decreases |meshes|
  {
    if meshes != [] {
      assert forall i :: 1 <= i < |meshes| ==> meshes[1..][i - 1] == meshes[i];
      FLinesNoStream(t, meshes[1..], Some(meshes[0].material));
      var a, b, c := UsemtlLines(meshes[0], previous), MeshFaceLines(t, meshes[0]), FLines(t, meshes[1..], Some(meshes[0].material));
      assert NoStreamLines(a) && NoStreamLines(b);
      assert FLines(t, meshes, previous) == a + b + c;
    }
  }

  lemma {:induction false} VLinesRead(l: seq<Position>)
    ensures ObjInterpreter.PositionsOf(VLines(l)) == ListedPositions(l)
    ensures ObjInterpreter.TexcoordsOf(VLines(l)) == [] && ObjInterpreter.NormalsOf(VLines(l)) == []
    decreases |l|
  {
    if l != [] {
      assert VLines(l)[1..] == VLines(l[1..]);
      VLinesRead(l[1..]);
      assert ListedPositions(l) == [ListedPositions(l)[0]] + ListedPositions(l[1..]);
    }
  }

  lemma {:induction false} VtLinesRead(l: seq<Texcoord>)
    ensures ObjInterpreter.TexcoordsOf(VtLines(l)) == ListedTexcoords(l)
    ensures ObjInterpreter.PositionsOf(VtLines(l)) == [] && ObjInterpreter.NormalsOf(VtLines(l)) == []
    decreases |l|
  {
    if l != [] {
      assert VtLines(l)[1..] == VtLines(l[1..]);
      VtLinesRead(l[1..]);
      assert ListedTexcoords(l) == [ListedTexcoords(l)[0]] + ListedTexcoords(l[1..]);
    }
  }

  lemma {:induction false} VnLinesRead(l: seq<Position>)
    ensures ObjInterpreter.NormalsOf(VnLines(l)) == ListedNormals(l)
    ensures ObjInterpreter.PositionsOf(VnLines(l)) == [] && ObjInterpreter.TexcoordsOf(VnLines(l)) == []
    decreases |l|
  {
    if l != [] {
      assert VnLines(l)[1..] == VnLines(l[1..]);
      VnLinesRead(l[1..]);
      assert ListedNormals(l) == [ListedNormals(l)[0]] + ListedNormals(l[1..]);
    }
  }

  /** The written file split into its header, its three listings and its `f_lines`. */
  lemma DedupParts(objName: string, orders: SetOrders, meshes: seq<Mesh>)
    requires OrderLaw(orders)
    ensures var cs := MeshCorners(meshes);
      var lines := DedupLines(objName, orders, meshes);
      var rest := lines[|Header(objName)| + |VLines(PositionListing(orders, cs))| + |VtLines(TexcoordListing(orders, cs))| + |VnLines(NormalListing(orders, cs))|..];
      && lines == Header(objName) + VLines(PositionListing(orders, cs)) + VtLines(TexcoordListing(orders, cs)) + VnLines(NormalListing(orders, cs)) + rest
      && NoStreamLines(Header(objName)) && NoStreamLines(rest)
  {
    var cs := MeshCorners(meshes);
    AllResolvable(orders, meshes);
    FLinesNoStream(TablesOf(orders, cs), meshes, None);
  }

  /** Reading the deduplicated file back: the position, texcoord and normal streams are the
      three listings in hash order, one entry per distinct value, with the components the
      writer drops at their defaults. */
  lemma DedupReadsBack(objName: string, orders: SetOrders, meshes: seq<Mesh>)
    requires OrderLaw(orders)
    ensures var cs := MeshCorners(meshes);
      var lines := DedupLines(objName, orders, meshes);
      && ObjInterpreter.PositionsOf(lines) == ListedPositions(PositionListing(orders, cs))
      && ObjInterpreter.TexcoordsOf(lines) == ListedTexcoords(TexcoordListing(orders, cs))
      && ObjInterpreter.NormalsOf(lines) == ListedNormals(NormalListing(orders, cs))
  {
    var cs := MeshCorners(meshes);
    var h, v, t, n := Header(objName), VLines(PositionListing(orders, cs)), VtLines(TexcoordListing(orders, cs)), VnLines(NormalListing(orders, cs));
    DedupParts(objName, orders, meshes);
    var lines := DedupLines(objName, orders, meshes);
    var f := lines[|h| + |v| + |t| + |n|..];
    NoStreamLinesReadNothing(h);
    NoStreamLinesReadNothing(f);
    VLinesRead(PositionListing(orders, cs));
    VtLinesRead(TexcoordListing(orders, cs));
    VnLinesRead(NormalListing(orders, cs));
    FlatReadback.PositionsOfAppend(h + v + t + n, f);
    FlatReadback.PositionsOfAppend(h + v + t, n);
    FlatReadback.PositionsOfAppend(h + v, t);
    FlatReadback.PositionsOfAppend(h, v);
    FlatReadback.TexcoordsOfAppend(h + v + t + n, f);
    FlatReadback.TexcoordsOfAppend(h + v + t, n);
    FlatReadback.TexcoordsOfAppend(h + v, t);
    FlatReadback.TexcoordsOfAppend(h, v);
    FlatReadback.NormalsOfAppend(h + v + t + n, f);
    FlatReadback.NormalsOfAppend(h + v + t, n);
    FlatReadback.NormalsOfAppend(h + v, t);
    FlatReadback.NormalsOfAppend(h, v);
  }
}
