/** What the importer reads back from the flat writer's lines: the `v`, `vt` and `vn`
    streams hold one entry per written corner, in corner order, and the `f` lines number
    the corners 1, 2, 3, ... so that reference `k` names the `k`-th entry of each stream. */
module FlatReadback {
  import opened Wrappers
  import opened Model
  import opened Directives
  import opened ObjInterpreter
  import opened Exporter
  import opened PixelSpace

  /** The references of the `f` lines of a run of lines, in file order. */
  function RefsOf(lines: seq<ObjLine>): seq<Ref> {
    if lines == [] then [] else (if lines[0].F? then lines[0].refs else []) + RefsOf(lines[1..])
  }

  /** The positions of a run of corners. */
  function Positions(vs: seq<Vertex>): seq<Position> {
    if vs == [] then [] else Positions(vs[..|vs| - 1]) + [vs[|vs| - 1].position]
  }

  /** A corner's texcoord as read back from `vt u/w v/h`: the third component takes its
      default. */
  function ScaledOne(v: Vertex, w: nat, h: nat): Texcoord {
    Uvw(Ratio(v.texcoord.u, w), Ratio(v.texcoord.v, h), 1.0)
  }

  /** The texcoords read back from a run of corners scaled by one image. */
  function Scaled(vs: seq<Vertex>, w: nat, h: nat): seq<Texcoord> {
    if vs == [] then [] else Scaled(vs[..|vs| - 1], w, h) + [ScaledOne(vs[|vs| - 1], w, h)]
  }

  /** A corner's normal as read back from `vn x y z`: the fourth component takes its default. */
  function NormalOne(v: Vertex): Position {
    Position(v.normal.x, v.normal.y, v.normal.z, 1.0)
  }

  /** The normals read back from a run of corners. */
  function Normals(vs: seq<Vertex>): seq<Position> {
    if vs == [] then [] else Normals(vs[..|vs| - 1]) + [NormalOne(vs[|vs| - 1])]
  }

  /** The texcoords read back from the corners of a run of meshes, each scaled by its own
      mesh's image. */
  function ReadTexcoords(meshes: seq<Mesh>): seq<Texcoord> {
    if meshes == [] then []
    else
      var last := meshes[|meshes| - 1];
      ReadTexcoords(meshes[..|meshes| - 1]) + Scaled(FaceCorners(last.faces), ImageWidth(last), ImageHeight(last))
  }

  /** The `k`-th entry read back belongs to the `k`-th corner; with an image of nonzero size
      the texcoord is the corner's divided by the image's width and height. */
  lemma {:induction false} EntriesOfCorners(vs: seq<Vertex>, w: nat, h: nat)
    ensures |Positions(vs)| == |Scaled(vs, w, h)| == |Normals(vs)| == |vs|
    ensures forall k :: 0 <= k < |vs| ==> Positions(vs)[k] == vs[k].position
    ensures forall k :: 0 <= k < |vs| ==> Scaled(vs, w, h)[k] == ScaledOne(vs[k], w, h)
    ensures forall k :: 0 <= k < |vs| ==> Normals(vs)[k] == NormalOne(vs[k])
    ensures w > 0 && h > 0 ==> forall k :: 0 <= k < |vs| ==>
      Scaled(vs, w, h)[k] == Uvw(vs[k].texcoord.u / w as real, vs[k].texcoord.v / h as real, 1.0)
  {
    if vs != [] {
      var prior := vs[..|vs| - 1];
      EntriesOfCorners(prior, w, h);
      assert forall k :: 0 <= k < |prior| ==> prior[k] == vs[k];
    }
  }

  lemma {:induction false} PositionsAppend(a: seq<Vertex>, b: seq<Vertex>)
    ensures Positions(a + b) == Positions(a) + Positions(b)
  {
    if b == [] {
      assert a + b == a;
    } else {
      var prior := b[..|b| - 1];
      assert (a + b)[..|a + b| - 1] == a + prior;
      PositionsAppend(a, prior);
    }
  }

  lemma {:induction false} ScaledAppend(a: seq<Vertex>, b: seq<Vertex>, w: nat, h: nat)
    ensures Scaled(a + b, w, h) == Scaled(a, w, h) + Scaled(b, w, h)
  {
    if b == [] {
      assert a + b == a;
    } else {
      var prior := b[..|b| - 1];
      assert (a + b)[..|a + b| - 1] == a + prior;
      ScaledAppend(a, prior, w, h);
    }
  }

  lemma {:induction false} NormalsAppend(a: seq<Vertex>, b: seq<Vertex>)
    ensures Normals(a + b) == Normals(a) + Normals(b)
  {
    if b == [] {
      assert a + b == a;
    } else {
      var prior := b[..|b| - 1];
      assert (a + b)[..|a + b| - 1] == a + prior;
      NormalsAppend(a, prior);
    }
  }

  lemma RefsFromAppend(index: Index, n: nat, k: nat)
    ensures RefsFrom(index, n) + RefsFrom(index + n, k) == RefsFrom(index, n + k)
  {
  }

  /** Each stream of a run of lines split at any point. */
  lemma {:induction false} PositionsOfAppend(a: seq<ObjLine>, b: seq<ObjLine>)
    ensures PositionsOf(a + b) == PositionsOf(a) + PositionsOf(b)
  {
    if a != [] {
      assert (a + b)[1..] == a[1..] + b;
      PositionsOfAppend(a[1..], b);
    } else {
      assert a + b == b;
    }
  }

  lemma {:induction false} TexcoordsOfAppend(a: seq<ObjLine>, b: seq<ObjLine>)
    ensures TexcoordsOf(a + b) == TexcoordsOf(a) + TexcoordsOf(b)
  {
    if a != [] {
      assert (a + b)[1..] == a[1..] + b;
      TexcoordsOfAppend(a[1..], b);
    } else {
      assert a + b == b;
    }
  }

  lemma {:induction false} NormalsOfAppend(a: seq<ObjLine>, b: seq<ObjLine>)
    ensures NormalsOf(a + b) == NormalsOf(a) + NormalsOf(b)
  {
    if a != [] {
      assert (a + b)[1..] == a[1..] + b;
      NormalsOfAppend(a[1..], b);
    } else {
      assert a + b == b;
    }
  }

  lemma {:induction false} RefsOfAppend(a: seq<ObjLine>, b: seq<ObjLine>)
    ensures RefsOf(a + b) == RefsOf(a) + RefsOf(b)
  {
    if a != [] {
      assert (a + b)[1..] == a[1..] + b;
      RefsOfAppend(a[1..], b);
    } else {
      assert a + b == b;
    }
  }

  /** `lines` read back exactly the given stream. These name the equations the lemmas below
      pass around, so that each use unfolds the stream function only once. */
  predicate ReadsPositions(lines: seq<ObjLine>, s: seq<Position>) {
    PositionsOf(lines) == s
  }

  predicate ReadsTexcoords(lines: seq<ObjLine>, s: seq<Texcoord>) {
    TexcoordsOf(lines) == s
  }

  predicate ReadsNormals(lines: seq<ObjLine>, s: seq<Position>) {
    NormalsOf(lines) == s
  }

  predicate ReadsRefs(lines: seq<ObjLine>, s: seq<Ref>) {
    RefsOf(lines) == s
  }

  /** A run of lines made of two parts reads the stream of the first part and then that of
      the second. */
  lemma PositionsJoin(l1: seq<ObjLine>, l2: seq<ObjLine>, s1: seq<Position>, s2: seq<Position>)
    requires ReadsPositions(l1, s1) && ReadsPositions(l2, s2)
    ensures ReadsPositions(l1 + l2, s1 + s2)
  {
    PositionsOfAppend(l1, l2);
  }

  lemma TexcoordsJoin(l1: seq<ObjLine>, l2: seq<ObjLine>, s1: seq<Texcoord>, s2: seq<Texcoord>)
    requires ReadsTexcoords(l1, s1) && ReadsTexcoords(l2, s2)
    ensures ReadsTexcoords(l1 + l2, s1 + s2)
  {
    TexcoordsOfAppend(l1, l2);
  }

  lemma NormalsJoin(l1: seq<ObjLine>, l2: seq<ObjLine>, s1: seq<Position>, s2: seq<Position>)
    requires ReadsNormals(l1, s1) && ReadsNormals(l2, s2)
    ensures ReadsNormals(l1 + l2, s1 + s2)
  {
    NormalsOfAppend(l1, l2);
  }

  lemma RefsJoin(l1: seq<ObjLine>, l2: seq<ObjLine>, s1: seq<Ref>, s2: seq<Ref>)
    requires ReadsRefs(l1, s1) && ReadsRefs(l2, s2)
    ensures ReadsRefs(l1 + l2, s1 + s2)
  {
    RefsOfAppend(l1, l2);
  }

  /** The same for the lines of two runs of corners, read as the entries of the joined run. */
  lemma PositionsStep(l1: seq<ObjLine>, l2: seq<ObjLine>, a: seq<Vertex>, b: seq<Vertex>)
    requires ReadsPositions(l1, Positions(a)) && ReadsPositions(l2, Positions(b))
    ensures ReadsPositions(l1 + l2, Positions(a + b))
  {
    PositionsJoin(l1, l2, Positions(a), Positions(b));
    PositionsAppend(a, b);
  }

  lemma TexcoordsStep(l1: seq<ObjLine>, l2: seq<ObjLine>, a: seq<Vertex>, b: seq<Vertex>, w: nat, h: nat)
    requires ReadsTexcoords(l1, Scaled(a, w, h)) && ReadsTexcoords(l2, Scaled(b, w, h))
    ensures ReadsTexcoords(l1 + l2, Scaled(a + b, w, h))
  {
    TexcoordsJoin(l1, l2, Scaled(a, w, h), Scaled(b, w, h));
    ScaledAppend(a, b, w, h);
  }

  lemma NormalsStep(l1: seq<ObjLine>, l2: seq<ObjLine>, a: seq<Vertex>, b: seq<Vertex>)
    requires ReadsNormals(l1, Normals(a)) && ReadsNormals(l2, Normals(b))
    ensures ReadsNormals(l1 + l2, Normals(a + b))
  {
    NormalsJoin(l1, l2, Normals(a), Normals(b));
    NormalsAppend(a, b);
  }

  lemma RefsStep(l1: seq<ObjLine>, l2: seq<ObjLine>, index: Index, n: nat, k: nat, total: nat)
    requires total == n + k
    requires ReadsRefs(l1, RefsFrom(index, n)) && ReadsRefs(l2, RefsFrom(index + n, k))
    ensures ReadsRefs(l1 + l2, RefsFrom(index, total))
  {
    RefsJoin(l1, l2, RefsFrom(index, n), RefsFrom(index + n, k));
    RefsFromAppend(index, n, k);
  }

  /** The streams of a single line. */
  lemma OneLine(l: ObjLine)
    ensures ReadsPositions([l], LinePositions(l))
    ensures ReadsTexcoords([l], LineTexcoords(l))
    ensures ReadsNormals([l], LineNormals(l))
    ensures ReadsRefs([l], if l.F? then l.refs else [])
  {
    assert [l][1..] == [];
  }

  /** The streams of the lines of one corner: its `v` line gives back its position. */
  lemma VertexStreams(v: Vertex, w: nat, h: nat)
    ensures ReadsPositions(VertexLines(v, w, h), [v.position])
    ensures ReadsTexcoords(VertexLines(v, w, h), [ScaledOne(v, w, h)])
    ensures ReadsNormals(VertexLines(v, w, h), [NormalOne(v)])
    ensures ReadsRefs(VertexLines(v, w, h), [])
  {
    var a, b, c := V(PositionValues(v.position)), Vt([Ratio(v.texcoord.u, w), Ratio(v.texcoord.v, h)]), Vn([v.normal.x, v.normal.y, v.normal.z]);
    var lines := VertexLines(v, w, h);
    assert lines == [a] + ([b] + [c]);
    assert MakePosition(PositionValues(v.position)) == v.position;
    OneLine(a);
    OneLine(b);
    OneLine(c);
    PositionsJoin([b], [c], [], []);
    PositionsJoin([a], [b] + [c], [v.position], [] + []);
    TexcoordsJoin([b], [c], [ScaledOne(v, w, h)], []);
    TexcoordsJoin([a], [b] + [c], [], [ScaledOne(v, w, h)] + []);
    NormalsJoin([b], [c], [], [NormalOne(v)]);
    NormalsJoin([a], [b] + [c], [], [] + [NormalOne(v)]);
    RefsJoin([b], [c], [], []);
    RefsJoin([a], [b] + [c], [], [] + []);
  }

  /** The streams of the lines of a run of corners. */
  lemma {:induction false} CornerStreams(vs: seq<Vertex>, w: nat, h: nat)
    ensures ReadsPositions(CornerLines(vs, w, h), Positions(vs))
    ensures ReadsTexcoords(CornerLines(vs, w, h), Scaled(vs, w, h))
    ensures ReadsNormals(CornerLines(vs, w, h), Normals(vs))
    ensures ReadsRefs(CornerLines(vs, w, h), [])
  {
    if vs != [] {
      var prior, last := vs[..|vs| - 1], vs[|vs| - 1];
      var lines, l1, l2 := CornerLines(vs, w, h), CornerLines(prior, w, h), VertexLines(last, w, h);
      assert lines == l1 + l2;
      CornerStreams(prior, w, h);
      VertexStreams(last, w, h);
      PositionsJoin(l1, l2, Positions(prior), [last.position]);
      TexcoordsJoin(l1, l2, Scaled(prior, w, h), [ScaledOne(last, w, h)]);
      NormalsJoin(l1, l2, Normals(prior), [NormalOne(last)]);
      RefsJoin(l1, l2, [], []);
    }
  }

  /** The streams of the lines of one face, of the faces of one mesh, of one mesh and of a
      run of meshes: the entries of their corners in order, and their references numbered
      on from `index`. */
  lemma FacePositions(face: Face, w: nat, h: nat, index: Index)
    ensures ReadsPositions(FaceLines(face, w, h, index), Positions(face.vertexes))
  {
    var f := F(RefsFrom(index, |face.vertexes|));
    var c := CornerLines(face.vertexes, w, h);
    assert FaceLines(face, w, h, index) == c + [f];
    OneLine(f);
    CornerStreams(face.vertexes, w, h);
    PositionsJoin(c, [f], Positions(face.vertexes), []);
  }

  lemma FaceTexcoords(face: Face, w: nat, h: nat, index: Index)
    ensures ReadsTexcoords(FaceLines(face, w, h, index), Scaled(face.vertexes, w, h))
  {
    var f := F(RefsFrom(index, |face.vertexes|));
    var c := CornerLines(face.vertexes, w, h);
    assert FaceLines(face, w, h, index) == c + [f];
    OneLine(f);
    CornerStreams(face.vertexes, w, h);
    TexcoordsJoin(c, [f], Scaled(face.vertexes, w, h), []);
  }

  lemma FaceNormals(face: Face, w: nat, h: nat, index: Index)
    ensures ReadsNormals(FaceLines(face, w, h, index), Normals(face.vertexes))
  {
    var f := F(RefsFrom(index, |face.vertexes|));
    var c := CornerLines(face.vertexes, w, h);
    assert FaceLines(face, w, h, index) == c + [f];
    OneLine(f);
    CornerStreams(face.vertexes, w, h);
    NormalsJoin(c, [f], Normals(face.vertexes), []);
  }

  lemma FaceRefs(face: Face, w: nat, h: nat, index: Index)
    ensures ReadsRefs(FaceLines(face, w, h, index), RefsFrom(index, |face.vertexes|))
  {
    var f := F(RefsFrom(index, |face.vertexes|));
    var c := CornerLines(face.vertexes, w, h);
    assert FaceLines(face, w, h, index) == c + [f];
    OneLine(f);
    CornerStreams(face.vertexes, w, h);
    RefsJoin(c, [f], [], f.refs);
  }

  lemma {:induction false} FacesPositions(faces: seq<Face>, w: nat, h: nat, index: Index)
    ensures ReadsPositions(FacesLines(faces, w, h, index), Positions(FaceCorners(faces)))
  {
    if faces != [] {
      var prior, last := faces[..|faces| - 1], faces[|faces| - 1];
      var a, b := FaceCorners(prior), last.vertexes;
      var l1, l2 := FacesLines(prior, w, h, index), FaceLines(last, w, h, index + |a|);
      assert FaceCorners(faces) == a + b;
      assert FacesLines(faces, w, h, index) == l1 + l2;
      FacesPositions(prior, w, h, index);
      FacePositions(last, w, h, index + |a|);
      PositionsStep(l1, l2, a, b);
    }
  }

  lemma {:induction false} FacesTexcoords(faces: seq<Face>, w: nat, h: nat, index: Index)
    ensures ReadsTexcoords(FacesLines(faces, w, h, index), Scaled(FaceCorners(faces), w, h))
  {
    if faces != [] {
      var prior, last := faces[..|faces| - 1], faces[|faces| - 1];
      var a, b := FaceCorners(prior), last.vertexes;
      var l1, l2 := FacesLines(prior, w, h, index), FaceLines(last, w, h, index + |a|);
      assert FaceCorners(faces) == a + b;
      assert FacesLines(faces, w, h, index) == l1 + l2;
      FacesTexcoords(prior, w, h, index);
      FaceTexcoords(last, w, h, index + |a|);
      TexcoordsStep(l1, l2, a, b, w, h);
    }
  }

  lemma {:induction false} FacesNormals(faces: seq<Face>, w: nat, h: nat, index: Index)
    ensures ReadsNormals(FacesLines(faces, w, h, index), Normals(FaceCorners(faces)))
  {
    if faces != [] {
      var prior, last := faces[..|faces| - 1], faces[|faces| - 1];
      var a, b := FaceCorners(prior), last.vertexes;
      var l1, l2 := FacesLines(prior, w, h, index), FaceLines(last, w, h, index + |a|);
      assert FaceCorners(faces) == a + b;
      assert FacesLines(faces, w, h, index) == l1 + l2;
      FacesNormals(prior, w, h, index);
      FaceNormals(last, w, h, index + |a|);
      NormalsStep(l1, l2, a, b);
    }
  }

  lemma {:induction false} FacesRefs(faces: seq<Face>, w: nat, h: nat, index: Index)
    ensures ReadsRefs(FacesLines(faces, w, h, index), RefsFrom(index, |FaceCorners(faces)|))
  {
    if faces != [] {
      var prior, last := faces[..|faces| - 1], faces[|faces| - 1];
      var a, b := FaceCorners(prior), last.vertexes;
      var l1, l2 := FacesLines(prior, w, h, index), FaceLines(last, w, h, index + |a|);
      assert FaceCorners(faces) == a + b;
      assert FacesLines(faces, w, h, index) == l1 + l2;
      FacesRefs(prior, w, h, index);
      FaceRefs(last, w, h, index + |a|);
      RefsStep(l1, l2, index, |a|, |b|, |FaceCorners(faces)|);
    }
  }

  lemma MeshPositions(mesh: Mesh, index: Index)
    ensures ReadsPositions(MeshLines(mesh, index), Positions(FaceCorners(mesh.faces)))
  {
    var head := Usemtl([mesh.material.name]);
    var l := FacesLines(mesh.faces, ImageWidth(mesh), ImageHeight(mesh), index);
    assert MeshLines(mesh, index) == [head] + l;
    OneLine(head);
    FacesPositions(mesh.faces, ImageWidth(mesh), ImageHeight(mesh), index);
    PositionsJoin([head], l, [], Positions(FaceCorners(mesh.faces)));
  }

  lemma MeshTexcoords(mesh: Mesh, index: Index)
    ensures ReadsTexcoords(MeshLines(mesh, index), Scaled(FaceCorners(mesh.faces), ImageWidth(mesh), ImageHeight(mesh)))
  {
    var head := Usemtl([mesh.material.name]);
    var l := FacesLines(mesh.faces, ImageWidth(mesh), ImageHeight(mesh), index);
    assert MeshLines(mesh, index) == [head] + l;
    OneLine(head);
    FacesTexcoords(mesh.faces, ImageWidth(mesh), ImageHeight(mesh), index);
    TexcoordsJoin([head], l, [], Scaled(FaceCorners(mesh.faces), ImageWidth(mesh), ImageHeight(mesh)));
  }

  lemma MeshNormals(mesh: Mesh, index: Index)
    ensures ReadsNormals(MeshLines(mesh, index), Normals(FaceCorners(mesh.faces)))
  {
    var head := Usemtl([mesh.material.name]);
    var l := FacesLines(mesh.faces, ImageWidth(mesh), ImageHeight(mesh), index);
    assert MeshLines(mesh, index) == [head] + l;
    OneLine(head);
    FacesNormals(mesh.faces, ImageWidth(mesh), ImageHeight(mesh), index);
    NormalsJoin([head], l, [], Normals(FaceCorners(mesh.faces)));
  }

  lemma MeshRefs(mesh: Mesh, index: Index)
    ensures ReadsRefs(MeshLines(mesh, index), RefsFrom(index, |FaceCorners(mesh.faces)|))
  {
    var head := Usemtl([mesh.material.name]);
    var l := FacesLines(mesh.faces, ImageWidth(mesh), ImageHeight(mesh), index);
    assert MeshLines(mesh, index) == [head] + l;
    OneLine(head);
    FacesRefs(mesh.faces, ImageWidth(mesh), ImageHeight(mesh), index);
    RefsJoin([head], l, [], RefsFrom(index, |FaceCorners(mesh.faces)|));
  }

  lemma {:induction false} MeshesPositions(meshes: seq<Mesh>, index: Index)
    ensures ReadsPositions(MeshesLines(meshes, index), Positions(MeshCorners(meshes)))
  {
    if meshes != [] {
      var prior, last := meshes[..|meshes| - 1], meshes[|meshes| - 1];
      var a, b := MeshCorners(prior), FaceCorners(last.faces);
      var l1, l2 := MeshesLines(prior, index), MeshLines(last, index + |a|);
      assert MeshCorners(meshes) == a + b;
      assert MeshesLines(meshes, index) == l1 + l2;
      MeshesPositions(prior, index);
      MeshPositions(last, index + |a|);
      PositionsStep(l1, l2, a, b);
    }
  }

  lemma {:induction false} MeshesTexcoords(meshes: seq<Mesh>, index: Index)
    ensures ReadsTexcoords(MeshesLines(meshes, index), ReadTexcoords(meshes))
  {
    if meshes != [] {
      var prior, last := meshes[..|meshes| - 1], meshes[|meshes| - 1];
      var a, b := MeshCorners(prior), FaceCorners(last.faces);
      var l1, l2 := MeshesLines(prior, index), MeshLines(last, index + |a|);
      assert MeshCorners(meshes) == a + b;
      assert MeshesLines(meshes, index) == l1 + l2;
      MeshesTexcoords(prior, index);
      MeshTexcoords(last, index + |a|);
      TexcoordsJoin(l1, l2, ReadTexcoords(prior), Scaled(b, ImageWidth(last), ImageHeight(last)));
    }
  }

  lemma {:induction false} MeshesNormals(meshes: seq<Mesh>, index: Index)
    ensures ReadsNormals(MeshesLines(meshes, index), Normals(MeshCorners(meshes)))
  {
    if meshes != [] {
      var prior, last := meshes[..|meshes| - 1], meshes[|meshes| - 1];
      var a, b := MeshCorners(prior), FaceCorners(last.faces);
      var l1, l2 := MeshesLines(prior, index), MeshLines(last, index + |a|);
      assert MeshCorners(meshes) == a + b;
      assert MeshesLines(meshes, index) == l1 + l2;
      MeshesNormals(prior, index);
      MeshNormals(last, index + |a|);
      NormalsStep(l1, l2, a, b);
    }
  }

  lemma {:induction false} MeshesRefs(meshes: seq<Mesh>, index: Index)
    ensures ReadsRefs(MeshesLines(meshes, index), RefsFrom(index, |MeshCorners(meshes)|))
  {
    if meshes != [] {
      var prior, last := meshes[..|meshes| - 1], meshes[|meshes| - 1];
      var a, b := MeshCorners(prior), FaceCorners(last.faces);
      var l1, l2 := MeshesLines(prior, index), MeshLines(last, index + |a|);
      assert MeshCorners(meshes) == a + b;
      assert MeshesLines(meshes, index) == l1 + l2;
      MeshesRefs(prior, index);
      MeshRefs(last, index + |a|);
      RefsStep(l1, l2, index, |a|, |b|, |MeshCorners(meshes)|);
    }
  }

  /** Reading the flat writer's output back: the position, texcoord and normal streams hold
      one entry per corner of the model, in order; the normal's fourth component and the
      texcoord's third come back as their defaults; and the `f` lines refer to the corners
      as 1, 2, 3, ... in the same order, so that the `k`-th reference names the `k`-th entry
      of all three streams. */
  lemma FlatReadsBack(objName: string, m: Model)
    requires FlatExport(objName, m).Ok?
    ensures var lines := FlatExport(objName, m).value;
      var vs := MeshCorners(m.meshes);
      && PositionsOf(lines) == Positions(vs)
      && TexcoordsOf(lines) == ReadTexcoords(m.meshes)
      && NormalsOf(lines) == Normals(vs)
      && RefsOf(lines) == RefsFrom(1, |vs|)
  {
    var lines := FlatExport(objName, m).value;
    var header, body := Header(objName), MeshesLines(m.meshes, 1);
    assert lines == header + body;
    assert header == [header[0]] + [header[1]];
    OneLine(header[0]);
    OneLine(header[1]);
    PositionsJoin([header[0]], [header[1]], [], []);
    MeshesPositions(m.meshes, 1);
    PositionsJoin(header, body, [], Positions(MeshCorners(m.meshes)));
    TexcoordsJoin([header[0]], [header[1]], [], []);
    MeshesTexcoords(m.meshes, 1);
    TexcoordsJoin(header, body, [], ReadTexcoords(m.meshes));
    NormalsJoin([header[0]], [header[1]], [], []);
    MeshesNormals(m.meshes, 1);
    NormalsJoin(header, body, [], Normals(MeshCorners(m.meshes)));
    RefsJoin([header[0]], [header[1]], [], []);
    MeshesRefs(m.meshes, 1);
    RefsJoin(header, body, [], RefsFrom(1, |MeshCorners(m.meshes)|));
  }

  /** A corner the import scaled to pixels is read back from the flat writer's `vt` line with
      the `u` and `v` the geometry file gave it. */
  lemma FlatUndoesPixel(mesh: Mesh, j: nat, k: nat)
    requires mesh.material.texture.Some? && ImageWidth(mesh) > 0 && ImageHeight(mesh) > 0
    requires j < |mesh.faces| && k < |mesh.faces[j].vertexes|
    ensures var p := PixelMesh(mesh);
      var t := mesh.faces[j].vertexes[k].texcoord;
      ScaledOne(p.faces[j].vertexes[k], ImageWidth(p), ImageHeight(p)) == Uvw(t.u, t.v, 1.0)
  {
    PixelCorner(mesh, j, k);
    PixelRoundTrip(mesh.faces[j].vertexes[k].texcoord, ImageWidth(mesh), ImageHeight(mesh));
  }
}
