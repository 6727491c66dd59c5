/** The pixel-space post-pass at the end of `Wavefront.parse`: every visited corner's texcoord
    becomes the pair `(u * width, v * height)` of its mesh's image. The two variants differ in
    which meshes they visit and what happens without a texture; the rewrite of one mesh is
    shared (combiner230/importers/wavefront.py:68-75, minify230/importers/wavefront.py:72-77). */
module PixelSpace {
  import opened Model
  import opened Exporter

  /** `(texcoord[0] * width, texcoord[1] * height)`: a pair, whatever the texcoord was. */
  function ScaleTexcoord(t: Texcoord, w: nat, h: nat): Texcoord {
    Uv(t.u * w as real, t.v * h as real)
  }

  /** `vertex.texcoord = ...` for every vertex of a face. */
  function ScaleFace(face: Face, w: nat, h: nat): Face {
    Face(seq(|face.vertexes|, k requires 0 <= k < |face.vertexes| =>
      face.vertexes[k].(texcoord := ScaleTexcoord(face.vertexes[k].texcoord, w, h))))
  }

  /** The same for every face of a mesh. */
  function ScaleFaces(faces: seq<Face>, w: nat, h: nat): seq<Face> {
    seq(|faces|, j requires 0 <= j < |faces| => ScaleFace(faces[j], w, h))
  }

  /** One mesh after the post-pass: scaled by its texture's image, or left alone when it has
      no texture. */
  function PixelMesh(mesh: Mesh): Mesh {
    if mesh.material.texture.None? then mesh
    else mesh.(faces := ScaleFaces(mesh.faces, ImageWidth(mesh), ImageHeight(mesh)))
  }

  /** The post-pass keeps every mesh's material, faces, corners, positions and normals, and
      scales each corner's texcoord exactly once when the mesh has a texture. */
  lemma PixelCorner(mesh: Mesh, j: nat, k: nat)
    requires j < |mesh.faces| && k < |mesh.faces[j].vertexes|
    ensures var r := PixelMesh(mesh);
      var v := mesh.faces[j].vertexes[k];
      && r.material == mesh.material && |r.faces| == |mesh.faces|
      && |r.faces[j].vertexes| == |mesh.faces[j].vertexes|
      && r.faces[j].vertexes[k].position == v.position
      && r.faces[j].vertexes[k].normal == v.normal
      && r.faces[j].vertexes[k].texcoord ==
           if mesh.material.texture.None? then v.texcoord
           else Uv(v.texcoord.u * ImageWidth(mesh) as real, v.texcoord.v * ImageHeight(mesh) as real)
  {
  }

  /** The writers divide by the same image size the post-pass multiplied by, so a corner
      scaled on import is written back with the `u` and `v` it was read with. */
  lemma PixelRoundTrip(t: Texcoord, w: nat, h: nat)
    requires w > 0 && h > 0
    ensures Ratio(ScaleTexcoord(t, w, h).u, w) == t.u
    ensures Ratio(ScaleTexcoord(t, w, h).v, h) == t.v
  {
    var width, height := w as real, h as real;
    assert ScaleTexcoord(t, w, h).u == t.u * width && ScaleTexcoord(t, w, h).v == t.v * height;
    assert t.u * width / width == t.u;
    assert t.v * height / height == t.v;
  }

  /** The scan of the post-pass that stops at the first corner: whether the faces have one. */
  method HasCorner(faces: seq<Face>) returns (found: bool)
    ensures found <==> FaceCorners(faces) != []
  {
    FaceCornersEmpty(faces);
    for j := 0 to |faces|
      invariant forall j' :: 0 <= j' < j ==> faces[j'].vertexes == []
    {
      if faces[j].vertexes != [] {
        return true;
      }
    }
    return false;
  }

  /** The nested loops over faces and vertexes, reassigning each texcoord in place. */
  method ScaleFaceList(faces: seq<Face>, w: nat, h: nat) returns (r: seq<Face>)
    ensures r == ScaleFaces(faces, w, h)
  {
    r := faces;
    for j := 0 to |faces|
      invariant |r| == |faces|
      invariant forall j' :: 0 <= j' < j ==> r[j'] == ScaleFace(faces[j'], w, h)
      invariant r[j..] == faces[j..]
    {
      var vertexes := r[j].vertexes;
      for k := 0 to |vertexes|
        invariant |vertexes| == |faces[j].vertexes|
        invariant forall k' :: 0 <= k' < k ==> vertexes[k'] == faces[j].vertexes[k'].(texcoord := ScaleTexcoord(faces[j].vertexes[k'].texcoord, w, h))
        invariant vertexes[k..] == faces[j].vertexes[k..]
      {
        vertexes := vertexes[k := vertexes[k].(texcoord := ScaleTexcoord(vertexes[k].texcoord, w, h))];
      }
      assert vertexes == ScaleFace(faces[j], w, h).vertexes;
      r := r[j := Face(vertexes)];
    }
  }
}
