/** The scene data shared by the importer, the minifier and the exporters
    (minify230/model.py; the combiner variant imports a model of the same shape). */
module Model {
  import opened Wrappers
  import opened Dicts

  datatype Position = Position(x: real, y: real, z: real, w: real)

  /** A texture coordinate. The Texcoord constructor builds a (u, v, w) triple; the pixel-space
      post-pass, the atlas remap and the exporter's normalisation store a bare (u, v) pair. */
  datatype Texcoord = Uvw(u: real, v: real, w: real) | Uv(u: real, v: real)

  datatype Color = Color(red: real, green: real, blue: real, alpha: real)

  /** One crop of a source texture (left, top, right, bottom, in image rows counted from the
      top) pasted with its top-left corner at (x, y). */
  datatype Paste = Paste(source: string, left: real, top: real, right: real, bottom: real, x: nat, y: nat)

  /** What the model keeps of a raster: its size and, for the atlas, the crops pasted onto the
      blank canvas in order. Pixel contents are not modelled. */
  datatype Image = Image(width: nat, height: nat, pastes: seq<Paste>)

  /** A texture is identified by its name: the minifier keys its bounding boxes by name. */
  datatype Texture = Texture(name: string, image: Image)

  datatype Material = Material(name: string, diffuse: Color, ambient: Color, texture: Option<Texture>)

  datatype Vertex = Vertex(position: Position, texcoord: Texcoord, normal: Position)

  datatype Face = Face(vertexes: seq<Vertex>)

  datatype Mesh = Mesh(material: Material, faces: seq<Face>)

  datatype Model = Model(meshes: seq<Mesh>, materials: Dict<Material>, textures: seq<Texture>)

  function PositionValues(p: Position): seq<real> { [p.x, p.y, p.z, p.w] }

  function TexcoordValues(t: Texcoord): seq<real> {
    match t
    case Uvw(u, v, w) => [u, v, w]
    case Uv(u, v) => [u, v]
  }

  function ColorValues(c: Color): seq<real> { [c.red, c.green, c.blue, c.alpha] }

  /** The keyword defaults of Position(x=0.0, y=0.0, z=0.0, w=1.0). */
  const PositionDefaults: seq<real> := [0.0, 0.0, 0.0, 1.0]

  /** The keyword defaults of Texcoord(u=0.0, v=0.0, w=1.0). */
  const TexcoordDefaults: seq<real> := [0.0, 0.0, 1.0]

  /** The keyword defaults of Color(red=1.0, green=1.0, blue=1.0, alpha=1.0). */
  const ColorDefaults: seq<real> := [1.0, 1.0, 1.0, 1.0]

  /** The value at `i`, or `default` when fewer values were given. */
  function Arg(values: seq<real>, i: nat, default: real): real {
    if i < |values| then values[i] else default
  }

  /** Position(*values): the given values fill the leading components, the defaults the rest. */
  function MakePosition(values: seq<real>): Position
    requires |values| <= 4
  {
    Position(Arg(values, 0, 0.0), Arg(values, 1, 0.0), Arg(values, 2, 0.0), Arg(values, 3, 1.0))
  }

  /** Texcoord(*values): the given values fill the leading components, the defaults the rest. */
  function MakeTexcoord(values: seq<real>): Texcoord
    requires |values| <= 3
  {
    Uvw(Arg(values, 0, 0.0), Arg(values, 1, 0.0), Arg(values, 2, 1.0))
  }

  /** Color(*values): the given values fill the leading components, the defaults the rest. */
  function MakeColor(values: seq<real>): Color
    requires |values| <= 4
  {
    Color(Arg(values, 0, 1.0), Arg(values, 1, 1.0), Arg(values, 2, 1.0), Arg(values, 3, 1.0))
  }

  /** Each constructor keeps the values it is given, in order, and takes its keyword
      defaults for the components left out. */
  lemma PositionArgs(values: seq<real>)
    requires |values| <= 4
    ensures PositionValues(MakePosition(values)) == values + PositionDefaults[|values|..]
  {
  }

  lemma TexcoordArgs(values: seq<real>)
    requires |values| <= 3
    ensures MakeTexcoord(values).Uvw?
    ensures TexcoordValues(MakeTexcoord(values)) == values + TexcoordDefaults[|values|..]
  {
  }

  lemma ColorArgs(values: seq<real>)
    requires |values| <= 4
    ensures ColorValues(MakeColor(values)) == values + ColorDefaults[|values|..]
  {
  }

  /** Vertex(position, texcoord): the normal takes its default, Position(). */
  function MakeVertex(position: Position, texcoord: Texcoord): Vertex {
    Vertex(position, texcoord, MakePosition([]))
  }

  /** Material(name): default colours and no texture. */
  function NewMaterial(name: string): Material {
    Material(name, MakeColor([]), MakeColor([]), None)
  }

  /** Mesh(material): no faces yet. */
  function NewMesh(material: Material): Mesh {
    Mesh(material, [])
  }

  /** Model(): no meshes, materials or textures. */
  function EmptyModel(): Model {
    Model([], EmptyDict(), [])
  }

  /** The defaults of the tuple constructors and of the dataclass fields. */
  lemma Defaults(name: string, material: Material)
    ensures MakePosition([]) == Position(0.0, 0.0, 0.0, 1.0)
    ensures MakeTexcoord([]) == Uvw(0.0, 0.0, 1.0)
    ensures MakeColor([]) == Color(1.0, 1.0, 1.0, 1.0)
    ensures MakePosition([1.0, 2.0, 3.0]).w == 1.0
    ensures MakeTexcoord([0.5]) == Uvw(0.5, 0.0, 1.0)
    ensures var m := NewMaterial(name); m.texture == None && m.diffuse == m.ambient == MakeColor([])
    ensures var v := MakeVertex(MakePosition([]), MakeTexcoord([])); v.normal == v.position == Position(0.0, 0.0, 0.0, 1.0)
    ensures NewMesh(material).faces == []
    ensures var m := EmptyModel(); m.meshes == [] && m.materials.keys == [] && m.materials.items == map[] && m.textures == []
  {
  }
}
