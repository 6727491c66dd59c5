/** `Wavefront.load_material` and `Wavefront.load_texture`, identical in both variants
    (combiner230/importers/wavefront.py:157-178, minify230/importers/wavefront.py:120-140). */
module MaterialLoader {
  import opened Wrappers
  import opened Errors
  import opened Dicts
  import opened Model
  import opened Directives

  /** `Path.name`: what follows the last '/'. */
  function BaseName(path: string): (name: string)
    ensures '/' !in name
    ensures |name| <= |path| && name == path[|path| - |name|..]
    ensures name == path || path[|path| - |name| - 1] == '/'
    decreases |path|
  {
    if path == [] || path[|path| - 1] == '/' then []
    else
      var name := BaseName(path[..|path| - 1]) + [path[|path| - 1]];
      assert path[..|path| - 1][|path| - 1 - (|name| - 1)..] + [path[|path| - 1]] == path[|path| - |name|..];
      name
  }

  /** The loader's state: the model it updates and the material cursor (the local `material`),
      named by the key the cursor material is registered under. */
  datatype MtlState = MtlState(model: Model, current: Option<string>)

  /** The cursor, once set, names a registered material. */
  ghost predicate CursorValid(st: MtlState) {
    st.current.Some? ==> st.current.value in st.model.materials.items
  }

  /** The material the cursor designates. */
  function Current(st: MtlState): Material
    requires CursorValid(st) && st.current.Some?
  {
    st.model.materials.items[st.current.value]
  }

  /** Replaces the material the cursor designates. */
  function SetCurrent(st: MtlState, m: Material): (r: MtlState)
    requires CursorValid(st) && st.current.Some?
    ensures CursorValid(r)
  {
    st.(model := st.model.(materials := Put(st.model.materials, st.current.value, m)))
  }

  /** `Texture(path.name, Image.open(path))`: the texture `load_texture` appends. */
  function OpenTexture(images: map<string, Image>, path: string): Texture
    requires path in images
  {
    Texture(BaseName(path), images[path])
  }

  /** One line of the material file. Python evaluates the right-hand side of
      `material.texture = self.load_texture(...)` before it finds `material` unbound, so a
      `map_Kd` before any `newmtl` still appends its texture. */
  function MtlStep(st: MtlState, images: map<string, Image>, line: MtlLine): (o: Outcome<MtlState>)
    requires CursorValid(st)
    ensures CursorValid(o.state)
  {
    match line
    case MtlComment => Done(st)
    case MtlUnknown => Done(st)
    case Newmtl(names) =>
      if |names| != 1 then Done(st)
      else Done(MtlState(st.model.(materials := Put(st.model.materials, names[0], NewMaterial(names[0]))), Some(names[0])))
    case Kd(values) =>
      if |values| > 4 then Aborted(st, TooManyValues)
      else if st.current.None? then Aborted(st, NoActiveMaterial)
      else Done(SetCurrent(st, Current(st).(diffuse := MakeColor(values))))
    case Ka(values) =>
      if |values| > 4 then Aborted(st, TooManyValues)
      else if st.current.None? then Aborted(st, NoActiveMaterial)
      else Done(SetCurrent(st, Current(st).(ambient := MakeColor(values))))
    case MapKd(path) =>
      if path !in images then Aborted(st, FileNotFound(path))
      else
        var texture := OpenTexture(images, path);
        var loaded := st.(model := st.model.(textures := st.model.textures + [texture]));
        if st.current.None? then Aborted(loaded, NoActiveMaterial)
        else Done(SetCurrent(loaded, Current(loaded).(texture := Some(texture))))
  }

  /** The loop over the lines of one material file, stopping at the first failure. */
  function LoadLines(st: MtlState, images: map<string, Image>, lines: seq<MtlLine>): (o: Outcome<MtlState>)
    requires CursorValid(st)
    ensures CursorValid(o.state)
    decreases |lines|
  {
    if lines == [] then Done(st)
    else
      match MtlStep(st, images, lines[0])
      case Aborted(s, e) => Aborted(s, e)
      case Done(s) => LoadLines(s, images, lines[1..])
  }

  /** `load_material`: every call starts without a current material. */
  function LoadMaterial(model: Model, images: map<string, Image>, lines: seq<MtlLine>): Outcome<Model> {
    match LoadLines(MtlState(model, None), images, lines)
    case Done(s) => Done(s.model)
    case Aborted(s, e) => Aborted(s.model, e)
  }

  /** The loop of `load_material`, proved to compute LoadMaterial. */
  method LoadMaterialLines(model: Model, images: map<string, Image>, lines: seq<MtlLine>) returns (o: Outcome<Model>)
    ensures o == LoadMaterial(model, images, lines)
  {
    var st := MtlState(model, None);
    for i := 0 to |lines|
      invariant CursorValid(st)
      invariant LoadLines(MtlState(model, None), images, lines) == LoadLines(st, images, lines[i..])
    {
      assert lines[i..][1..] == lines[i + 1..];
      match lines[i]
      case MtlComment =>
      case MtlUnknown =>
      case Newmtl(names) =>
        if |names| == 1 {
          var material := NewMaterial(names[0]);
          st := MtlState(st.model.(materials := Put(st.model.materials, names[0], material)), Some(names[0]));
        }
      case Kd(values) =>
        if |values| > 4 { return Aborted(st.model, TooManyValues); }
        if st.current.None? { return Aborted(st.model, NoActiveMaterial); }
        st := SetCurrent(st, Current(st).(diffuse := MakeColor(values)));
      case Ka(values) =>
        if |values| > 4 { return Aborted(st.model, TooManyValues); }
        if st.current.None? { return Aborted(st.model, NoActiveMaterial); }
        st := SetCurrent(st, Current(st).(ambient := MakeColor(values)));
      case MapKd(path) =>
        if path !in images { return Aborted(st.model, FileNotFound(path)); }
        var texture := OpenTexture(images, path);
        st := st.(model := st.model.(textures := st.model.textures + [texture]));
        if st.current.None? { return Aborted(st.model, NoActiveMaterial); }
        st := SetCurrent(st, Current(st).(texture := Some(texture)));
    }
    assert lines[|lines|..] == [];
    return Done(st.model);
  }

  /** `newmtl name` registers a fresh default material under its name (replacing one declared
      earlier under that name, which keeps its place in the order) and makes it current. */
  lemma NewmtlRegisters(st: MtlState, images: map<string, Image>, name: string)
    requires CursorValid(st)
    ensures var o := MtlStep(st, images, Newmtl([name]));
      && o.Done? && o.state.current == Some(name)
      && o.state.model.materials.items == st.model.materials.items[name := NewMaterial(name)]
      && (name in st.model.materials.items ==> o.state.model.materials.keys == st.model.materials.keys)
      && o.state.model.textures == st.model.textures && o.state.model.meshes == st.model.meshes
  {
  }

  /** `Kd` and `Ka` change one colour of the current material and nothing else; before any
      `newmtl` they fail and change nothing. */
  lemma ColorSetsCurrentOnly(st: MtlState, images: map<string, Image>, values: seq<real>, ambient: bool)
    requires CursorValid(st) && |values| <= 4
    ensures var o := MtlStep(st, images, if ambient then Ka(values) else Kd(values));
      && (st.current.None? <==> o.Aborted?)
      && (o.Aborted? ==> o.state == st && o.error == NoActiveMaterial)
      && (o.Done? ==>
          var c := st.current.value;
          var was := st.model.materials.items[c];
          && o.state.current == st.current
          && o.state.model.materials.keys == st.model.materials.keys
          && o.state.model.materials.items == st.model.materials.items[c :=
               if ambient then was.(ambient := MakeColor(values)) else was.(diffuse := MakeColor(values))]
          && o.state.model.textures == st.model.textures && o.state.model.meshes == st.model.meshes)
  {
  }

  /** `map_Kd path` appends exactly one texture and gives it to the current material only;
      an image that cannot be opened changes nothing. */
  lemma MapKdAppendsOneTexture(st: MtlState, images: map<string, Image>, path: string)
    requires CursorValid(st)
    ensures path !in images ==> MtlStep(st, images, MapKd(path)) == Aborted(st, FileNotFound(path))
    ensures path in images ==>
      var o := MtlStep(st, images, MapKd(path));
      && o.state.model.textures == st.model.textures + [OpenTexture(images, path)]
      && o.state.model.meshes == st.model.meshes
      && o.state.current == st.current
      && o.state.model.materials.keys == st.model.materials.keys
    ensures path in images && st.current.None? ==>
      var o := MtlStep(st, images, MapKd(path));
      o.Aborted? && o.error == NoActiveMaterial && o.state.model.materials == st.model.materials
    ensures path in images && st.current.Some? ==>
      var o := MtlStep(st, images, MapKd(path));
      var c := st.current.value;
      && o.Done?
      && o.state.model.materials.items == st.model.materials.items[c := st.model.materials.items[c].(texture := Some(OpenTexture(images, path)))]
  {
    if path in images {
      var texture := OpenTexture(images, path);
      var loaded := st.(model := st.model.(textures := st.model.textures + [texture]));
      var o := MtlStep(st, images, MapKd(path));
      if st.current.None? {
        assert o == Aborted(loaded, NoActiveMaterial);
      } else {
        var c := st.current.value;
        assert CursorValid(loaded);
        assert o == Done(SetCurrent(loaded, Current(loaded).(texture := Some(texture))));
        assert c in st.model.materials.items;
      }
    }
  }

  /** Loading materials never touches the meshes, keeps the dictionary well formed and only
      appends to the texture list. */
  lemma {:induction false} LoadLinesKeepsMeshes(st: MtlState, images: map<string, Image>, lines: seq<MtlLine>)
    requires CursorValid(st) && Valid(st.model.materials)
    ensures var o := LoadLines(st, images, lines);
      && o.state.model.meshes == st.model.meshes
      && Valid(o.state.model.materials)
      && st.model.materials.items.Keys <= o.state.model.materials.items.Keys
      && |st.model.textures| <= |o.state.model.textures|
      && o.state.model.textures[..|st.model.textures|] == st.model.textures
    decreases |lines|
  {
    if lines != [] {
      var o := MtlStep(st, images, lines[0]);
      assert o.state.model.textures[..|st.model.textures|] == st.model.textures by {
        match lines[0]
        case MapKd(path) =>
        case _ =>
      }
      if o.Done? {
        LoadLinesKeepsMeshes(o.state, images, lines[1..]);
        var t := LoadLines(o.state, images, lines[1..]).state.model.textures;
        assert t[..|st.model.textures|] == t[..|o.state.model.textures|][..|st.model.textures|];
      }
    }
  }
}
