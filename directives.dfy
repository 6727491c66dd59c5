/** The geometry (OBJ) and material (MTL) lines as the importer reads them and the exporters
    write them: one record per line, after splitting on spaces and converting numerals.
    Splitting and number parsing are not part of this model. */
module Directives {
  import opened Wrappers
  import opened Model

  /** A 1-based face reference index. Python would also accept 0 and negative numbers (they
      count from the end of the list); the model admits only positive references. */
  type Index = i: int | 1 <= i witness 1

  /** One `p/t[/n]` reference of a face line written with slashes. */
  datatype Ref = Ref(position: Index, texcoord: Index, normal: Option<Index>)

  /** One line of a geometry file. The value lists keep their length because the source's
      pattern match decides by the number of values whether a line applies. */
  datatype ObjLine =
    | Comment                    // a line whose stripped text starts with '#'
    | Mtllib(path: string)       // `mtllib <path>`, the path already resolved
    | O(names: seq<string>)      // `o ...`
    | V(values: seq<real>)       // `v x y z [w]`
    | Vt(values: seq<real>)      // `vt u [v [w]]`
    | Vn(values: seq<real>)      // `vn [x [y [z [w]]]]`
    | Usemtl(names: seq<string>) // `usemtl name`
    | F(refs: seq<Ref>)          // `f ...` where the line contains a '/'
    | FBare(indices: seq<Index>) // `f ...` where it does not
    | Unknown                    // any other directive

  /** One line of a material file. */
  datatype MtlLine =
    | MtlComment                 // a line starting with '#'
    | Newmtl(names: seq<string>) // `newmtl name`
    | Kd(values: seq<real>)      // `Kd r g b a`
    | Ka(values: seq<real>)      // `Ka r g b a`
    | MapKd(path: string)        // `map_Kd <path>`, the path already resolved
    | MtlUnknown                 // any other directive

  /** The files the importer can open: material files by path, already split into lines, and
      images by path. */
  datatype Files = Files(materials: map<string, seq<MtlLine>>, images: map<string, Image>)
}
