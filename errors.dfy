/** The ways the importer, the minifier and the exporters can fail, and the outcome of a
    step that may stop part-way with the object it was updating already changed. */
module Errors {

  /** Each kind names the Python exception the source raises in that situation. */
  datatype Error =
    | UnknownMaterial(name: string)   // KeyError: `usemtl` names no declared material
    | IndexOutOfRange                 // IndexError: a face reference beyond the stream built so far
    | TooManyValues                   // TypeError: Position/Texcoord/Color given more values than components
    | NoActiveMaterial                // UnboundLocalError: Kd, Ka or map_Kd before any newmtl
    | FileNotFound(path: string)      // OSError: a material file or an image that cannot be opened
    | MissingTexture                  // AttributeError: `material.texture` is None where a texture is used
    | DivisionByZero                  // ZeroDivisionError: normalising by a texture of width or height 0
    | MissingBound                    // KeyError: a texture with no bounding box in the minifier
    | EmptyMesh                       // IndexError: `faces[0].vertexes[0]` of a mesh without a first vertex
    | NoBounds                        // ValueError: `max()` over no bounding boxes at all

  /** The state reached, and the error if the run stopped there. */
  datatype Outcome<S> = Done(state: S) | Aborted(state: S, error: Error)
}
