/** Vectors of the composition layer (`V2`, `V4` in rainier/src/lib.rs). Coordinates are
    modelled as reals: single-precision rounding is not part of the model. */
module Geom {
  /** A point or vector in the plane. */
  datatype V2 = V2(x: real, y: real)

  /** A four-component vector; as a colour it is (r, g, b, a). */
  datatype V4 = V4(x: real, y: real, z: real, w: real)

  /** The point `p` with both coordinates multiplied by `s`, as every drawing
      primitive of a composition does before handing the point to the path builder. */
  function Scale(p: V2, s: real): V2 {
    V2(p.x * s, p.y * s)
  }
}
