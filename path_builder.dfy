/** The path builder of the lyon library, reduced to the ordered list of commands it
    records. Curve flattening and tessellation are not part of the model. */
module PathBuilder {
  import opened Geom

  /** One recorded command; every point is already in output (scaled) coordinates. */
  datatype PathCmd =
    | MoveTo(to: V2)
    | LineTo(to: V2)
    | Quad(ctrl: V2, to: V2)
    | Cubic(ctrl0: V2, ctrl1: V2, to: V2)
    | Close
}
