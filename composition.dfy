/** The per-frame scene builder of rainier/src/lib.rs: a composition owns the path being
    drawn, the current shader, colour, stroke thickness and scale, and the elements frozen
    so far. Every method is proved to change the fields exactly as `Scene.Step` says. */
module Rainier {
  import opened Geom
  import P = PathBuilder
  import opened Scene

  class Composition {
    var path: seq<P.PathCmd>
    var shader: Shader
    var color: V4
    var strokeThickness: real
    var scale: real
    var elements: seq<Element>

    /** All fields, as one value. */
    function State(): CompState
      reads this
    {
      CompState(path, shader, color, strokeThickness, scale, elements)
    }

    /** An empty composition: no path, white, scale one, thickness one, no elements. */
    constructor (defaultShader: Shader)
      ensures path == [] && shader == defaultShader && elements == []
      ensures color == V4(1.0, 1.0, 1.0, 1.0) && scale == 1.0 && strokeThickness == 1.0
      ensures State() == Fresh(defaultShader)
    {
      path := [];
      shader := defaultShader;
      color := V4(1.0, 1.0, 1.0, 1.0);
      scale := 1.0;
      strokeThickness := 1.0;
      elements := [];
    }

    method SetScale(s: real)
      modifies this
      ensures scale == s
      ensures State() == old(State()).(scale := s)
    {
      scale := s;
    }

    /** Drops the path drawn so far and starts a new one at the scaled point. */
    method MoveTo(dest: V2)
      modifies this
      ensures path == [P.MoveTo(Scale(dest, scale))]
      ensures State() == old(State()).(path := path)
    {
      path := [P.MoveTo(Scale(dest, scale))];
    }

    /** Appends a segment to the scaled point; the recorded commands stay as they were. */
    method LineTo(dest: V2)
      modifies this
      ensures path == old(path) + [P.LineTo(Scale(dest, scale))]
      ensures State() == old(State()).(path := path)
    {
      path := path + [P.LineTo(Scale(dest, scale))];
    }

    method QuadraticTo(ctrl: V2, dest: V2)
      modifies this
      ensures path == old(path) + [P.Quad(Scale(ctrl, scale), Scale(dest, scale))]
      ensures State() == old(State()).(path := path)
    {
      path := path + [P.Quad(Scale(ctrl, scale), Scale(dest, scale))];
    }

    method CubicTo(ctrl0: V2, ctrl1: V2, dest: V2)
      modifies this
      ensures path == old(path) + [P.Cubic(Scale(ctrl0, scale),
                                           Scale(ctrl1, scale),
                                           Scale(dest, scale))]
      ensures State() == old(State()).(path := path)
    {
      path := path + [P.Cubic(Scale(ctrl0, scale), Scale(ctrl1, scale), Scale(dest, scale))];
    }

    /** Closes the current sub-path; nothing is frozen. */
    method Close()
      modifies this
      ensures path == old(path) + [P.Close]
      ensures State() == old(State()).(path := path)
    {
      path := path + [P.Close];
    }

    method SetColor(c: V4)
      modifies this
      ensures color == c
      ensures State() == old(State()).(color := c)
    {
      color := c;
    }

    method SetShader(s: Shader)
      modifies this
      ensures shader == s
      ensures State() == old(State()).(shader := s)
    {
      shader := s;
    }

    method SetStrokeThickness(t: real)
      modifies this
      ensures strokeThickness == t
      ensures State() == old(State()).(strokeThickness := t)
    {
      strokeThickness := t;
    }

    /** Freezes the path as an element that is filled. */
    method Fill()
      modifies this
      ensures path == []
      ensures elements == old(elements) + [Element(old(path), color, shader, Method.Fill)]
      ensures State() == old(State()).(path := path, elements := elements)
    {
      PushElement(Method.Fill);
    }

    /** Freezes the path as an element stroked with the current thickness. */
    method Stroke()
      modifies this
      ensures path == []
      ensures elements == old(elements) + [Element(old(path), color, shader, Method.Stroke(strokeThickness))]
      ensures State() == old(State()).(path := path, elements := elements)
    {
      PushElement(Method.Stroke(strokeThickness));
    }

    /** Swaps an empty path in and appends the old one, with the current colour and
        shader, as one element rasterised by `m`. */
    method PushElement(m: Method)
      modifies this
      ensures path == []
      ensures elements == old(elements) + [Element(old(path), color, shader, m)]
      ensures State() == Freeze(old(State()), m)
    {
      var frozen: seq<P.PathCmd> := [];
      path, frozen := frozen, path;
      elements := elements + [Element(frozen, color, shader, m)];
    }

    /** Lets a world draw itself into this composition. */
    method Draw(w: World)
      modifies this
      ensures State() == Run(old(State()), BorderCalls(w))
    {
      DrawWorld(w, this);
    }

    /** Makes the call `c`, as a drawing callback would. */
    method Perform(c: Call)
      modifies this
      ensures State() == Step(old(State()), c)
    {
      match c
      case SetScale(s) => SetScale(s);
      case MoveTo(p) => MoveTo(p);
      case LineTo(p) => LineTo(p);
      case QuadraticTo(ctrl, p) => QuadraticTo(ctrl, p);
      case CubicTo(ctrl0, ctrl1, p) => CubicTo(ctrl0, ctrl1, p);
      case Close => Close();
      case SetColor(col) => SetColor(col);
      case SetShader(sh) => SetShader(sh);
      case SetStrokeThickness(t) => SetStrokeThickness(t);
      case Fill => Fill();
      case Stroke => Stroke();
    }

    /** Makes the calls `cs` in order: what one run of a drawing callback does. */
    method PerformAll(cs: seq<Call>)
      modifies this
      ensures State() == Run(old(State()), cs)
    {
      for i := 0 to |cs|
        invariant State() == Run(old(State()), cs[..i])
      {
        Perform(cs[i]);
        RunSnoc(old(State()), cs[..i], cs[i]);
        assert cs[..i + 1] == cs[..i] + [cs[i]];
      }
      assert cs[..|cs|] == cs;
    }
  }

  /** How a world draws itself: a line along each edge of its border, from the origin round
      to the origin again, each point scaled by the composition's current scale. */
  method DrawWorld(w: World, comp: Composition)
    modifies comp
    ensures var s := old(comp.scale);
      comp.path == old(comp.path) +
        [ P.LineTo(Scale(V2(0.0, 0.0), s)),
          P.LineTo(Scale(V2(w.width, 0.0), s)),
          P.LineTo(Scale(V2(w.width, w.height), s)),
          P.LineTo(Scale(V2(0.0, w.height), s)),
          P.LineTo(Scale(V2(0.0, 0.0), s)) ]
    ensures comp.State() == Run(old(comp.State()), BorderCalls(w))
  {
    ghost var before := comp.State();
    BorderDrawn(before, w);
    comp.LineTo(V2(0.0, 0.0));
    comp.LineTo(V2(w.width, 0.0));
    comp.LineTo(V2(w.width, w.height));
    comp.LineTo(V2(0.0, w.height));
    comp.LineTo(V2(0.0, 0.0));
  }
}
