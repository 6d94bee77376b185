/** The value-level view of a composition (rainier/src/lib.rs): the entities it builds,
    the calls a drawing callback can make on it, and what each call does to its state.
    The class `Rainier.Composition` is proved to follow `Step` call by call; the lemmas
    here state what a whole sequence of calls produces. */
module Scene {
  import opened Geom
  import P = PathBuilder

  /** A compiled shader; elements share it by reference, so only its identity matters. */
  datatype Shader = Shader(handle: nat)

  /** How an element is rasterised: filled, or stroked with a line thickness. */
  datatype Method = Fill | Stroke(thickness: real)

  /** A frozen path together with the colour, shader and method it is drawn with. */
  datatype Element = Element(path: seq<P.PathCmd>, color: V4, shader: Shader, rasterMethod: Method)

  /** The parameters of a run: seed, the unscaled width and height, scale and frame count. */
  datatype World = World(seed: nat, width: real, height: real, scale: real, frames: nat)

  /** What the drawing callback is told about the frame it draws. */
  datatype FrameContext = FrameContext(frame: nat)

  /** Every field of a composition. */
  datatype CompState = CompState(
    path: seq<P.PathCmd>,
    shader: Shader,
    color: V4,
    strokeThickness: real,
    scale: real,
    elements: seq<Element>)

  const White := V4(1.0, 1.0, 1.0, 1.0)

  /** The state of a composition that has just been created around `defaultShader`. */
  function Fresh(defaultShader: Shader): CompState {
    CompState([], defaultShader, White, 1.0, 1.0, [])
  }

  /** One call on a composition, with its arguments. */
  datatype Call =
    | SetScale(scale: real)
    | MoveTo(dest: V2)
    | LineTo(dest: V2)
    | QuadraticTo(ctrl: V2, dest: V2)
    | CubicTo(ctrl0: V2, ctrl1: V2, dest: V2)
    | Close
    | SetColor(color: V4)
    | SetShader(shader: Shader)
    | SetStrokeThickness(strokeThickness: real)
    | Fill
    | Stroke

  /** The calls that turn the in-progress path into an element. */
  predicate IsFreeze(c: Call) {
    c.Fill? || c.Stroke?
  }

  /** The calls that neither restart nor freeze the in-progress path. */
  predicate KeepsPath(c: Call) {
    !(c.MoveTo? || IsFreeze(c))
  }

  /** Swap the in-progress path for an empty one and append it, with the current colour
      and shader, as an element rasterised by `m`. */
  function Freeze(st: CompState, m: Method): CompState {
    st.(path := [], elements := st.elements + [Element(st.path, st.color, st.shader, m)])
  }

  /** The state after one call. Points are scaled by the scale in force at the call. */
  function Step(st: CompState, c: Call): CompState {
    match c
    case SetScale(s) => st.(scale := s)
    case MoveTo(p) => st.(path := [P.MoveTo(Scale(p, st.scale))])
    case LineTo(p) => st.(path := st.path + [P.LineTo(Scale(p, st.scale))])
    case QuadraticTo(ctrl, p) =>
      st.(path := st.path + [P.Quad(Scale(ctrl, st.scale), Scale(p, st.scale))])
    case CubicTo(ctrl0, ctrl1, p) =>
      st.(path := st.path + [P.Cubic(Scale(ctrl0, st.scale), Scale(ctrl1, st.scale), Scale(p, st.scale))])
    case Close => st.(path := st.path + [P.Close])
    case SetColor(color) => st.(color := color)
    case SetShader(shader) => st.(shader := shader)
    case SetStrokeThickness(t) => st.(strokeThickness := t)
    case Fill => Freeze(st, Method.Fill)
    case Stroke => Freeze(st, Method.Stroke(st.strokeThickness))
  }

  /** The state after the calls `cs`, made in order. */
  function Run(st: CompState, cs: seq<Call>): CompState
    decreases |cs|
  {
    if cs == [] then st else Step(Run(st, cs[..|cs| - 1]), cs[|cs| - 1])
  }

  /** How many of the calls `cs` freeze the path. */
  function Freezes(cs: seq<Call>): nat
    decreases |cs|
  {
    if cs == [] then 0 else Freezes(cs[..|cs| - 1]) + (if IsFreeze(cs[|cs| - 1]) then 1 else 0)
  }

  /** The calls that drawing a world makes: its border, as five line segments. */
  function BorderCalls(w: World): seq<Call> {
    [ LineTo(V2(0.0, 0.0)),
      LineTo(V2(w.width, 0.0)),
      LineTo(V2(w.width, w.height)),
      LineTo(V2(0.0, w.height)),
      LineTo(V2(0.0, 0.0)) ]
  }

  /** One more call runs after the ones before it. */
  lemma RunSnoc(st: CompState, cs: seq<Call>, c: Call)
    ensures Run(st, cs + [c]) == Step(Run(st, cs), c)
  {
  }

  /** Running two call sequences one after the other is running their concatenation. */
  lemma {:induction false} RunConcat(st: CompState, a: seq<Call>, b: seq<Call>)
    ensures Run(st, a + b) == Run(Run(st, a), b)
    decreases |b|
  {
    if b == [] {
      assert a + b == a;
    } else {
      var b' := b[..|b| - 1];
      var c := b[|b| - 1];
      assert b == b' + [c];
      assert a + b == (a + b') + [c];
      RunSnoc(st, a + b', c);
      RunConcat(st, a, b');
      RunSnoc(Run(st, a), b', c);
    }
  }

  /** Whatever calls follow, the elements frozen so far stay, unchanged and in order, at
      the front of the element list: setters only affect elements frozen later. */
  lemma {:induction false} FrozenElementsKept(st: CompState, cs: seq<Call>)
    ensures |st.elements| <= |Run(st, cs).elements|
    ensures Run(st, cs).elements[..|st.elements|] == st.elements
    decreases |cs|
  {
    if cs != [] {
      FrozenElementsKept(st, cs[..|cs| - 1]);
    }
  }

  /** Each freezing call adds exactly one element and no other call adds any. */
  lemma {:induction false} ElementCount(st: CompState, cs: seq<Call>)
    ensures |Run(st, cs).elements| == |st.elements| + Freezes(cs)
    decreases |cs|
  {
    if cs != [] {
      ElementCount(st, cs[..|cs| - 1]);
    }
  }

  /** The calls that only change a setting: scale, colour, shader or thickness. */
  predicate IsSetter(c: Call) {
    c.SetScale? || c.SetColor? || c.SetShader? || c.SetStrokeThickness?
  }

  /** The calls that only draw into the in-progress path. */
  predicate IsDrawing(c: Call) {
    c.MoveTo? || c.LineTo? || c.QuadraticTo? || c.CubicTo? || c.Close?
  }

  /** Setters leave the in-progress path and the elements as they were. */
  lemma {:induction false} SettersKeepPathAndElements(st: CompState, cs: seq<Call>)
    requires forall i :: 0 <= i < |cs| ==> IsSetter(cs[i])
    ensures Run(st, cs).path == st.path && Run(st, cs).elements == st.elements
    decreases |cs|
  {
    if cs != [] {
      SettersKeepPathAndElements(st, cs[..|cs| - 1]);
    }
  }

  /** Drawing calls change only the in-progress path: colour, shader, thickness, scale
      and elements stay as they were. */
  lemma {:induction false} DrawingKeepsSettings(st: CompState, cs: seq<Call>)
    requires forall i :: 0 <= i < |cs| ==> IsDrawing(cs[i])
    ensures Run(st, cs) == st.(path := Run(st, cs).path)
    decreases |cs|
  {
    if cs != [] {
      DrawingKeepsSettings(st, cs[..|cs| - 1]);
    }
  }

  /** After a freeze the in-progress path is empty, so a second freeze (`fill` or
      `stroke`) with no drawing call in between, only setters, freezes an empty path. */
  lemma FreezeEmptiesPath(st: CompState, c: Call, between: seq<Call>, c': Call)
    requires IsFreeze(c) && IsFreeze(c')
    requires forall i :: 0 <= i < |between| ==> IsSetter(between[i])
    ensures Step(st, c).path == []
    ensures |st.elements| + 1 < |Run(Step(st, c), between + [c']).elements|
    ensures Run(Step(st, c), between + [c']).elements[|st.elements| + 1].path == []
  {
    var frozen := Step(st, c);
    SettersKeepPathAndElements(frozen, between);
    RunSnoc(frozen, between, c');
  }

  /** Calls that neither restart nor freeze the path only extend it: the commands already
      recorded keep their points, whatever scale is set afterwards, and no element is added. */
  lemma {:induction false} RecordedPathKept(st: CompState, cs: seq<Call>)
    requires forall i :: 0 <= i < |cs| ==> KeepsPath(cs[i])
    ensures |st.path| <= |Run(st, cs).path|
    ensures Run(st, cs).path[..|st.path|] == st.path
    ensures Run(st, cs).elements == st.elements
    decreases |cs|
  {
    if cs != [] {
      RecordedPathKept(st, cs[..|cs| - 1]);
    }
  }

  /** The element a freezing call adds is a snapshot of the path, colour and shader at
      that call, and no later call changes it. */
  lemma FrozenElementIsSnapshot(st: CompState, before: seq<Call>, c: Call, after: seq<Call>)
    requires IsFreeze(c)
    ensures var at := Run(st, before);
      var m := if c.Fill? then Method.Fill else Method.Stroke(at.strokeThickness);
      |at.elements| < |Run(st, before + [c] + after).elements| &&
      Run(st, before + [c] + after).elements[|at.elements|] == Element(at.path, at.color, at.shader, m)
  {
    var at := Run(st, before);
    RunConcat(st, before + [c], after);
    RunSnoc(st, before, c);
    var frozen := Run(st, before + [c]);
    FrozenElementsKept(frozen, after);
    assert frozen.elements[|at.elements|] == Run(st, before + [c] + after).elements[..|frozen.elements|][|at.elements|];
  }

  /** The scale is applied when a point is drawn: a point drawn at scale `s` and frozen
      after the scale has changed still sits at `p * s`. */
  lemma ScaleAppliedAtCallTime(st: CompState, p: V2, later: real)
    ensures Run(st, [LineTo(p), SetScale(later), Call.Fill]).elements
         == st.elements + [Element(st.path + [P.LineTo(V2(p.x * st.scale, p.y * st.scale))], st.color, st.shader, Method.Fill)]
  {
    var c0, c1, c2 := LineTo(p), SetScale(later), Call.Fill;
    RunSnoc(st, [], c0);
    RunSnoc(st, [c0], c1);
    RunSnoc(st, [c0, c1], c2);
    assert [] + [c0] == [c0] && [c0] + [c1] == [c0, c1] && [c0, c1] + [c2] == [c0, c1, c2];
    assert Scale(p, st.scale) == V2(p.x * st.scale, p.y * st.scale);
    assert [c0, c1, c2] == [LineTo(p), SetScale(later), Call.Fill];
  }

  /** Drawing a world appends five line segments through the corners of its border,
      from the origin round to the origin, each corner scaled by the scale in force;
      nothing else changes. */
  lemma BorderDrawn(st: CompState, w: World)
    ensures var s := st.scale;
      Run(st, BorderCalls(w)) == st.(path := st.path +
        [ P.LineTo(Scale(V2(0.0, 0.0), s)),
          P.LineTo(Scale(V2(w.width, 0.0), s)),
          P.LineTo(Scale(V2(w.width, w.height), s)),
          P.LineTo(Scale(V2(0.0, w.height), s)),
          P.LineTo(Scale(V2(0.0, 0.0), s)) ])
  {
    var cs := BorderCalls(w);
    RunSnoc(st, [], cs[0]);
    assert [] + [cs[0]] == cs[..1];
    RunSnoc(st, cs[..1], cs[1]);
    assert cs[..1] + [cs[1]] == cs[..2];
    RunSnoc(st, cs[..2], cs[2]);
    assert cs[..2] + [cs[2]] == cs[..3];
    RunSnoc(st, cs[..3], cs[3]);
    assert cs[..3] + [cs[3]] == cs[..4];
    RunSnoc(st, cs[..4], cs[4]);
    assert cs[..4] + [cs[4]] == cs;
  }
}
