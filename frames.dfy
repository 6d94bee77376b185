/** The file layout of saved frames and the frame loop of `RenderGate::render_frames`
    (rainier/src/lib.rs), reduced to its composition bookkeeping. */
module Frames {
  import opened Wrappers
  import opened Geom
  import PathBuilder
  import opened Scene
  import Rainier

  /** The decimal digit for `d`. */
  function Digit(d: nat): char
    requires d < 10
  {
    "0123456789"[d]
  }

  /** The value of a decimal digit character. */
  function DigitValue(c: char): nat {
    if '0' <= c <= '9' then (c - '0') as nat else 0
  }

  predicate IsDigit(c: char) {
    '0' <= c <= '9'
  }

  /** The decimal form of `n` that `format!("{}", n)` produces: digits only, never empty,
      and without leading zeros, so it starts with `0` only for zero itself. */
  function DecimalString(n: nat): (s: string)
    ensures 1 <= |s|
    ensures forall i :: 0 <= i < |s| ==> IsDigit(s[i])
    ensures s[0] == '0' <==> n == 0
    ensures n == 0 ==> s == "0"
    ensures |s| == 1 <==> n < 10
    decreases n
  {
    if n < 10 then [Digit(n)] else DecimalString(n / 10) + [Digit(n % 10)]
  }

  /** The number a string of decimal digits denotes. */
  function ParseDecimal(s: string): nat
    decreases |s|
  {
    if s == [] then 0 else ParseDecimal(s[..|s| - 1]) * 10 + DigitValue(s[|s| - 1])
  }

  /** Reading back a formatted number gives the number. */
  lemma {:induction false} ParseDecimalString(n: nat)
    ensures ParseDecimal(DecimalString(n)) == n
    decreases n
  {
    if n >= 10 {
      var prefix := DecimalString(n / 10);
      assert (prefix + [Digit(n % 10)])[..|prefix|] == prefix;
      ParseDecimalString(n / 10);
    }
  }

  /** Distinct numbers are formatted differently. */
  lemma DecimalStringInjective(a: nat, b: nat)
    ensures DecimalString(a) == DecimalString(b) <==> a == b
  {
    ParseDecimalString(a);
    ParseDecimalString(b);
  }

  const Png := ".png"

  /** The file a frame is saved to: the directory named after the seed, under the base
      directory, holding `<frame>.png`. A path is the list of its components. */
  function SavePathForFrame(base: seq<string>, seed: nat, frame: nat): (p: seq<string>)
    ensures |p| == |base| + 2 && p[..|base|] == base
  {
    base + [DecimalString(seed), DecimalString(frame) + Png]
  }

  /** The seed and frame a save path under `base` names, if it has the shape of one. */
  function ParseSavePath(base: seq<string>, p: seq<string>): Option<(nat, nat)> {
    if |p| != |base| + 2 || p[..|base|] != base then None
    else
      var dir, file := p[|base|], p[|base| + 1];
      if |file| < |Png| || file[|file| - |Png|..] != Png then None
      else Some((ParseDecimal(dir), ParseDecimal(file[..|file| - |Png|])))
  }

  /** A save path records its seed and frame: they can be read back from it. */
  lemma SavePathRoundTrip(base: seq<string>, seed: nat, frame: nat)
    ensures ParseSavePath(base, SavePathForFrame(base, seed, frame)) == Some((seed, frame))
  {
    var file := DecimalString(frame) + Png;
    assert file[|file| - |Png|..] == Png;
    assert file[..|file| - |Png|] == DecimalString(frame);
    ParseDecimalString(seed);
    ParseDecimalString(frame);
  }

  /** Two frames of a run, or two runs with different seeds, never share a file. */
  lemma SavePathsDistinct(base: seq<string>, seed: nat, frame: nat, seed': nat, frame': nat)
    requires seed != seed' || frame != frame'
    ensures SavePathForFrame(base, seed, frame) != SavePathForFrame(base, seed', frame')
  {
    SavePathRoundTrip(base, seed, frame);
    SavePathRoundTrip(base, seed', frame');
  }

  /** The parts of a render gate that the frame loop reads: the world, the optional
      output directory and the number of frames. */
  datatype RenderGate = RenderGate(world: World, saveDir: Option<seq<string>>, frames: nat)

  /** Where a frame goes: a file, or the window. */
  datatype Target = File(path: seq<string>) | Window

  /** What the loop hands to the device for one frame. */
  datatype FrameOutput = FrameOutput(frame: nat, elements: seq<Element>, target: Target)

  /** The target of frame `frame`. */
  function TargetFor(gate: RenderGate, frame: nat): Target {
    match gate.saveDir
    case Some(dir) => File(SavePathForFrame(dir, gate.world.seed, frame))
    case None => Window
  }

  /** The elements a frame renders: what the callback's calls freeze in a fresh
      composition whose scale is the world's. */
  function FrameElements(world: World, defaultShader: Shader, calls: seq<Call>): seq<Element> {
    Run(Fresh(defaultShader).(scale := world.scale), calls).elements
  }

  /** A frame renders one element per freezing call of its callback; a path the callback
      leaves unfrozen is not rendered. */
  lemma FrameElementCount(world: World, defaultShader: Shader, calls: seq<Call>)
    ensures |FrameElements(world, defaultShader, calls)| == Freezes(calls)
  {
    ElementCount(Fresh(defaultShader).(scale := world.scale), calls);
  }

  /** The first shape of a frame, drawn before any setter is called, is frozen with the
      world's scale already applied to its points, in white, with the default shader and,
      when stroked, thickness one; whatever the callback does afterwards. */
  lemma FrameStartsFresh(world: World, defaultShader: Shader, before: seq<Call>, c: Call, after: seq<Call>)
    requires forall i :: 0 <= i < |before| ==> IsDrawing(before[i])
    requires IsFreeze(c)
    ensures var st := Fresh(defaultShader).(scale := world.scale);
      var es := FrameElements(world, defaultShader, before + [c] + after);
      var m := if c.Fill? then Method.Fill else Method.Stroke(1.0);
      0 < |es| && es[0] == Element(Run(st, before).path, White, defaultShader, m)
  {
    var st := Fresh(defaultShader).(scale := world.scale);
    DrawingKeepsSettings(st, before);
    FrozenElementIsSnapshot(st, before, c, after);
  }

  /** Renders frames 0, 1, ..., `gate.frames - 1` in that order. Each frame gets a new
      composition around the default shader with the world's scale; the callback `f`
      draws into it, given as the calls it makes for a frame context. */
  method RenderFrames(gate: RenderGate, defaultShader: Shader, f: FrameContext -> seq<Call>)
    returns (out: seq<FrameOutput>)
    ensures |out| == gate.frames
    ensures forall i :: 0 <= i < |out| ==>
      out[i] == FrameOutput(i, FrameElements(gate.world, defaultShader, f(FrameContext(i))), TargetFor(gate, i))
  {
    out := [];
    for frame := 0 to gate.frames
      invariant |out| == frame
      invariant forall i :: 0 <= i < frame ==>
        out[i] == FrameOutput(i, FrameElements(gate.world, defaultShader, f(FrameContext(i))), TargetFor(gate, i))
    {
      var comp := new Rainier.Composition(defaultShader);
      comp.SetScale(gate.world.scale);
      comp.PerformAll(f(FrameContext(frame)));
      var target := TargetFor(gate, frame);
      out := out + [FrameOutput(frame, comp.elements, target)];
    }
  }
}
