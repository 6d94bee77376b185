# rainier composition and valora spawners, modelled in Dafny

This project models two small parts of the valora generative-art toolkit.

**Composition.** This is rainier's per-frame scene builder (`rainier/src/lib.rs`). A drawing
callback issues calls on a composition. Point commands (`move_to`, `line_to`,
`quadratic_to`, `cubic_to`) and `close` record lyon path commands. Each point is multiplied by
the scale in force at the time of the call. Setters change the current colour, shader,
stroke thickness and scale. `fill` and `stroke` swap out the current path for an empty one and
push it as an `Element` that carries the current colour and shader plus `Fill` or
`Stroke(thickness)`.

Around the composition are three more pieces:

- a world draws its border as five line segments;
- a frame is saved to `<output>/<seed>/<frame>.png`;
- `RenderGate::render_frames` builds one fresh composition per frame, with the world's scale.

**Spawners.** These come from `src/geom/spawner.rs`. `spawn` maps a spawner over the spawn
points of a source, giving one geometry per point, in order, each tagged with its index. A
polygon's spawn points are its vertices. An `Instancer` places a copy of its prototype at
the point and may pass the result through a user transform.

Layout:

- `wrappers.dfy`: `Option`.
- `geom.dfy`: `V2`, `V4` and `Scale`.
- `path_builder.dfy`: lyon's `Builder`, modelled as a list of path commands.
- `scene.dfy`: `Shader`, `Method`, `Element`, `World`, `FrameContext`, and the value view
  of a composition.
  - `CompState` holds every field.
  - `Call` names one call a drawing callback can make.
  - `Step` gives the effect of one call and `Run` the effect of a sequence of calls.
  - The lemmas about whole call sequences live here too.
- `composition.dfy`: the class `Composition`, with the source's fields and methods, and
  `DrawWorld`. Each method states its whole new state. `Perform` and `PerformAll` tie the
  class to `Step` and `Run`.
- `frames.dfy`: decimal formatting, the save path, and the frame loop.
- `spawner.dfy`: `Spawn`, polygons as spawn sources, and `Instancer`.

Modelling choices:

- Coordinates, colours, scale and thickness are reals.
- Seeds and frame numbers are `nat`. Their decimal form is the same as for `u64` and `usize`.
- A shader is an opaque token. It is cloned by sharing, so only its identity matters.
- The user's per-frame closure is modelled as the list of calls it makes for a frame
  context: `FrameContext -> seq<Call>`.
- A file path is the list of its components.
- In spawners, the geometry type, `Place::place` and the transform are parameters with
  nothing known about them.

Stroke thickness and scale are not validated by the code (a negative or zero thickness is
accepted), so no contract restricts them.

## Model

| member | source | states |
|---|---|---|
| `Rainier.Composition.constructor` | rainier/src/lib.rs:254-263 | a new composition has an empty path, the given default shader, colour (1,1,1,1), scale 1, stroke thickness 1 and no elements |
| `Rainier.Composition.SetScale` | rainier/src/lib.rs:267 | only the scale changes; the recorded path is untouched |
| `Rainier.Composition.MoveTo` | rainier/src/lib.rs:269-273 | the path drawn so far is discarded and the path is exactly one move to the point times the current scale |
| `Rainier.Composition.LineTo` | rainier/src/lib.rs:275-278 | exactly one line command is appended, to the point times the scale at call time; earlier commands and all other fields are unchanged |
| `Rainier.Composition.QuadraticTo` | rainier/src/lib.rs:280-285 | exactly one quadratic command is appended with both points scaled at call time; nothing else changes |
| `Rainier.Composition.CubicTo` | rainier/src/lib.rs:287-293 | exactly one cubic command is appended with all three points scaled at call time; nothing else changes |
| `Rainier.Composition.Close` | rainier/src/lib.rs:295 | a close command is appended and no element is pushed |
| `Rainier.Composition.SetColor` | rainier/src/lib.rs:297 | only the colour changes; the element list is untouched |
| `Rainier.Composition.SetShader` | rainier/src/lib.rs:299 | only the shader changes; the element list is untouched |
| `Rainier.Composition.SetStrokeThickness` | rainier/src/lib.rs:301-303 | only the stroke thickness changes; the element list is untouched |
| `Rainier.Composition.Fill` | rainier/src/lib.rs:305 | the path becomes empty and exactly one element is appended: the old path with the current colour, the current shader and `Fill` |
| `Rainier.Composition.Stroke` | rainier/src/lib.rs:307 | as `Fill`, with method `Stroke` of the current thickness |
| `Rainier.Composition.PushElement` | rainier/src/lib.rs:309-319 | an empty path is swapped in and the old path is appended as one element with the current colour and shader; the state afterwards is `Scene.Freeze` of the state before |
| `Rainier.Composition.Draw` | rainier/src/lib.rs:265 | drawing a world has exactly the effect of the calls `BorderCalls` |
| `Rainier.DrawWorld` | rainier/src/lib.rs:94-102 | five line commands are appended, in order, at (0,0), (w,0), (w,h), (0,h), (0,0), each scaled by the scale in force |
| `Rainier.Composition.Perform` | rainier/src/lib.rs:265-319 | each call on a composition changes its fields exactly as `Scene.Step` says |
| `Rainier.Composition.PerformAll` | rainier/src/lib.rs:165 | the calls a callback makes, made in order, leave the composition in the state `Scene.Run` gives |
| `Scene.FrozenElementsKept` | rainier/src/lib.rs:297-319 | whatever calls follow, the elements frozen so far stay at the front of the element list, unchanged and in order; setters affect only elements frozen later |
| `Scene.ElementCount` | rainier/src/lib.rs:305-319 | after any sequence of calls there is exactly one more element per `fill` or `stroke` call and none for any other call |
| `Scene.SettersKeepPathAndElements` | rainier/src/lib.rs:267-303 | any sequence of `set_scale`, `set_color`, `set_shader` and `set_stroke_thickness` calls leaves the path and the elements as they were |
| `Scene.DrawingKeepsSettings` | rainier/src/lib.rs:269-295 | any sequence of drawing calls changes only the path: colour, shader, thickness, scale and elements stay |
| `Scene.FreezeEmptiesPath` | rainier/src/lib.rs:297-311 | after `fill` or `stroke` the path is empty, so a second `fill` or `stroke` with only setters in between freezes an empty path |
| `Scene.RecordedPathKept` | rainier/src/lib.rs:267-303 | calls other than `move_to`, `fill` and `stroke` only extend the path: the recorded commands keep their points whatever scale is set later, and no element is added |
| `Scene.FrozenElementIsSnapshot` | rainier/src/lib.rs:309-318 | the element a `fill` or `stroke` adds holds the path, colour and shader (and, for `stroke`, the thickness) as they were at that call, and no later call alters it |
| `Scene.ScaleAppliedAtCallTime` | rainier/src/lib.rs:267-278 | after `line_to(p)` at scale s, `set_scale`, then `fill`, the frozen path ends with a line to (p.x·s, p.y·s), not at the later scale |
| `Scene.BorderDrawn` | rainier/src/lib.rs:94-102 | a world's border calls append five scaled corner lines, origin, (w,0), (w,h), (0,h), origin, and change nothing else |
| `Frames.DecimalString` | rainier/src/lib.rs:105-108 | the formatted number is non-empty, all digits, has no leading zero, is "0" for zero and is one digit exactly below ten |
| `Frames.ParseDecimalString` | rainier/src/lib.rs:105-108 | reading back a formatted number gives the number |
| `Frames.DecimalStringInjective` | rainier/src/lib.rs:105-108 | two numbers have the same decimal form if and only if they are equal |
| `Frames.SavePathForFrame` | rainier/src/lib.rs:104-110 | the save path extends the base path by exactly two components |
| `Frames.SavePathRoundTrip` | rainier/src/lib.rs:104-110 | the path is `base/<seed>/<frame>.png`: seed and frame are read back from it |
| `Frames.SavePathsDistinct` | rainier/src/lib.rs:104-110 | different frames, or different seeds, never get the same file under one base |
| `Frames.FrameElementCount` | rainier/src/lib.rs:162-165 | a frame renders one element per freezing call of its callback; a path left unfrozen is dropped |
| `Frames.FrameStartsFresh` | rainier/src/lib.rs:163-164 | for any callback whose first shape is drawn before any setter call, the frame's first element is that shape's path at the world's scale, in white, with the default shader, and `Fill` or `Stroke(1)`, whatever follows |
| `Frames.RenderFrames` | rainier/src/lib.rs:162-205 | frames 0 to frames-1 are rendered in increasing order. Each gets the elements of a new composition, with the world's scale, after that frame's callback calls. Its target is the file `<dir>/<seed>/<frame>.png` when an output directory is set, and the window otherwise |
| `Spawner.SpawnFrom` | src/geom/spawner.rs:41-45 | mapping from position `from` gives one geometry per remaining point, each made from that point and its position |
| `Spawner.Spawn` | src/geom/spawner.rs:37-46 | the output has as many geometries as there are spawn points, and geometry i is the spawner applied to point i and index i |
| `Spawner.SpawnOverPoly` | src/geom/spawner.rs:7-9 | a polygon's spawn points are its vertices: one geometry per vertex, in vertex order |
| `Spawner.SpawnPrefix` | src/geom/spawner.rs:41-45 | spawning over the first k points gives the first k geometries of spawning over all of them |
| `Spawner.NewInstancer` | src/geom/spawner.rs:21 | a new instancer keeps the prototype and has no transform |
| `Spawner.InstancerSpawn` | src/geom/spawner.rs:25-34 | without a transform the result is the prototype placed at the point; with a transform `f` it is `f` of the placed prototype, the point and the index |
| `Spawner.NewInstancerPlacesPrototype` | src/geom/spawner.rs:21-34 | spawning with a new instancer yields, for each point in order, the same prototype placed at that point: the prototype is never changed by a spawn |
| `Spawner.TransformedInstances` | src/geom/spawner.rs:26-31 | with a transform, the i-th result is the transform of the prototype placed at point i, given point i and index i |

## Left out

- GPU work is not modelled: the default shader, the offscreen texture, `precompose`,
  readback, window frames, and shader compilation (`GpuHandle`, `ShaderBuilder`). These
  are device calls. The default shader is a parameter of `Frames.RenderFrames`. What the
  loop hands to the device is returned as one `FrameOutput` per frame.
- The readback conversion through the sRGB transfer function is not modelled. It is
  floating-point colour math done by a library.
- Image encoding and saving, `create_dir_all` and the inter-frame `sleep` are I/O and timing.
  The frame loop records only the target each frame goes to.
- Device and I/O errors that abort `render_frames` are not modelled, since the calls that
  raise them are not modelled either.
- `run`, `Options` parsing, `StdRng` seeding and `World::from` are glue over libraries.
- The pixel dimensions computed in `run`, and `World::normalize` and `World::center`, are
  single-precision arithmetic.
- f32 rounding, NaN and infinities are not modelled: all coordinates are reals.
- lyon's own path validation, curve flattening and tessellation are not modelled. The
  builder is only the list of commands it records.
- `Composition::draw` over any `Draw` implementation: the only implementation in these
  files is `World`, so `Draw` takes a world. A user shape's `draw` is modelled as the calls it
  makes, which `PerformAll` executes.
- The `FnMut` callback's own captured state, such as a random generator, is not modelled.
  Only the calls it makes on the composition are. Within one run the frame loop visits each
  frame index exactly once, and the composition's fields are private, so the calls cannot
  depend on its state. The calls of any one run are therefore a function of the frame
  context.
- The rasterizer under `src/raster.rs` (`RegionList`, `Region`, `Buffer`, `Polygon`) is not part
  of this model. The file holds only module declarations and a test. The modules it
  declares are not among the source files.
