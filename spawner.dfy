/** Spawners (src/geom/spawner.rs): a spawner makes one geometry for a point and its
    index; `Spawn` applies one to every spawn point of a source, in order. Geometries,
    `Place::place` and an instancer's transform are uninterpreted: `G` is any type and
    the functions are parameters. */
module Spawner {
  import opened Wrappers
  import opened Geom

  type Point = V2

  /** The geometries a spawner `s` makes for `points[from..]`, each given its position in
      `points` as index, the way `enumerate` numbers the points. */
  function SpawnFrom<G>(s: (Point, nat) -> G, points: seq<Point>, from: nat): (r: seq<G>)
    requires from <= |points|
    ensures |r| == |points| - from
    ensures forall i :: 0 <= i < |r| ==> r[i] == s(points[from + i], from + i)
    decreases |points| - from
  {
    if from == |points| then [] else [s(points[from], from)] + SpawnFrom(s, points, from + 1)
  }

  /** One geometry per spawn point, in the order of the points, the i-th made by `s` from
      the i-th point and the index i. */
  function Spawn<G>(s: (Point, nat) -> G, points: seq<Point>): (r: seq<G>)
    ensures |r| == |points|
    ensures forall i :: 0 <= i < |points| ==> r[i] == s(points[i], i)
  {
    SpawnFrom(s, points, 0)
  }

  /** Spawning over a polygon: its spawn points are its vertices, so there is one
      geometry per vertex, in vertex order. */
  function SpawnOverPoly<Poly, G>(s: (Point, nat) -> G, vertices: Poly -> seq<Point>, poly: Poly): (r: seq<G>)
    ensures |r| == |vertices(poly)|
    ensures forall i :: 0 <= i < |r| ==> r[i] == s(vertices(poly)[i], i)
  {
    Spawn(s, vertices(poly))
  }

  /** Spawning over the first `k` points gives the first `k` geometries of spawning over
      all of them: a spawned geometry depends only on the points up to its own. */
  lemma SpawnPrefix<G>(s: (Point, nat) -> G, points: seq<Point>, k: nat)
    requires k <= |points|
    ensures Spawn(s, points[..k]) == Spawn(s, points)[..k]
  {
  }

  /** A prototype geometry and an optional transform applied to each placed instance. */
  datatype Instancer<!G> = Instancer(src: G, f: Option<(G, Point, nat) -> G>)

  /** An instancer of `src` with no transform. */
  function NewInstancer<G>(src: G): (inst: Instancer<G>)
    ensures inst.src == src && inst.f.None?
  {
    Instancer(src, None)
  }

  /** The geometry an instancer spawns: a copy of the prototype placed at `point`, then
      passed, with the point and index, through the transform if there is one. */
  function InstancerSpawn<G>(inst: Instancer<G>, place: (G, Point) -> G, point: Point, index: nat): (g: G)
    ensures inst.f.None? ==> g == place(inst.src, point)
    ensures inst.f.Some? ==> g == inst.f.value(place(inst.src, point), point, index)
  {
    var instance := place(inst.src, point);
    match inst.f
    case Some(f) => f(instance, point, index)
    case None => instance
  }

  /** An instancer as a spawner. */
  function AsSpawner<G>(inst: Instancer<G>, place: (G, Point) -> G): (Point, nat) -> G {
    (point: Point, index: nat) => InstancerSpawn(inst, place, point, index)
  }

  /** Every instance is placed from the same, unmodified prototype: without a transform
      the i-th result is the prototype placed at the i-th point, whatever came before. */
  lemma NewInstancerPlacesPrototype<G>(src: G, place: (G, Point) -> G, points: seq<Point>)
    ensures var r := Spawn(AsSpawner(NewInstancer(src), place), points);
      |r| == |points| && forall i :: 0 <= i < |points| ==> r[i] == place(src, points[i])
  {
  }

  /** With a transform, the i-th result is the transform of the prototype placed at the
      i-th point, given that point and the index i. */
  lemma TransformedInstances<G>(src: G, place: (G, Point) -> G, f: (G, Point, nat) -> G, points: seq<Point>)
    ensures var r := Spawn(AsSpawner(Instancer(src, Some(f)), place), points);
      |r| == |points| && forall i :: 0 <= i < |points| ==> r[i] == f(place(src, points[i]), points[i], i)
  {
  }
}
