/**
 The fixed world of the single-file prototype: a 2400 x 1800 world seen
 through an 800 x 600 screen, and the spawn area, the world shrunk by a
 30-unit margin, inside which every plant and mammal lives.
 */
module ProtoWorld {
  import opened Numeric

  const ScreenWidth: real := 800.0
  const ScreenHeight: real := 600.0
  const WorldWidth: real := 2400.0
  const WorldHeight: real := 1800.0

  /** `SPAWN_PADDING = 10 + 20`. */
  const SpawnPadding: real := 30.0

  const SpawnXMin: real := SpawnPadding
  const SpawnXMax: real := WorldWidth - SpawnPadding
  const SpawnYMin: real := SpawnPadding
  const SpawnYMax: real := WorldHeight - SpawnPadding

  /** A world position. */
  datatype Pos = Pos(x: real, y: real)

  predicate InSpawnArea(p: Pos) {
    SpawnXMin <= p.x <= SpawnXMax && SpawnYMin <= p.y <= SpawnYMax
  }

  /** `max(x_min, min(x_max, x))` on each axis, as `move` and `reproduce`
      write it. */
  function ClampToSpawnArea(p: Pos): (r: Pos)
    ensures InSpawnArea(r)
    ensures InSpawnArea(p) ==> r == p
    ensures r.x == ClampReal(SpawnXMin, SpawnXMax, p.x) && r.y == ClampReal(SpawnYMin, SpawnYMax, p.y)
  {
    Pos(ClampReal(SpawnXMin, SpawnXMax, p.x), ClampReal(SpawnYMin, SpawnYMax, p.y))
  }

  /** Clamping into the spawn area moves a point no further from any point
      already inside it, axis by axis. */
  lemma ClampMovesTowardArea(p: Pos, q: Pos)
    ensures var r := ClampToSpawnArea(p);
            InSpawnArea(q) ==>
            && (p.x <= q.x ==> p.x <= r.x <= q.x) && (q.x <= p.x ==> q.x <= r.x <= p.x)
            && (p.y <= q.y ==> p.y <= r.y <= q.y) && (q.y <= p.y ==> q.y <= r.y <= p.y)
  {
  }

  /** `Being.spawn_location`: a uniform point of the spawn area, the two
      `random.uniform` draws given as fractions `u`, `v` in [0, 1]. */
  function SpawnLocation(u: real, v: real): (r: Pos)
    requires 0.0 <= u <= 1.0 && 0.0 <= v <= 1.0
    ensures InSpawnArea(r)
  {
    Pos(Uniform(SpawnXMin, SpawnXMax, u), Uniform(SpawnYMin, SpawnYMax, v))
  }

  /** Squared Euclidean distance, the only distance the prototype computes. */
  function SquaredDistance(a: Pos, b: Pos): real {
    (a.x - b.x) * (a.x - b.x) + (a.y - b.y) * (a.y - b.y)
  }
}
