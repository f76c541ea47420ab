/**
 The prototype's plants: placed by rejection sampling so that no two plants
 come closer than 90% of the full-grown size, then grown through four
 stages, each stage lasting ten seconds give or take 30%.
 */
module ProtoPlant {
  import opened Numeric
  import opened ProtoWorld

  /** `PLANT_CONFIG["size"]` and `["energy_gain"]`, one entry per stage. */
  const Sizes: seq<int> := [5, 10, 20, 30]
  const EnergyGains: seq<int> := [100, 200, 300, 400]

  /** `PLANT_CONFIG["growth_stages"]`. */
  const GrowthStages: int := 4

  /** `1 / PLANT_CONFIG["growth_rate"]`: seconds per stage. */
  const BaseGrowthTime: real := 1.0 / 0.1

  /** `PLANT_CONFIG["spawn_attempts"]`. */
  const SpawnAttempts: nat := 100

  /** `.9 * full_growth_size` and its square. */
  const MinDistance: real := 0.9 * 30.0
  const MinDistanceSquared: real := MinDistance * MinDistance

  /** A plant of the prototype; its sprite is the stage's entry of the
      sprite list and is not modelled. */
  datatype Plant = Plant(pos: Pos, growthStage: int, size: int, energyGain: int, growthTimer: real)

  /** Size and energy gain are the current stage's entries. */
  predicate Valid(p: Plant) {
    0 <= p.growthStage < GrowthStages && p.size == Sizes[p.growthStage] && p.energyGain == EnergyGains[p.growthStage]
  }

  /** `reset_growth_timer`: `base_time * (1 + k / 100)` for the drawn
      `k = randint(-30, 30)`, so between 7 and 13 seconds. */
  function GrowthTime(k: int): (r: real)
    requires -30 <= k <= 30
    ensures r == BaseGrowthTime * (1.0 + k as real / 100.0)
    ensures 7.0 <= r <= 13.0
  {
    var variation := BaseGrowthTime * (k as real / 100.0);
    BaseGrowthTime + variation
  }

  /** `Plant.__init__`: the given stage, or the drawn `randint(0, 3)` when
      none is given, with that stage's size and energy and a fresh timer. */
  function NewPlant(pos: Pos, stage: Option<int>, stageDraw: int, k: int): (r: Plant)
    requires stage.Some? ==> 0 <= stage.value < GrowthStages
    requires 0 <= stageDraw < GrowthStages && -30 <= k <= 30
    ensures Valid(r) && r.pos == pos && r.growthTimer == GrowthTime(k)
    ensures r.growthStage == (if stage.Some? then stage.value else stageDraw)
  {
    var s := if stage.Some? then stage.value else stageDraw;
    Plant(pos, s, Sizes[s], EnergyGains[s], GrowthTime(k))
  }

  /** `Plant.grow`, `dt` being the mammals' shared frame time. A plant at the
      last stage is left alone; otherwise a positive timer runs down by
      `dt`, and an expired one moves the plant to the next stage with a new
      timer. */
  function Grow(p: Plant, dt: real, k: int): (r: Plant)
    requires Valid(p) && -30 <= k <= 30
    ensures Valid(r) && r.pos == p.pos
    ensures p.growthStage == GrowthStages - 1 ==> r == p
    ensures p.growthStage < GrowthStages - 1 && p.growthTimer > 0.0 ==>
              r == p.(growthTimer := p.growthTimer - dt)
    ensures p.growthStage < GrowthStages - 1 && p.growthTimer <= 0.0 ==>
              r.growthStage == p.growthStage + 1 && r.growthTimer == GrowthTime(k)
    ensures r.growthStage == p.growthStage || r.growthStage == p.growthStage + 1
  {
    if p.growthStage == GrowthStages - 1 then p
    else if p.growthTimer > 0.0 then p.(growthTimer := p.growthTimer - dt)
    else
      var s := p.growthStage + 1;
      p.(growthStage := s, size := Sizes[s], energyGain := EnergyGains[s], growthTimer := GrowthTime(k))
  }

  /** Sizes and energy gains rise with the stage, so growing never shrinks a
      plant or makes it less nourishing. */
  lemma GrowNeverShrinks(p: Plant, dt: real, k: int)
    requires Valid(p) && -30 <= k <= 30
    ensures Grow(p, dt, k).size >= p.size && Grow(p, dt, k).energyGain >= p.energyGain
  {
  }

  /** `abs(p[0] - pos[0]) < min_distance and abs(p[1] - pos[1]) < min_distance`:
      the bounding-box prefilter. */
  predicate Near(q: Pos, pos: Pos) {
    AbsReal(q.x - pos.x) < MinDistance && AbsReal(q.y - pos.y) < MinDistance
  }

  /** The placement rule itself: at least the minimum distance from every
      existing plant. */
  predicate Spaced(pos: Pos, existing: seq<Pos>) {
    forall q :: q in existing ==> SquaredDistance(pos, q) >= MinDistanceSquared
  }

  /** `nearby_plants`: the existing positions inside the bounding box, in
      order. */
  function Nearby(existing: seq<Pos>, pos: Pos): (r: seq<Pos>)
    ensures forall q :: q in r <==> q in existing && Near(q, pos)
  {
    if |existing| == 0 then []
    else (if Near(existing[0], pos) then [existing[0]] else []) + Nearby(existing[1..], pos)
  }

  /** Squaring is monotone on non-negative values. */
  lemma SquareMonotone(m: real, a: real)
    requires 0.0 <= m <= a
    ensures m * m <= a * a
  {
    MulMonotone(m, m, a);
    assert m * m <= m * a;
    MulMonotone(a, m, a);
    assert a * m <= a * a;
  }

  /** The prefilter never drops a neighbour that is too close: any position
      within the minimum distance lies inside the bounding box. */
  lemma PrefilterSound(q: Pos, pos: Pos)
    requires SquaredDistance(pos, q) < MinDistanceSquared
    ensures Near(q, pos)
  {
    var dx := pos.x - q.x;
    var dy := pos.y - q.y;
    MulNonNegative(AbsReal(dx), AbsReal(dx));
    MulNonNegative(AbsReal(dy), AbsReal(dy));
    assert dx * dx == AbsReal(dx) * AbsReal(dx);
    assert dy * dy == AbsReal(dy) * AbsReal(dy);
    if AbsReal(q.x - pos.x) >= MinDistance {
      SquareMonotone(MinDistance, AbsReal(dx));
      assert false;
    }
    if AbsReal(q.y - pos.y) >= MinDistance {
      SquareMonotone(MinDistance, AbsReal(dy));
      assert false;
    }
  }

  /** Checking only the prefiltered neighbours decides the placement rule. */
  lemma NearbyDecidesSpacing(pos: Pos, existing: seq<Pos>)
    ensures Spaced(pos, existing) <==> forall q :: q in Nearby(existing, pos) ==> SquaredDistance(pos, q) >= MinDistanceSquared
  {
    forall q | q in existing && SquaredDistance(pos, q) < MinDistanceSquared
      ensures q in Nearby(existing, pos)
    {
      PrefilterSound(q, pos);
    }
  }

  /** One attempt's candidate, `random.uniform` over the spawn area. */
  function Candidate(draw: (real, real)): (r: Pos)
    requires 0.0 <= draw.0 <= 1.0 && 0.0 <= draw.1 <= 1.0
    ensures InSpawnArea(r)
  {
    SpawnLocation(draw.0, draw.1)
  }

  /** The position search of `Plant.create`: up to 100 candidates, each
      checked against the prefiltered neighbours by squared distance; the
      first candidate that passes is taken and the search stops. */
  method FindSpot(existing: seq<Pos>, draws: seq<(real, real)>) returns (r: Option<Pos>)
    requires |draws| == SpawnAttempts
    requires forall i :: 0 <= i < |draws| ==> 0.0 <= draws[i].0 <= 1.0 && 0.0 <= draws[i].1 <= 1.0
    ensures r.Some? ==> InSpawnArea(r.value) && Spaced(r.value, existing)
    ensures r.Some? ==> exists i :: 0 <= i < |draws| && r.value == Candidate(draws[i])
                                    && forall j :: 0 <= j < i ==> !Spaced(Candidate(draws[j]), existing)
    ensures r.None? <==> forall i :: 0 <= i < |draws| ==> !Spaced(Candidate(draws[i]), existing)
  {
    var a := 0;
    while a < |draws|
      invariant 0 <= a <= |draws|
      invariant forall j :: 0 <= j < a ==> !Spaced(Candidate(draws[j]), existing)
    {
      var pos := Candidate(draws[a]);
      var nearby := Nearby(existing, pos);
      // The inner loop stops at the first neighbour that is too close.
      var k := 0;
      while k < |nearby| && SquaredDistance(pos, nearby[k]) >= MinDistanceSquared
        invariant 0 <= k <= |nearby|
        invariant forall m :: 0 <= m < k ==> SquaredDistance(pos, nearby[m]) >= MinDistanceSquared
      {
        k := k + 1;
      }
      var valid := k == |nearby|;
      NearbyDecidesSpacing(pos, existing);
      if valid {
        return Some(pos);
      }
      a := a + 1;
    }
    return None;
  }

  /** `Plant.create`: a plant on the first acceptable candidate, or nothing
      after 100 rejections. */
  method Create(existing: seq<Pos>, draws: seq<(real, real)>, stage: Option<int>, stageDraw: int, k: int) returns (r: Option<Plant>)
    requires |draws| == SpawnAttempts
    requires forall i :: 0 <= i < |draws| ==> 0.0 <= draws[i].0 <= 1.0 && 0.0 <= draws[i].1 <= 1.0
    requires stage.Some? ==> 0 <= stage.value < GrowthStages
    requires 0 <= stageDraw < GrowthStages && -30 <= k <= 30
    ensures r.Some? ==> Valid(r.value) && InSpawnArea(r.value.pos) && Spaced(r.value.pos, existing)
    ensures r.Some? ==> r.value.growthStage == (if stage.Some? then stage.value else stageDraw)
    ensures r.Some? ==> r.value.growthTimer == GrowthTime(k)
    ensures r.Some? ==> exists i :: 0 <= i < |draws| && r.value.pos == Candidate(draws[i])
                                    && forall j :: 0 <= j < i ==> !Spaced(Candidate(draws[j]), existing)
    ensures r.None? <==> forall i :: 0 <= i < |draws| ==> !Spaced(Candidate(draws[i]), existing)
  {
    var spot := FindSpot(existing, draws);
    if spot.None? {
      return None;
    }
    return Some(NewPlant(spot.value, stage, stageDraw, k));
  }
}
