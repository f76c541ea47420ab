/**
 The plant lifecycle of the arcade simulation: a plant climbs through growth
 levels on a jittered growth timer and, once full-grown, drops seeds on a
 jittered reproduction timer whose delay backs off after a streak of failed
 seed drops and recovers after a streak of successes.

 Every random draw is a parameter. `random.uniform(0.8, 1.2)` is the jitter
 factor `u` itself; the seed-drop direction is its (cos, sin) pair. The
 entity manager's `handle_seed_drop` is not part of this model: a call to it
 is returned as a `SeedRequest`, and its boolean answer is a parameter.
 */
module PlantLifecycle {
  import opened Numeric

  /** Identifies one growth texture; the textures themselves are arcade objects. */
  type Texture = nat

  datatype ReproductionConfig = ReproductionConfig(maxSuccesses: int, maxFails: int, factor: real)

  /** The plant section of the configuration (never mutated after load). */
  datatype PlantConfig = PlantConfig(
    initialCount: nat,
    boundsPadding: real,
    maxGrowthLevel: int,
    maxGrowthTimer: real,
    reproductionDelay: real,
    seedMinDistance: real,
    seedRange: real,
    reproduction: ReproductionConfig)

  /** Consecutive seed-drop outcomes and the current delay multiplier. */
  datatype History = History(successes: int, fails: int, factor: real)

  datatype Plant = Plant(
    x: real,
    y: real,
    growthLevel: int,
    fullGrown: bool,
    texture: Texture,
    growthTextures: seq<Option<Texture>>,
    growthTimer: real,
    reproductionTimer: real,
    history: History)

  datatype PlantError =
    | InvalidGrowthLevel       // growth level outside [1, max_growth_level]
    | MissingEntityManager     // entity_manager is None
    | TextureIndexOutOfRange   // growth_textures[growth_level - 1] raises IndexError
    | MissingTexture           // the arcade sprite cannot be built from a None texture

  /** One call `handle_seed_drop(x, y[, growth_level])`. */
  datatype SeedRequest = SeedRequest(x: real, y: real, growthLevel: Option<int>)

  /** The draws of `drop_seed`: `random.uniform(seed_min_distance, seed_range)`
      as a fraction of its interval, and the cosine and sine of the uniformly
      drawn direction. */
  datatype SeedDraw = SeedDraw(distanceFraction: real, cos: real, sin: real)

  /** The random draws one `update` may consume. */
  datatype TickDraws = TickDraws(deltaTime: real, growthJitter: real, seed: SeedDraw, seedPlaced: bool, reproductionJitter: real)

  /** The outcome of one `update`: the new plant and the seed drop it attempted, if any. */
  datatype Step = Step(plant: Plant, drop: Option<SeedRequest>)

  /** `random.uniform(1 - 0.2, 1 + 0.2)`. */
  predicate Jitter(u: real) {
    0.8 <= u <= 1.2
  }

  /** A non-negative `base` jittered into `value` stays within 20% of it. */
  predicate WithinJitter(base: real, value: real) {
    base >= 0.0 ==> 0.8 * base <= value <= 1.2 * base
  }

  lemma JitteredBetween(base: real, u: real)
    requires Jitter(u)
    ensures WithinJitter(base, base * u)
  {
    if base >= 0.0 {
      MulMonotone(base, 0.8, u);
      MulMonotone(base, u, 1.2);
    }
  }

  predicate SeedDrawOk(d: SeedDraw) {
    0.0 <= d.distanceFraction <= 1.0 && d.cos * d.cos + d.sin * d.sin == 1.0
  }

  predicate TickDrawsOk(t: TickDraws) {
    Jitter(t.growthJitter) && Jitter(t.reproductionJitter) && SeedDrawOk(t.seed)
  }

  /** The configuration values the invariants below rely on. */
  predicate ValidConfig(cfg: PlantConfig) {
    cfg.maxGrowthLevel >= 1 && cfg.reproduction.factor >= 1.0
  }

  /** What every plant satisfies between updates. */
  predicate Valid(cfg: PlantConfig, p: Plant) {
    && ValidConfig(cfg)
    && 1 <= p.growthLevel <= cfg.maxGrowthLevel
    && p.history.successes >= 0
    && p.history.fails >= 0
    && p.history.factor >= 1.0
  }

  /** The full-grown flag agrees with the growth level. */
  predicate Consistent(cfg: PlantConfig, p: Plant) {
    p.fullGrown <==> p.growthLevel == cfg.maxGrowthLevel
  }

  /** Every growth level has a texture. */
  predicate TexturesComplete(cfg: PlantConfig, p: Plant) {
    |p.growthTextures| >= cfg.maxGrowthLevel && forall i :: 0 <= i < cfg.maxGrowthLevel ==> p.growthTextures[i].Some?
  }

  /** The state a freshly constructed plant starts in. */
  predicate Fresh(cfg: PlantConfig, p: Plant) {
    && p.growthTimer == cfg.maxGrowthTimer
    && p.reproductionTimer == cfg.reproductionDelay
    && p.history == History(0, 0, 1.0)
  }

  /** `Plant.__init__`: validates the level and the entity manager, then picks
      the texture of the starting level. */
  function NewPlant(cfg: PlantConfig, x: real, y: real, hasEntityManager: bool,
                    textures: seq<Option<Texture>>, level: int): (r: Result<Plant, PlantError>)
    ensures (level < 1 || level > cfg.maxGrowthLevel) ==> r == Err(InvalidGrowthLevel)
    ensures 1 <= level <= cfg.maxGrowthLevel && !hasEntityManager ==> r == Err(MissingEntityManager)
    ensures r.Ok? <==> (1 <= level <= cfg.maxGrowthLevel && hasEntityManager
                        && level <= |textures| && textures[level - 1].Some?)
    ensures r.Ok? ==> && Fresh(cfg, r.value)
                      && r.value.x == x && r.value.y == y
                      && r.value.growthLevel == level
                      && r.value.growthTextures == textures
                      && Some(r.value.texture) == textures[level - 1]
                      && (r.value.fullGrown <==> level >= cfg.maxGrowthLevel)
  {
    if level < 1 || level > cfg.maxGrowthLevel then Err(InvalidGrowthLevel)
    else if !hasEntityManager then Err(MissingEntityManager)
    else if level - 1 >= |textures| then Err(TextureIndexOutOfRange)
    else if textures[level - 1].None? then Err(MissingTexture)
    else Ok(Plant(x, y, level, level >= cfg.maxGrowthLevel, textures[level - 1].value, textures,
                  cfg.maxGrowthTimer, cfg.reproductionDelay, History(0, 0, 1.0)))
  }

  /** A newly constructed plant satisfies the invariants. */
  lemma NewPlantValid(cfg: PlantConfig, x: real, y: real, hasEntityManager: bool,
                      textures: seq<Option<Texture>>, level: int)
    requires ValidConfig(cfg)
    requires NewPlant(cfg, x, y, hasEntityManager, textures, level).Ok?
    ensures Valid(cfg, NewPlant(cfg, x, y, hasEntityManager, textures, level).value)
    ensures Consistent(cfg, NewPlant(cfg, x, y, hasEntityManager, textures, level).value)
  {
  }

  /** The level `set_growth_level` aims for. */
  function RequestedLevel(cfg: PlantConfig, newLevel: int): int {
    MinInt(MaxInt(newLevel, 1), cfg.maxGrowthLevel)
  }

  /** The index into the texture list for a requested level (0 for an empty list). */
  function TextureIndex(p: Plant, level: int): int {
    MaxInt(0, MinInt(level - 1, |p.growthTextures| - 1))
  }

  predicate TextureAvailable(p: Plant, level: int) {
    var i := TextureIndex(p, level);
    i < |p.growthTextures| && p.growthTextures[i].Some?
  }

  /** Nothing but the growth state differs between `p` and `q`. */
  predicate SameReproduction(p: Plant, q: Plant) {
    && q.x == p.x && q.y == p.y
    && q.growthTextures == p.growthTextures
    && q.reproductionTimer == p.reproductionTimer
    && q.history == p.history
  }

  /** Nothing but the reproduction state differs between `p` and `q`. */
  predicate SameGrowth(p: Plant, q: Plant) {
    && q.x == p.x && q.y == p.y
    && q.growthTextures == p.growthTextures
    && q.growthLevel == p.growthLevel
    && q.fullGrown == p.fullGrown
    && q.texture == p.texture
    && q.growthTimer == p.growthTimer
  }

  /** `set_growth_level`: the full-grown flag follows the raw request; level,
      texture and timer change only when the texture of the clamped level
      exists and something actually differs. */
  function SetGrowthLevel(cfg: PlantConfig, p: Plant, newLevel: int, u: real): (r: Plant)
    requires Jitter(u)
    ensures SameReproduction(p, r)
    ensures r.fullGrown <==> newLevel >= cfg.maxGrowthLevel
    ensures !TextureAvailable(p, RequestedLevel(cfg, newLevel)) ==> r == p.(fullGrown := r.fullGrown)
    ensures TextureAvailable(p, RequestedLevel(cfg, newLevel)) ==>
              && r.growthLevel == RequestedLevel(cfg, newLevel)
              && Some(r.texture) == p.growthTextures[TextureIndex(p, r.growthLevel)]
    ensures r.growthLevel == p.growthLevel && r.texture == p.texture ==> r.growthTimer == p.growthTimer
    ensures r.growthTimer != p.growthTimer ==> r.growthTimer == cfg.maxGrowthTimer * u
    ensures TextureAvailable(p, RequestedLevel(cfg, newLevel)) && (r.growthLevel != p.growthLevel || r.texture != p.texture) ==>
              r.growthTimer == cfg.maxGrowthTimer * u
    ensures 1 <= cfg.maxGrowthLevel ==> (r.growthLevel == p.growthLevel || 1 <= r.growthLevel <= cfg.maxGrowthLevel)
  {
    var fullGrown := newLevel >= cfg.maxGrowthLevel;
    var requested := RequestedLevel(cfg, newLevel);
    var i := TextureIndex(p, requested);
    if i < |p.growthTextures| && p.growthTextures[i].Some? then
      if p.growthLevel != requested || p.texture != p.growthTextures[i].value then
        p.(fullGrown := fullGrown, growthLevel := requested, texture := p.growthTextures[i].value,
           growthTimer := cfg.maxGrowthTimer * u)
      else
        p.(fullGrown := fullGrown)
    else
      p.(fullGrown := fullGrown)
  }

  /** Asking again for the level and texture a plant already shows leaves
      its timer alone. */
  lemma SetGrowthLevelNoOp(cfg: PlantConfig, p: Plant, u: real)
    requires Jitter(u) && Valid(cfg, p) && TextureAvailable(p, p.growthLevel)
    requires Some(p.texture) == p.growthTextures[TextureIndex(p, p.growthLevel)]
    ensures SetGrowthLevel(cfg, p, p.growthLevel, u) == p.(fullGrown := p.growthLevel >= cfg.maxGrowthLevel)
  {
  }

  /** `grow`: the timer runs down; when it reaches zero the plant asks for one
      more level, whatever the size of `dt`. */
  function Grow(cfg: PlantConfig, p: Plant, dt: real, u: real): (r: Plant)
    requires Jitter(u)
    ensures SameReproduction(p, r)
    ensures 1 <= p.growthLevel <= cfg.maxGrowthLevel ==>
              p.growthLevel <= r.growthLevel <= p.growthLevel + 1 && r.growthLevel <= cfg.maxGrowthLevel
    ensures p.growthTimer - dt > 0.0 ==> r == p.(growthTimer := p.growthTimer - dt)
    ensures r.growthLevel != p.growthLevel ==> p.growthTimer - dt <= 0.0 && r.growthTimer == cfg.maxGrowthTimer * u
  {
    var q := p.(growthTimer := p.growthTimer - dt);
    if q.growthTimer <= 0.0 then SetGrowthLevel(cfg, q, p.growthLevel + 1, u) else q
  }

  /** When the growth timer runs out and the next texture exists, the plant
      gains exactly one level and the timer restarts within 20% of its
      maximum; excess time is not carried into a second step. */
  lemma GrowOneLevelOnExpiry(cfg: PlantConfig, p: Plant, dt: real, u: real)
    requires Jitter(u) && Valid(cfg, p) && TexturesComplete(cfg, p)
    requires p.growthLevel < cfg.maxGrowthLevel && p.growthTimer - dt <= 0.0
    ensures Grow(cfg, p, dt, u).growthLevel == p.growthLevel + 1
    ensures WithinJitter(cfg.maxGrowthTimer, Grow(cfg, p, dt, u).growthTimer)
  {
    var q := p.(growthTimer := p.growthTimer - dt);
    assert TextureIndex(q, p.growthLevel + 1) == p.growthLevel;
    assert TextureAvailable(q, p.growthLevel + 1);
    JitteredBetween(cfg.maxGrowthTimer, u);
  }

  /** A missing texture for the next level leaves the level where it was but
      still marks the plant full-grown: the flag no longer agrees with the
      level. */
  lemma MissingTextureMarksFullGrownEarly()
    ensures var cfg := PlantConfig(0, 0.0, 2, 10.0, 5.0, 1.0, 2.0, ReproductionConfig(3, 3, 1.2));
            var p := Plant(0.0, 0.0, 1, false, 7, [Some(7), None], 0.5, 5.0, History(0, 0, 1.0));
            var r := Grow(cfg, p, 1.0, 1.0);
            Consistent(cfg, p) && r.fullGrown && r.growthLevel == 1 && !Consistent(cfg, r)
  {
    var cfg := PlantConfig(0, 0.0, 2, 10.0, 5.0, 1.0, 2.0, ReproductionConfig(3, 3, 1.2));
    var p := Plant(0.0, 0.0, 1, false, 7, [Some(7), None], 0.5, 5.0, History(0, 0, 1.0));
    var q := p.(growthTimer := -0.5);
    assert TextureIndex(q, 2) == 1;
    assert !TextureAvailable(q, 2);
  }

  /** The bookkeeping after one seed-drop attempt: extend the streak of this
      outcome, break the other one, then apply the success reset and the
      failure back-off in that order. */
  function RecordAttempt(rc: ReproductionConfig, h: History, success: bool): (r: History)
    ensures success ==> r.fails == 0
    ensures !success ==> r.successes == 0
    ensures h.factor >= 1.0 && rc.factor >= 1.0 ==> r.factor >= 1.0
    ensures h.successes >= 0 && h.fails >= 0 ==> r.successes >= 0 && r.fails >= 0
    ensures rc.maxSuccesses >= 1 && rc.maxFails >= 1 ==> r.successes < rc.maxSuccesses && r.fails < rc.maxFails
    ensures rc.maxFails >= 1 && success ==>
              r == (if h.successes + 1 >= rc.maxSuccesses then History(0, 0, 1.0) else History(h.successes + 1, 0, h.factor))
    ensures rc.maxSuccesses >= 1 && !success ==>
              r == (if h.fails + 1 >= rc.maxFails then History(0, 0, h.factor * rc.factor) else History(0, h.fails + 1, h.factor))
  {
    var h1 := if success then History(h.successes + 1, 0, h.factor) else History(0, h.fails + 1, h.factor);
    var h2 := if h1.successes >= rc.maxSuccesses then h1.(successes := 0, factor := 1.0) else h1;
    if h2.fails >= rc.maxFails then h2.(fails := 0, factor := h2.factor * rc.factor) else h2
  }

  /** The bookkeeping after a run of attempts, oldest first. */
  function Attempts(rc: ReproductionConfig, h: History, outcomes: seq<bool>): History
    decreases |outcomes|
  {
    if |outcomes| == 0 then h
    else Attempts(rc, RecordAttempt(rc, h, outcomes[0]), outcomes[1..])
  }

  /** `k` equal outcomes in a row. */
  function Streak(outcome: bool, k: nat): (s: seq<bool>)
    ensures |s| == k && forall i :: 0 <= i < k ==> s[i] == outcome
  {
    seq(k, _ => outcome)
  }

  /** `k` failures in a row, shorter than the threshold, only count. */
  lemma {:induction false} FailuresAccumulate(rc: ReproductionConfig, h: History, k: nat)
    requires rc.maxSuccesses >= 1 && h.fails >= 0 && h.fails + k < rc.maxFails
    ensures Attempts(rc, h, Streak(false, k)) == if k == 0 then h else History(0, h.fails + k, h.factor)
    decreases k
  {
    if k > 0 {
      assert Streak(false, k)[0] == false;
      var h1 := RecordAttempt(rc, h, false);
      assert h1 == History(0, h.fails + 1, h.factor);
      assert Streak(false, k)[1..] == Streak(false, k - 1);
      FailuresAccumulate(rc, h1, k - 1);
    }
  }

  /** After `max_fails` consecutive failures, counted from a broken streak,
      the delay factor is multiplied by the configured factor and the
      counters start over. */
  lemma {:induction false} FailStreakBacksOff(rc: ReproductionConfig, h: History)
    requires rc.maxSuccesses >= 1 && rc.maxFails >= 1 && h.fails == 0
    ensures Attempts(rc, h, Streak(false, rc.maxFails)) == History(0, 0, h.factor * rc.factor)
  {
    var k := rc.maxFails - 1;
    var outcomes := Streak(false, rc.maxFails);
    FailuresAccumulate(rc, h, k);
    AttemptsSplit(rc, h, outcomes[..k], outcomes[k..]);
    assert outcomes[..k] == Streak(false, k);
    assert outcomes[..k] + outcomes[k..] == outcomes;
    var hk := Attempts(rc, h, outcomes[..k]);
    assert outcomes[k..] == [false];
    assert Attempts(rc, hk, [false]) == RecordAttempt(rc, hk, false);
  }

  /** `k` successes in a row, shorter than the threshold, only count. */
  lemma {:induction false} SuccessesAccumulate(rc: ReproductionConfig, h: History, k: nat)
    requires rc.maxFails >= 1 && h.successes >= 0 && h.successes + k < rc.maxSuccesses
    requires k > 0 ==> h.fails == 0
    ensures Attempts(rc, h, Streak(true, k)) == if k == 0 then h else History(h.successes + k, 0, h.factor)
    decreases k
  {
    if k > 0 {
      assert Streak(true, k)[0] == true;
      var h1 := RecordAttempt(rc, h, true);
      assert h1 == History(h.successes + 1, 0, h.factor);
      assert Streak(true, k)[1..] == Streak(true, k - 1);
      SuccessesAccumulate(rc, h1, k - 1);
    }
  }

  /** After `max_successes` consecutive successes, counted from a broken
      streak, the delay factor is back at 1. */
  lemma {:induction false} SuccessStreakResets(rc: ReproductionConfig, h: History)
    requires rc.maxSuccesses >= 1 && rc.maxFails >= 1 && h.successes == 0 && h.fails == 0
    ensures Attempts(rc, h, Streak(true, rc.maxSuccesses)) == History(0, 0, 1.0)
  {
    var k := rc.maxSuccesses - 1;
    var outcomes := Streak(true, rc.maxSuccesses);
    SuccessesAccumulate(rc, h, k);
    AttemptsSplit(rc, h, outcomes[..k], outcomes[k..]);
    assert outcomes[..k] == Streak(true, k);
    assert outcomes[..k] + outcomes[k..] == outcomes;
    var hk := Attempts(rc, h, outcomes[..k]);
    assert outcomes[k..] == [true];
    assert Attempts(rc, hk, [true]) == RecordAttempt(rc, hk, true);
  }

  /** Running two batches of attempts is running their concatenation. */
  lemma {:induction false} AttemptsSplit(rc: ReproductionConfig, h: History, a: seq<bool>, b: seq<bool>)
    ensures Attempts(rc, h, a + b) == Attempts(rc, Attempts(rc, h, a), b)
    decreases |a|
  {
    if |a| == 0 {
      assert a + b == b;
    } else {
      assert (a + b)[0] == a[0];
      assert (a + b)[1..] == a[1..] + b;
      AttemptsSplit(rc, RecordAttempt(rc, h, a[0]), a[1..], b);
    }
  }

  /** The delay factor never drops below 1, whatever the outcomes. */
  lemma {:induction false} AttemptsKeepFactor(rc: ReproductionConfig, h: History, outcomes: seq<bool>)
    requires rc.factor >= 1.0 && h.factor >= 1.0
    ensures Attempts(rc, h, outcomes).factor >= 1.0
    decreases |outcomes|
  {
    if |outcomes| > 0 {
      AttemptsKeepFactor(rc, RecordAttempt(rc, h, outcomes[0]), outcomes[1..]);
    }
  }

  /** The seed position `drop_seed` hands to the entity manager: the parent's
      position plus a polar offset. The new plant's level is left to the
      entity manager's default. */
  function DropSeed(cfg: PlantConfig, p: Plant, d: SeedDraw): (r: SeedRequest)
    requires SeedDrawOk(d)
    ensures r.growthLevel.None?
    ensures var dist := Uniform(cfg.seedMinDistance, cfg.seedRange, d.distanceFraction);
            (r.x - p.x) * (r.x - p.x) + (r.y - p.y) * (r.y - p.y) == dist * dist
  {
    var dist := Uniform(cfg.seedMinDistance, cfg.seedRange, d.distanceFraction);
    var dx := dist * d.cos;
    var dy := dist * d.sin;
    assert dx * dx + dy * dy == dist * dist * (d.cos * d.cos + d.sin * d.sin);
    SeedRequest(p.x + dx, p.y + dy, None)
  }

  /** `reproduce`: the timer runs down; when it reaches zero exactly one seed
      drop is attempted, its outcome recorded, and the timer restarts at the
      jittered, backed-off delay. */
  function Reproduce(cfg: PlantConfig, p: Plant, dt: real, seed: SeedDraw, placed: bool, u: real): (r: Step)
    requires SeedDrawOk(seed) && Jitter(u)
    ensures SameGrowth(p, r.plant)
    ensures r.drop.Some? <==> p.reproductionTimer - dt <= 0.0
    ensures r.drop.None? ==> r.plant == p.(reproductionTimer := p.reproductionTimer - dt)
    ensures r.drop.Some? ==> && r.drop.value == DropSeed(cfg, p, seed)
                             && r.plant.history == RecordAttempt(cfg.reproduction, p.history, placed)
    ensures r.drop.Some? ==> r.plant.reproductionTimer == cfg.reproductionDelay * r.plant.history.factor * u
    ensures r.drop.Some? ==> WithinJitter(cfg.reproductionDelay * r.plant.history.factor, r.plant.reproductionTimer)
  {
    var t := p.reproductionTimer - dt;
    if t <= 0.0 then
      var h := RecordAttempt(cfg.reproduction, p.history, placed);
      var base := cfg.reproductionDelay * h.factor;
      JitteredBetween(base, u);
      Step(p.(reproductionTimer := base * u, history := h), Some(DropSeed(cfg, p, seed)))
    else
      Step(p.(reproductionTimer := t), None)
  }

  /** `update`: a full-grown plant only reproduces, any other plant only grows. */
  function Update(cfg: PlantConfig, p: Plant, t: TickDraws): (r: Step)
    requires TickDrawsOk(t)
    ensures p.fullGrown ==> SameGrowth(p, r.plant)
    ensures !p.fullGrown ==> SameReproduction(p, r.plant) && r.drop.None?
    ensures p.fullGrown ==> r.plant.fullGrown
    ensures r.drop.Some? ==> p.fullGrown && r.drop.value.growthLevel.None?
    ensures p.fullGrown ==> r == Reproduce(cfg, p, t.deltaTime, t.seed, t.seedPlaced, t.reproductionJitter)
    ensures p.fullGrown ==> (r.drop.Some? <==> p.reproductionTimer - t.deltaTime <= 0.0)
    ensures !p.fullGrown ==> r.plant == Grow(cfg, p, t.deltaTime, t.growthJitter)
    ensures !p.fullGrown && p.growthTimer - t.deltaTime > 0.0 ==>
              r.plant == p.(growthTimer := p.growthTimer - t.deltaTime)
  {
    if p.fullGrown then Reproduce(cfg, p, t.deltaTime, t.seed, t.seedPlaced, t.reproductionJitter)
    else Step(Grow(cfg, p, t.deltaTime, t.growthJitter), None)
  }

  /** `update` keeps every invariant of a plant. */
  lemma UpdatePreservesValid(cfg: PlantConfig, p: Plant, t: TickDraws)
    requires TickDrawsOk(t) && Valid(cfg, p)
    ensures Valid(cfg, Update(cfg, p, t).plant)
  {
  }

  /** With every growth texture present, the full-grown flag keeps agreeing
      with the level. */
  lemma UpdatePreservesConsistent(cfg: PlantConfig, p: Plant, t: TickDraws)
    requires TickDrawsOk(t) && Valid(cfg, p) && Consistent(cfg, p) && TexturesComplete(cfg, p)
    ensures Consistent(cfg, Update(cfg, p, t).plant)
    ensures TexturesComplete(cfg, Update(cfg, p, t).plant)
  {
    if !p.fullGrown && p.growthTimer - t.deltaTime <= 0.0 {
      var q := p.(growthTimer := p.growthTimer - t.deltaTime);
      assert TextureIndex(q, p.growthLevel + 1) == p.growthLevel;
    }
  }

  /** The plant after a sequence of updates. */
  function Run(cfg: PlantConfig, p: Plant, ticks: seq<TickDraws>): Plant
    requires forall i :: 0 <= i < |ticks| ==> TickDrawsOk(ticks[i])
    decreases |ticks|
  {
    if |ticks| == 0 then p
    else Run(cfg, Update(cfg, p, ticks[0]).plant, ticks[1..])
  }

  /** Over any run the growth level never decreases and never leaves
      [1, max_growth_level], and the delay factor stays at least 1. */
  lemma {:induction false} RunMonotone(cfg: PlantConfig, p: Plant, ticks: seq<TickDraws>)
    requires forall i :: 0 <= i < |ticks| ==> TickDrawsOk(ticks[i])
    requires Valid(cfg, p)
    ensures Valid(cfg, Run(cfg, p, ticks))
    ensures p.growthLevel <= Run(cfg, p, ticks).growthLevel
    ensures p.fullGrown ==> Run(cfg, p, ticks).fullGrown
    decreases |ticks|
  {
    if |ticks| > 0 {
      var q := Update(cfg, p, ticks[0]).plant;
      UpdatePreservesValid(cfg, p, ticks[0]);
      RunMonotone(cfg, q, ticks[1..]);
    }
  }

  /** The draws of one iteration of `spawn_initial`. */
  datatype SpawnDraw = SpawnDraw(level: int, xFraction: real, yFraction: real)

  /** `Plant.spawn_initial`: exactly `initial_count` placement calls, each at a
      random point inside the padded map with a random level, and no retry.
      The x/y clauses define each position from its draws; the bounds clauses
      after them are what those positions guarantee. */
  method SpawnInitial(cfg: PlantConfig, mapWidth: real, mapHeight: real, draws: seq<SpawnDraw>)
    returns (requests: seq<SeedRequest>)
    requires |draws| == cfg.initialCount
    requires forall i :: 0 <= i < |draws| ==>
               && 1 <= draws[i].level <= cfg.maxGrowthLevel
               && 0.0 <= draws[i].xFraction <= 1.0 && 0.0 <= draws[i].yFraction <= 1.0
    ensures |requests| == cfg.initialCount
    ensures forall i :: 0 <= i < |requests| ==>
              && requests[i].growthLevel == Some(draws[i].level)
              && 1 <= draws[i].level <= cfg.maxGrowthLevel
    ensures forall i :: 0 <= i < |requests| && i < |draws| ==>
              && requests[i].x == Uniform(cfg.boundsPadding, mapWidth - cfg.boundsPadding, draws[i].xFraction)
              && requests[i].y == Uniform(cfg.boundsPadding, mapHeight - cfg.boundsPadding, draws[i].yFraction)
    ensures cfg.boundsPadding <= mapWidth - cfg.boundsPadding ==>
              forall i :: 0 <= i < |requests| ==> cfg.boundsPadding <= requests[i].x <= mapWidth - cfg.boundsPadding
    ensures cfg.boundsPadding <= mapHeight - cfg.boundsPadding ==>
              forall i :: 0 <= i < |requests| ==> cfg.boundsPadding <= requests[i].y <= mapHeight - cfg.boundsPadding
  {
    var padding := cfg.boundsPadding;
    requests := [];
    var n := 0;
    while n < cfg.initialCount
      invariant 0 <= n <= cfg.initialCount
      invariant |requests| == n
      invariant forall i :: 0 <= i < n ==>
                  requests[i] == SeedRequest(Uniform(padding, mapWidth - padding, draws[i].xFraction),
                                             Uniform(padding, mapHeight - padding, draws[i].yFraction),
                                             Some(draws[i].level))
    {
      var d := draws[n];
      var x := Uniform(padding, mapWidth - padding, d.xFraction);
      var y := Uniform(padding, mapHeight - padding, d.yFraction);
      requests := requests + [SeedRequest(x, y, Some(d.level))];
      n := n + 1;
    }
  }
}
