/**
 The prototype's mammals (herbivores and carnivores): the bookkeeping of
 energy, reproduction cooldown, death and decay, and the clamping of every
 position into the spawn area. Steering (turning towards targets, wandering,
 fields of view) works on angles through trigonometry and is not modelled;
 a move takes the resulting unit direction as input.
 */
module ProtoMammal {
  import opened Numeric
  import opened ProtoWorld

  datatype Kind = Herbivore | Carnivore

  /** The fields of a species' configuration that the bookkeeping reads. */
  datatype MammalConfig = MammalConfig(
    size: real,
    decayTimer: real,
    baseSpeed: real,
    initialEnergy: real,
    maxEnergy: real,
    moveCost: real,
    energyGain: real,
    reproductionEnergyCost: real,
    offspringInitialEnergy: real,
    reproductionCooldownMax: real,
    reproductionCooldownMaxOffspring: real,
    reproductionEnergyThreshold: real)

  /** `HERBIVORE_CONFIG`, with `MAMMAL_CONFIG` filling in what it leaves out. */
  const HerbivoreConfig: MammalConfig :=
    MammalConfig(16.0, 3.0, 18.0, 600.0, 1000.0, 1.0, 300.0, 300.0, 400.0, 1.5, 2.5, 800.0)

  /** `CARNIVORE_CONFIG`, with `MAMMAL_CONFIG` filling in what it leaves out. */
  const CarnivoreConfig: MammalConfig :=
    MammalConfig(16.0, 3.0, 24.0, 600.0, 900.0, 0.3, 0.0, 300.0, 250.0, 90.0, 150.0, 650.0)

  function ConfigOf(kind: Kind): MammalConfig {
    match kind
    case Herbivore => HerbivoreConfig
    case Carnivore => CarnivoreConfig
  }

  datatype Mammal = Mammal(
    kind: Kind,
    alive: bool,
    pos: Pos,
    speed: real,
    energy: real,
    reproductionCooldown: real,
    decayTimer: real)

  /** `Mammal.__init__` through a species constructor: alive, at a random
      point of the spawn area, at base speed with the initial energy, free
      to reproduce as far as the cooldown goes. */
  function NewMammal(kind: Kind, u: real, v: real): (r: Mammal)
    requires 0.0 <= u <= 1.0 && 0.0 <= v <= 1.0
    ensures r.alive && r.kind == kind && InSpawnArea(r.pos)
    ensures r.energy == ConfigOf(kind).initialEnergy && r.speed == ConfigOf(kind).baseSpeed
    ensures r.reproductionCooldown == 0.0 && r.decayTimer == ConfigOf(kind).decayTimer
  {
    var cfg := ConfigOf(kind);
    Mammal(kind, true, SpawnLocation(u, v), cfg.baseSpeed, cfg.initialEnergy, 0.0, cfg.decayTimer)
  }

  /** `can_reproduce`. */
  predicate CanReproduce(m: Mammal) {
    m.reproductionCooldown <= 0.0 && m.energy >= ConfigOf(m.kind).reproductionEnergyThreshold
  }

  /** `is_despawnable`. */
  predicate IsDespawnable(m: Mammal) {
    !m.alive && m.decayTimer <= 0.0
  }

  /** Both species start with less energy than they need to reproduce. */
  lemma NewbornCannotReproduce(kind: Kind, u: real, v: real)
    requires 0.0 <= u <= 1.0 && 0.0 <= v <= 1.0
    ensures !CanReproduce(NewMammal(kind, u, v))
  {
  }

  /** `move`, after turning: step along the unit direction `(dirX, dirY)` at
      the current speed for `dt` seconds, clamp into the spawn area, and pay
      `move_cost * speed * dt` energy (never a negative amount). */
  function Move(m: Mammal, dirX: real, dirY: real, dt: real): (r: Mammal)
    ensures InSpawnArea(r.pos)
    ensures r.pos == ClampToSpawnArea(Pos(m.pos.x + m.speed * dirX * dt, m.pos.y + m.speed * dirY * dt))
    ensures r.energy <= m.energy
    ensures r.energy == m.energy - MaxReal(ConfigOf(m.kind).moveCost * m.speed * dt, 0.0)
    ensures r == m.(pos := r.pos, energy := r.energy)
  {
    var moved := Pos(m.pos.x + m.speed * dirX * dt, m.pos.y + m.speed * dirY * dt);
    var cost := ConfigOf(m.kind).moveCost * m.speed * dt;
    m.(pos := ClampToSpawnArea(moved), energy := m.energy - MaxReal(cost, 0.0))
  }

  /** `Mammal.update`: a running cooldown counts down by `dt`; then a mammal
      out of energy dies where it stands, and any other moves. */
  function Update(m: Mammal, dirX: real, dirY: real, dt: real): (r: Mammal)
    ensures r.reproductionCooldown == (if m.reproductionCooldown > 0.0 then m.reproductionCooldown - dt else m.reproductionCooldown)
    ensures m.energy <= 0.0 ==> !r.alive && r.pos == m.pos && r.energy == m.energy
    ensures m.energy > 0.0 ==> r.alive == m.alive && InSpawnArea(r.pos)
    ensures m.energy > 0.0 ==> r == Move(m.(reproductionCooldown := r.reproductionCooldown), dirX, dirY, dt)
    ensures r.energy <= m.energy
    ensures r.kind == m.kind && r.speed == m.speed && r.decayTimer == m.decayTimer
  {
    var cooled := if m.reproductionCooldown > 0.0 then m.(reproductionCooldown := m.reproductionCooldown - dt) else m;
    if cooled.energy <= 0.0 then cooled.(alive := false)
    else Move(cooled, dirX, dirY, dt)
  }

  /** Frame after frame of `Update`, one direction per frame. */
  function Updates(m: Mammal, dirs: seq<(real, real)>, dt: real): (r: Mammal)
    decreases |dirs|
  {
    if |dirs| == 0 then m else Updates(Update(m, dirs[0].0, dirs[0].1, dt), dirs[1..], dt)
  }

  /** However many frames pass, a mammal that does not eat never gains
      energy and never leaves the spawn area. */
  lemma {:induction false} UpdatesNeverGainEnergy(m: Mammal, dirs: seq<(real, real)>, dt: real)
    requires InSpawnArea(m.pos)
    ensures Updates(m, dirs, dt).energy <= m.energy
    ensures InSpawnArea(Updates(m, dirs, dt).pos)
    decreases |dirs|
  {
    if |dirs| > 0 {
      UpdatesNeverGainEnergy(Update(m, dirs[0].0, dirs[0].1, dt), dirs[1..], dt);
    }
  }

  /** A mammal that has run out of energy is dead after the next frame and
      stays put, dead, for every frame after it. */
  lemma {:induction false} StarvedMammalStaysDead(m: Mammal, dirs: seq<(real, real)>, dt: real)
    requires m.energy <= 0.0 && |dirs| > 0
    ensures !Updates(m, dirs, dt).alive && Updates(m, dirs, dt).pos == m.pos
    decreases |dirs|
  {
    var m1 := Update(m, dirs[0].0, dirs[0].1, dt);
    if |dirs| > 1 {
      StarvedMammalStaysDead(m1, dirs[1..], dt);
    }
  }

  /** `decay`: a dead mammal's decay timer runs down by `dt` and the call
      answers true; a living mammal is left alone and the call answers
      false. */
  function Decay(m: Mammal, dt: real): (r: (Mammal, bool))
    ensures r.1 <==> !m.alive
    ensures m.alive ==> r.0 == m
    ensures !m.alive ==> r.0 == m.(decayTimer := m.decayTimer - dt)
  {
    if !m.alive then (m.(decayTimer := m.decayTimer - dt), true) else (m, false)
  }

  /** A dead mammal becomes removable once the decay steps have used up its
      timer, and a living one never is. */
  lemma DecayLeadsToDespawn(m: Mammal, dt: real)
    ensures m.alive ==> !IsDespawnable(Decay(m, dt).0)
    ensures !m.alive && dt >= m.decayTimer ==> IsDespawnable(Decay(m, dt).0)
  {
  }

  /** `reproduce`: only when allowed, the parent pays the reproduction cost
      and restarts its cooldown, and the offspring of the same species gets
      the offspring energy and cooldown at a random offset of at most twice
      the parent's size on each axis, clamped into the spawn area. The draws
      `du`, `dv` stand for the two `random.uniform` fractions. */
  function Reproduce(m: Mammal, du: real, dv: real): (r: (Mammal, Option<Mammal>))
    requires 0.0 <= du <= 1.0 && 0.0 <= dv <= 1.0
    ensures !CanReproduce(m) ==> r == (m, None)
    ensures CanReproduce(m) ==>
              var cfg := ConfigOf(m.kind);
              && r.0 == m.(energy := m.energy - cfg.reproductionEnergyCost, reproductionCooldown := cfg.reproductionCooldownMax)
              && r.1.Some?
              && r.1.value.kind == m.kind && r.1.value.alive
              && r.1.value.energy == cfg.offspringInitialEnergy
              && r.1.value.reproductionCooldown == cfg.reproductionCooldownMaxOffspring
              && r.1.value.speed == cfg.baseSpeed && r.1.value.decayTimer == cfg.decayTimer
              && InSpawnArea(r.1.value.pos)
              && (InSpawnArea(m.pos) ==>
                    AbsReal(r.1.value.pos.x - m.pos.x) <= 2.0 * cfg.size && AbsReal(r.1.value.pos.y - m.pos.y) <= 2.0 * cfg.size)
  {
    if !CanReproduce(m) then (m, None)
    else
      var cfg := ConfigOf(m.kind);
      var maxDistance := cfg.size * 2.0;
      var near := Pos(m.pos.x + Uniform(-maxDistance, maxDistance, du), m.pos.y + Uniform(-maxDistance, maxDistance, dv));
      var pos := ClampToSpawnArea(near);
      ClampMovesTowardArea(near, m.pos);
      var offspring := Mammal(m.kind, true, pos, cfg.baseSpeed, cfg.offspringInitialEnergy, cfg.reproductionCooldownMaxOffspring, cfg.decayTimer);
      (m.(energy := m.energy - cfg.reproductionEnergyCost, reproductionCooldown := cfg.reproductionCooldownMax), Some(offspring))
  }

  /** Right after reproducing, neither the parent nor the offspring can
      reproduce: both cooldowns are positive. */
  lemma ReproductionStartsCooldowns(m: Mammal, du: real, dv: real)
    requires 0.0 <= du <= 1.0 && 0.0 <= dv <= 1.0 && CanReproduce(m)
    ensures !CanReproduce(Reproduce(m, du, dv).0)
    ensures !CanReproduce(Reproduce(m, du, dv).1.value)
  {
  }

  /** `entity_list.remove(entity)`: drop the first occurrence, if any. */
  function RemoveFirst<T(==)>(s: seq<T>, x: T): (r: seq<T>)
    ensures x !in s ==> r == s
    ensures x in s ==> |r| == |s| - 1 && multiset(r) == multiset(s) - multiset{x}
  {
    if |s| == 0 then s
    else if s[0] == x then
      assert s == [s[0]] + s[1..];
      s[1..]
    else
      assert s == [s[0]] + s[1..];
      [s[0]] + RemoveFirst(s[1..], x)
  }

  /** Where `x` first occurs in `s`. */
  function FirstIndex<T(==)>(s: seq<T>, x: T): (i: nat)
    requires x in s
    ensures i < |s| && s[i] == x && x !in s[..i]
    decreases |s|
  {
    if s[0] == x then 0
    else
      var j := FirstIndex(s[1..], x);
      assert s[..j + 1] == [s[0]] + s[1..][..j];
      j + 1
  }

  /** What is removed is the first occurrence, and the rest keeps its order. */
  lemma {:induction false} RemoveFirstDropsFirstOccurrence<T>(s: seq<T>, x: T)
    requires x in s
    ensures var i := FirstIndex(s, x); RemoveFirst(s, x) == s[..i] + s[i + 1..]
    decreases |s|
  {
    if s[0] == x {
      assert s[..0] + s[1..] == s[1..];
    } else {
      var t := s[1..];
      assert x in t by { assert s == [s[0]] + t; }
      var j := FirstIndex(t, x);
      RemoveFirstDropsFirstOccurrence(t, x);
      var rest := RemoveFirst(t, x);
      assert rest == t[..j] + t[j + 1..];
      assert FirstIndex(s, x) == j + 1;
      assert RemoveFirst(s, x) == [s[0]] + rest;
      ConsOfSplit(s, j);
    }
  }

  /** Putting the head back in front of a split tail. */
  lemma ConsOfSplit<T>(s: seq<T>, j: nat)
    requires j + 1 < |s|
    ensures [s[0]] + (s[1..][..j] + s[1..][j + 1..]) == s[..j + 1] + s[j + 2..]
  {
    assert s[..j + 1] == [s[0]] + s[1..][..j];
    assert s[j + 2..] == s[1..][j + 1..];
  }

  /** `consume_entity`: gain the eaten entity's energy up to the maximum,
      and take the entity out of its list when it is there. */
  function ConsumeEntity<T(==)>(m: Mammal, gain: real, entity: T, entities: seq<T>): (r: (Mammal, seq<T>))
    ensures r.0 == m.(energy := MinReal(m.energy + gain, ConfigOf(m.kind).maxEnergy))
    ensures r.0.energy <= ConfigOf(m.kind).maxEnergy
    ensures gain >= 0.0 && m.energy <= ConfigOf(m.kind).maxEnergy ==> r.0.energy >= m.energy
    ensures r.1 == RemoveFirst(entities, entity)
  {
    (m.(energy := MinReal(m.energy + gain, ConfigOf(m.kind).maxEnergy)), RemoveFirst(entities, entity))
  }
}
