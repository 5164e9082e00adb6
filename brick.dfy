/**
 * Bricks: hit points and score from fixed per-kind tables, shake and flash
 * timers, a particle burst and a score reward on the first destruction only.
 *
 * The constructor passes 'brick' to the entity and then overwrites the type
 * with the brick's kind ('normal' by default), so a brick's type tag is its
 * kind; the engine's search for type 'brick' therefore finds no brick.
 */
module Bricks {
  import opened Entities

  const ShakeMillis: real := 200.0
  const ParticleLife: real := 1000.0

  /** A particle of the destruction burst; only its remaining life is modelled. */
  datatype Particle = Particle(life: real)

  /** The state of a brick besides its component map; `rewards` lists the score each `giveReward` call added. */
  datatype BrickState = BrickState(core: Core, color: string, maxHp: int, hp: int, points: int,
                                   shakeTime: real, hitFlash: real, particles: seq<Particle>, rewards: seq<int>)

  /** `getInitialHp`. */
  function InitialHp(kind: string): (hp: int)
    ensures 1 <= hp <= 3
    ensures kind !in {"strong", "metal"} ==> hp == 1
  {
    match kind
    case "strong" => 2
    case "bomb" => 1
    case "metal" => 3
    case "glass" => 1
    case _ => 1
  }

  /** `getInitialPoints`. */
  function InitialPoints(kind: string): (p: int)
    ensures 10 <= p <= 50
    ensures kind !in {"strong", "bomb", "metal", "bonus"} ==> p == 10
  {
    match kind
    case "strong" => 20
    case "bomb" => 15
    case "metal" => 30
    case "glass" => 10
    case "bonus" => 50
    case _ => 10
  }

  /** Every kind is worth at least ten points per hit point. */
  lemma PointsPerHp(kind: string)
    ensures InitialPoints(kind) >= 10 * InitialHp(kind)
  {
  }

  /** `new Brick(x, y, w, h, color, kind)`. */
  function NewBrick(x: real, y: real, w: real, h: real, color: string, kind: string): (b: BrickState)
    ensures b.core == NewCore(x, y, w, h, kind)
    ensures b.maxHp == InitialHp(kind) && b.hp == b.maxHp && b.points == InitialPoints(kind)
    ensures b.shakeTime == 0.0 && b.hitFlash == 0.0 && b.particles == [] && b.rewards == []
  {
    BrickState(NewCore(x, y, w, h, "brick").(typeTag := kind), color, InitialHp(kind), InitialHp(kind),
               InitialPoints(kind), 0.0, 0.0, [], [])
  }

  /** The type tag a new brick carries is 'brick' only for a brick whose kind is literally 'brick'. */
  lemma BrickTypeOverwritten(x: real, y: real, w: real, h: real, color: string, kind: string)
    ensures NewBrick(x, y, w, h, color, kind).core.typeTag == "brick" <==> kind == "brick"
    ensures NewBrick(x, y, w, h, color, "normal").core.typeTag != "brick"
  {
  }

  /** `updateAnimations`: the shake timer runs down in ms; the flash fades by `3 · dt` and stops at 0. */
  function Animated(b: BrickState, dt: real): (r: BrickState)
    ensures r == b.(shakeTime := r.shakeTime, hitFlash := r.hitFlash)
    ensures b.shakeTime > 0.0 ==> r.shakeTime == b.shakeTime - dt * 1000.0
    ensures b.shakeTime <= 0.0 ==> r.shakeTime == b.shakeTime
    ensures b.hitFlash >= 0.0 ==> r.hitFlash >= 0.0
    ensures dt >= 0.0 ==> r.hitFlash <= b.hitFlash || b.hitFlash < 0.0
    ensures b.hitFlash > 0.0 && b.hitFlash - dt * 3.0 >= 0.0 ==> r.hitFlash == b.hitFlash - dt * 3.0
    ensures b.hitFlash > 0.0 && b.hitFlash - dt * 3.0 < 0.0 ==> r.hitFlash == 0.0
    ensures b.hitFlash <= 0.0 ==> r.hitFlash == b.hitFlash
  {
    var shake := if b.shakeTime > 0.0 then b.shakeTime - dt * 1000.0 else b.shakeTime;
    var flash :=
      if b.hitFlash > 0.0 then (if b.hitFlash - dt * 3.0 < 0.0 then 0.0 else b.hitFlash - dt * 3.0)
      else b.hitFlash;
    b.(shakeTime := shake, hitFlash := flash)
  }

  /** The particles that survive a step: each loses `dt · 1000` of life, and those still alive stay in order. */
  function AgeParticles(ps: seq<Particle>, dt: real): (r: seq<Particle>)
    ensures |r| <= |ps|
    ensures forall q :: q in r ==> q.life > 0.0
    ensures (forall k :: 0 <= k < |ps| ==> ps[k].life > dt * 1000.0) ==> |r| == |ps|
  {
    if ps == [] then []
    else
      var aged := Particle(ps[0].life - dt * 1000.0);
      var rest := AgeParticles(ps[1..], dt);
      if aged.life > 0.0 then [aged] + rest else rest
  }

  /** Ageing two runs of particles is ageing each run, in order, and one particle stays, `dt · 1000` younger,
      exactly when it still has life left: so the survivors keep their order. */
  lemma {:induction false} AgeParticlesAppend(a: seq<Particle>, b: seq<Particle>, dt: real, p: Particle)
    ensures AgeParticles(a + b, dt) == AgeParticles(a, dt) + AgeParticles(b, dt)
    ensures AgeParticles([p], dt) == if p.life - dt * 1000.0 > 0.0 then [Particle(p.life - dt * 1000.0)] else []
    decreases |a|
  {
    if a == [] {
      assert a + b == b;
    } else {
      assert (a + b)[0] == a[0] && (a + b)[1..] == a[1..] + b;
      AgeParticlesAppend(a[1..], b, dt, p);
    }
  }

  function ParticlesAged(b: BrickState, dt: real): (r: BrickState)
    ensures r == b.(particles := AgeParticles(b.particles, dt))
  {
    b.(particles := AgeParticles(b.particles, dt))
  }

  /** `update`: an inactive or destroyed brick is left alone. */
  function BrickTick(b: BrickState, dt: real): (r: BrickState)
    ensures !b.core.active || b.core.destroyed ==> r == b
    ensures b.core.active && !b.core.destroyed ==>
              r == b.(shakeTime := r.shakeTime, hitFlash := r.hitFlash, particles := AgeParticles(b.particles, dt))
    ensures b.core.active && !b.core.destroyed ==>
              r.shakeTime == if b.shakeTime > 0.0 then b.shakeTime - dt * 1000.0 else b.shakeTime
    ensures b.core.active && !b.core.destroyed ==>
              r.hitFlash == if b.hitFlash <= 0.0 then b.hitFlash else if b.hitFlash - dt * 3.0 < 0.0 then 0.0 else b.hitFlash - dt * 3.0
    ensures b.core.active && !b.core.destroyed ==> |r.particles| <= |b.particles|
  {
    if !b.core.active || b.core.destroyed then b
    else ParticlesAged(Animated(b, dt), dt)
  }

  /** The burst `createParticles` adds: 20 particles for a bomb, 8 otherwise, each with life 1000. */
  function Burst(kind: string): (ps: seq<Particle>)
    ensures |ps| == if kind == "bomb" then 20 else 8
    ensures forall p :: p in ps ==> p.life == ParticleLife
  {
    seq(if kind == "bomb" then 20 else 8, _ => Particle(ParticleLife))
  }

  /**
   * `destroy`: the first call sets the flags, adds the burst and pays the
   * reward; on a brick already destroyed it does nothing.
   */
  function DestroyBrick(b: BrickState): (r: BrickState)
    ensures b.core.destroyed ==> r == b
    ensures !b.core.destroyed ==> r.core == DestroyCore(b.core) && r.rewards == b.rewards + [b.points]
    ensures !b.core.destroyed ==> r.particles == b.particles + Burst(b.core.typeTag)
    ensures r.hp == b.hp && r.maxHp == b.maxHp && r.points == b.points
  {
    if b.core.destroyed then b
    else b.(core := DestroyCore(b.core), particles := b.particles + Burst(b.core.typeTag), rewards := b.rewards + [b.points])
  }

  /** Destroying twice is destroying once: the reward is paid a single time. */
  lemma DestroyIdempotent(b: BrickState)
    ensures DestroyBrick(DestroyBrick(b)) == DestroyBrick(b)
    ensures |DestroyBrick(b).rewards| == |b.rewards| + (if b.core.destroyed then 0 else 1)
  {
  }

  /**
   * `hit(damage)`: lowers hp and flashes; at hp 0 or below the brick is
   * destroyed and `true` returned, otherwise it shakes for 200 ms.
   */
  function HitBrick(b: BrickState, damage: int): (r: (bool, BrickState))
    ensures r.0 <==> b.hp - damage <= 0
    ensures r.1.hp == b.hp - damage && r.1.hitFlash == 1.0
    ensures r.0 ==> r.1.core.destroyed
    ensures r.0 && !b.core.destroyed ==> !r.1.core.active && r.1.rewards == b.rewards + [b.points]
    ensures !r.0 ==> r.1.shakeTime == ShakeMillis && r.1.core == b.core && r.1.rewards == b.rewards
    ensures |r.1.rewards| <= |b.rewards| + 1
  {
    var damaged := b.(hp := b.hp - damage, hitFlash := 1.0);
    if damaged.hp <= 0 then (true, DestroyBrick(damaged))
    else (false, damaged.(shakeTime := ShakeMillis))
  }

  /** Hitting a brick that is already destroyed lowers hp again but never pays a second reward. */
  lemma HitDestroyedBrick(b: BrickState, damage: int)
    requires b.core.destroyed
    ensures HitBrick(b, damage).1.rewards == b.rewards
    ensures HitBrick(b, damage).1.hp == b.hp - damage
    ensures b.hp <= 0 && damage >= 0 ==> HitBrick(b, damage).0
  {
  }

  /** A fresh brick falls to its first unit hit exactly when its kind has one hit point, and then pays its points once. */
  lemma UnitHitsToDestroy(x: real, y: real, w: real, h: real, color: string, kind: string)
    ensures var b := NewBrick(x, y, w, h, color, kind);
            var (gone, b1) := HitBrick(b, 1);
            (gone <==> InitialHp(kind) == 1)
            && (gone ==> b1.rewards == [InitialPoints(kind)])
  {
  }

  /** `setHp`: hp is clamped at 0 from below, and 0 destroys the brick. */
  function WithHp(b: BrickState, hp: int): (r: BrickState)
    ensures r.hp >= 0 && (hp >= 0 ==> r.hp == hp) && (hp < 0 ==> r.hp == 0)
    ensures r.hp == 0 ==> r.core.destroyed
    ensures r.hp > 0 ==> r == b.(hp := hp)
  {
    var clamped := if hp > 0 then hp else 0;
    if clamped <= 0 then DestroyBrick(b.(hp := clamped)) else b.(hp := clamped)
  }

  /** `setType`: the tag, maxHp, hp and points all follow the new kind. */
  function WithType(b: BrickState, kind: string): (r: BrickState)
    ensures r.core == b.core.(typeTag := kind)
    ensures r.maxHp == InitialHp(kind) && r.hp == r.maxHp && r.points == InitialPoints(kind)
    ensures r == b.(core := r.core, maxHp := r.maxHp, hp := r.hp, points := r.points)
  {
    b.(core := b.core.(typeTag := kind), maxHp := InitialHp(kind), hp := InitialHp(kind), points := InitialPoints(kind))
  }

  /** `reset`: live and whole again, with no shake, flash or particles. */
  function ResetBrick(b: BrickState): (r: BrickState)
    ensures r.core == ResetCore(b.core) && r.hp == b.maxHp && r.maxHp == b.maxHp
    ensures r.shakeTime == 0.0 && r.hitFlash == 0.0 && r.particles == []
    ensures r.points == b.points && r.rewards == b.rewards && r.color == b.color
  {
    b.(core := ResetCore(b.core), hp := b.maxHp, shakeTime := 0.0, hitFlash := 0.0, particles := [])
  }

  /** After a reset a destroyed brick can be hit and destroyed again, paying a second reward. */
  lemma ResetAllowsSecondReward(b: BrickState)
    requires b.maxHp == 1
    ensures var (gone, r) := HitBrick(ResetBrick(DestroyBrick(b)), 1);
            gone && |r.rewards| == |DestroyBrick(b).rewards| + 1
  {
  }

  /** `clone`: a new brick of the same box, colour and kind, with hp, maxHp and points copied. */
  function CloneBrick(b: BrickState): (r: BrickState)
    ensures r.core == NewCore(b.core.x, b.core.y, b.core.width, b.core.height, b.core.typeTag)
    ensures r.hp == b.hp && r.maxHp == b.maxHp && r.points == b.points && r.color == b.color
    ensures r.particles == [] && r.rewards == [] && r.shakeTime == 0.0 && r.hitFlash == 0.0
  {
    NewBrick(b.core.x, b.core.y, b.core.width, b.core.height, b.color, b.core.typeTag).(hp := b.hp, maxHp := b.maxHp, points := b.points)
  }

  /** A `Brick` object: the entity part and the brick's own fields. */
  class Brick {
    const base: Entity
    var color: string
    var maxHp: int
    var hp: int
    var points: int
    var shakeTime: real
    var hitFlash: real
    var particles: seq<Particle>
    var rewards: seq<int>

    ghost predicate Valid()
      reads this, base
    {
      base.Valid()
    }

    function State(): BrickState
      reads this, base
    {
      BrickState(base.State(), color, maxHp, hp, points, shakeTime, hitFlash, particles, rewards)
    }

    constructor (x: real, y: real, w: real, h: real, c: string, kind: string)
      ensures Valid() && fresh(base) && base.components == []
      ensures State() == NewBrick(x, y, w, h, c, kind)
    {
      base := new Entity(x, y, w, h, "brick");
      new;
      color := c;
      base.typeTag := kind;
      maxHp := InitialHp(kind);
      hp := maxHp;
      points := InitialPoints(kind);
      base.destroyed := false;
      shakeTime, hitFlash, particles, rewards := 0.0, 0.0, [], [];
    }

    method Update(dt: real)
      requires Valid()
      modifies this
      ensures Valid() && State() == BrickTick(old(State()), dt)
    {
      if !base.active || base.destroyed {
        return;
      }
      UpdateAnimations(dt);
      UpdateParticles(dt);
    }

    method UpdateAnimations(dt: real)
      requires Valid()
      modifies this
      ensures Valid() && State() == Animated(old(State()), dt)
    {
      if shakeTime > 0.0 {
        shakeTime := shakeTime - dt * 1000.0;
      }
      if hitFlash > 0.0 {
        hitFlash := hitFlash - dt * 3.0;
        if hitFlash < 0.0 {
          hitFlash := 0.0;
        }
      }
    }

    /** Filters the particle list, ageing each one. */
    method UpdateParticles(dt: real)
      requires Valid()
      modifies this
      ensures Valid() && State() == ParticlesAged(old(State()), dt)
    {
      var kept: seq<Particle> := [];
      var i := |particles|;
      while i > 0
        invariant 0 <= i <= |particles|
        invariant kept == AgeParticles(particles[i..], dt)
      {
        i := i - 1;
        var aged := Particle(particles[i].life - dt * 1000.0);
        assert particles[i..][1..] == particles[i + 1..];
        if aged.life > 0.0 {
          kept := [aged] + kept;
        }
      }
      assert particles[0..] == particles;
      particles := kept;
    }

    method Destroy()
      requires Valid()
      modifies this, base`destroyed, base`active
      ensures Valid() && State() == DestroyBrick(old(State()))
    {
      if base.destroyed {
        return;
      }
      base.destroyed := true;
      base.active := false;
      particles := particles + Burst(base.typeTag);
      rewards := rewards + [points];
    }

    method Hit(damage: int) returns (destroyedNow: bool)
      requires Valid()
      modifies this, base`destroyed, base`active
      ensures Valid() && (destroyedNow, State()) == HitBrick(old(State()), damage)
    {
      hp := hp - damage;
      hitFlash := 1.0;
      if hp <= 0 {
        Destroy();
        return true;
      }
      shakeTime := ShakeMillis;
      return false;
    }

    method SetHp(h: int)
      requires Valid()
      modifies this, base`destroyed, base`active
      ensures Valid() && State() == WithHp(old(State()), h)
    {
      hp := if h > 0 then h else 0;
      if hp <= 0 {
        Destroy();
      }
    }

    method SetType(kind: string)
      requires Valid()
      modifies this, base`typeTag
      ensures Valid() && State() == WithType(old(State()), kind)
    {
      base.typeTag := kind;
      maxHp := InitialHp(kind);
      hp := maxHp;
      points := InitialPoints(kind);
    }

    method Reset()
      requires Valid()
      modifies this, base`destroyed, base`active, base`visible
      ensures Valid() && State() == ResetBrick(old(State()))
    {
      base.Reset();
      hp := maxHp;
      shakeTime, hitFlash, particles := 0.0, 0.0, [];
    }

    method Clone() returns (b: Brick)
      requires Valid()
      ensures fresh(b) && fresh(b.base) && b.Valid() && b.State() == CloneBrick(State())
    {
      b := new Brick(base.x, base.y, base.width, base.height, color, base.typeTag);
      b.hp, b.maxHp, b.points := hp, maxHp, points;
    }
  }
}
