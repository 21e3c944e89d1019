/** The particle bursts of the mini-game: `createExplosion` when the skier
    hits a tree, `createSparks` when a gate is collected and `createSnow`
    for the ambient puffs. `rand(k)` is the `k`-th value `Math.random()`
    returns; a burst starting at draw `k` uses the draws that follow in the
    order the JavaScript object literals evaluate them. */
module SkiBursts {
  import opened SkiEntities

  const ExplosionColor: string := "#ff6b6b"
  const SparkColor: string := "#00d4ff"
  const SnowColor: string := "rgba(255,255,255,0.65)"

  const ExplosionCount: nat := 10
  const SparkCount: nat := 14
  const SnowCount: nat := 8

  const ExplosionLife: int := 22
  const SparkLife: int := 18
  const SnowLife: int := 26

  /** Every draw is a value `Math.random()` can return. */
  ghost predicate UnitStream(rand: nat -> real)
  {
    forall k: nat :: 0.0 <= rand(k) < 1.0
  }

  /** An explosion particle drawn from `rand(j)` and `rand(j + 1)`, for
      `vx` then `vy`. */
  function ExplosionParticle(x: real, y: real, rand: nat -> real, j: nat): Particle
  {
    Particle(x, y, (rand(j) - 0.5) * 4.5, (rand(j + 1) - 0.8) * 4.2, ExplosionLife, ExplosionColor)
  }

  /** `createExplosion(x, y)`: ten red particles at `(x, y)` that live 22
      frames and fly out mostly upward. */
  function Explosion(x: real, y: real, rand: nat -> real, k: nat): (ps: seq<Particle>)
    ensures |ps| == ExplosionCount
    ensures forall p :: p in ps ==> p.x == x && p.y == y && p.life == ExplosionLife && p.color == ExplosionColor
  {
    seq(ExplosionCount, i requires 0 <= i < ExplosionCount => ExplosionParticle(x, y, rand, k + 2 * i))
  }

  /** A spark drawn from `rand(j)` and `rand(j + 1)`, for `vx` then `vy`. */
  function SparkParticle(x: real, y: real, rand: nat -> real, j: nat): Particle
  {
    Particle(x, y, (rand(j) - 0.5) * 6.2, (rand(j + 1) - 0.8) * 5.4, SparkLife, SparkColor)
  }

  /** `createSparks(x, y)`: fourteen cyan particles at `(x, y)` that live 18
      frames. */
  function Sparks(x: real, y: real, rand: nat -> real, k: nat): (ps: seq<Particle>)
    ensures |ps| == SparkCount
    ensures forall p :: p in ps ==> p.x == x && p.y == y && p.life == SparkLife && p.color == SparkColor
  {
    seq(SparkCount, i requires 0 <= i < SparkCount => SparkParticle(x, y, rand, k + 2 * i))
  }

  /** A snow flake drawn from `rand(j)` to `rand(j + 3)`: the `x` and `y`
      offsets, then `vx` and `vy`. */
  function SnowParticle(x: real, y: real, rand: nat -> real, j: nat): Particle
  {
    Particle(x + (rand(j) - 0.5) * 80.0, y + (rand(j + 1) - 0.5) * 60.0,
             (rand(j + 2) - 0.5) * 0.8, (rand(j + 3) - 0.2) * 1.2, SnowLife, SnowColor)
  }

  /** `createSnow(x, y)`: eight translucent flakes scattered in an 80 by 60
      box around `(x, y)` that live 26 frames and drift slowly. */
  function Snow(x: real, y: real, rand: nat -> real, k: nat): (ps: seq<Particle>)
    ensures |ps| == SnowCount
    ensures forall p :: p in ps ==> p.life == SnowLife && p.color == SnowColor
  {
    seq(SnowCount, i requires 0 <= i < SnowCount => SnowParticle(x, y, rand, k + 4 * i))
  }

  /** An explosion flies out at most 2.25 pixels a frame sideways, and
      between 3.36 up and 0.84 down. */
  lemma ExplosionBounds(x: real, y: real, rand: nat -> real, k: nat)
    requires UnitStream(rand)
    ensures forall p :: p in Explosion(x, y, rand, k) ==> -2.25 <= p.vx < 2.25 && -3.36 <= p.vy < 0.84
  {
  }

  /** Sparks fly out at most 3.1 pixels a frame sideways, and between 4.32
      up and 1.08 down. */
  lemma SparkBounds(x: real, y: real, rand: nat -> real, k: nat)
    requires UnitStream(rand)
    ensures forall p :: p in Sparks(x, y, rand, k) ==> -3.1 <= p.vx < 3.1 && -4.32 <= p.vy < 1.08
  {
  }

  /** Snow flakes start within 40 pixels sideways and 30 vertically of the
      puff's centre and drift slowly. */
  lemma SnowBounds(x: real, y: real, rand: nat -> real, k: nat)
    requires UnitStream(rand)
    ensures forall p :: p in Snow(x, y, rand, k) ==>
              x - 40.0 <= p.x < x + 40.0 && y - 30.0 <= p.y < y + 30.0 &&
              -0.4 <= p.vx < 0.4 && -0.24 <= p.vy < 0.96
  {
  }
}
