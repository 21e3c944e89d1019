/** The state of the mini-game as one value, and what each step of the game
    does to it: the constructor, `start`, `stop`, `spawnObjects`, `update`
    and one frame of `loop`. These functions are the specification the
    `SkiGame` class is proved against; the lemmas state what the game
    promises about them. */
module SkiWorld {
  import opened Numbers
  import opened SkiEntities
  import opened SkiBursts
  import opened SkiSweeps

  const BaseSpeed: real := 2.2
  const MaxSpeed: real := 8.0
  const Acceleration: real := 0.00035
  const FinishDistance: real := 2000.0
  const FinishBonus: real := 500.0
  const SpawnIntervalBase: real := 520.0
  const MinSpawnInterval: real := 240.0
  const SpawnSpeedFactor: real := 30.0
  const MaxFrame: real := 60.0
  const Steering: real := 0.12
  const ScrollRate: real := 0.06
  const ScoreRate: real := 0.012
  const GateChance: real := 0.33
  const SnowChance: real := 0.25

  /** The fields of a `SkiGame` that the simulation reads and writes;
      `drawn` counts the `Math.random()` values used so far. */
  datatype World = World(
    isRunning: bool,
    score: real,
    player: Player,
    speed: real,
    distance: real,
    obstacles: seq<Obstacle>,
    checkpoints: seq<Checkpoint>,
    particles: seq<Particle>,
    pointerX: real,
    spawnCooldown: real,
    drawn: nat)

  /** What holds of every state the game reaches: the speed stays between
      its start value and its cap, the skier, trees and gates keep their
      sizes, no particle is left without life, and the spawn cooldown never
      exceeds the base interval. */
  ghost predicate Inv(g: World)
  {
    && BaseSpeed <= g.speed <= MaxSpeed
    && g.player.width == PlayerWidth && g.player.height == PlayerHeight
    && (forall o :: o in g.obstacles ==> o.width == ObstacleSize && o.height == ObstacleSize)
    && (forall c :: c in g.checkpoints ==> c.width == GateWidth && c.height == GateHeight)
    && (forall p :: p in g.particles ==> p.life > 0)
    && g.spawnCooldown <= SpawnIntervalBase
  }

  /** `resetPlayer()` with a canvas of `w` by `h` pixels: the skier is
      centred horizontally at 78% of the height, and the pointer target
      follows. Without a canvas nothing changes. */
  function ResetPlayer(g: World, hasCanvas: bool, w: real, h: real): (r: World)
    ensures !hasCanvas ==> r == g
    ensures hasCanvas ==> r.player.x == r.pointerX == w / 2.0 && r.player.y == h * 0.78
    ensures r.player.width == g.player.width && r.player.height == g.player.height
    ensures r.(player := g.player, pointerX := g.pointerX) == g
  {
    if !hasCanvas then g
    else g.(player := g.player.(x := w / 2.0, y := h * 0.78), pointerX := w / 2.0)
  }

  /** The state the constructor leaves: idle, nothing on the slope. */
  function Initial(hasCanvas: bool, w: real, h: real): (r: World)
    ensures !r.isRunning && r.score == 0.0 && r.distance == 0.0 && r.speed == BaseSpeed
    ensures r.obstacles == [] && r.checkpoints == [] && r.particles == []
    ensures Inv(r)
  {
    ResetPlayer(World(false, 0.0, Player(0.0, 0.0, PlayerWidth, PlayerHeight), BaseSpeed, 0.0,
                      [], [], [], 0.0, 0.0, 0), hasCanvas, w, h)
  }

  /** `start()`: without a canvas and a drawing context nothing happens;
      otherwise a new run begins from zero score and distance, the base
      speed, empty lists and no cooldown, with the skier re-centred. The
      stream of random draws goes on where it was. */
  function Start(g: World, ready: bool, w: real, h: real): (r: World)
    ensures !ready ==> r == g
    ensures ready ==> r.isRunning && r.score == 0.0 && r.distance == 0.0 && r.speed == BaseSpeed
    ensures ready ==> r.obstacles == [] && r.checkpoints == [] && r.particles == [] && r.spawnCooldown == 0.0
    ensures ready ==> r.player.x == w / 2.0 && r.drawn == g.drawn
    ensures Inv(g) ==> Inv(r)
  {
    if !ready then g
    else ResetPlayer(g.(isRunning := true, score := 0.0, distance := 0.0, speed := BaseSpeed,
                        obstacles := [], checkpoints := [], particles := [], spawnCooldown := 0.0),
                     true, w, h)
  }

  /** `stop(message)`, state part: the run ends. */
  function Stop(g: World): (r: World)
    ensures !r.isRunning && r.(isRunning := g.isRunning) == g
  {
    g.(isRunning := false)
  }

  /** `spawnObjects(dt)`: the cooldown drops by `dt`; while it is still
      positive nothing else happens. Otherwise it restarts at
      `max(240, 520 - speed * 30)`, one tree is added just above the top
      edge, a gate with probability 0.33 and a snow puff with probability
      0.25. */
  function Spawn(g: World, dt: real, w: real, h: real, rand: nat -> real): (r: World)
    ensures g.spawnCooldown - dt > 0.0 ==> r == g.(spawnCooldown := g.spawnCooldown - dt)
    ensures r.(obstacles := g.obstacles, checkpoints := g.checkpoints, particles := g.particles,
               spawnCooldown := g.spawnCooldown, drawn := g.drawn) == g
    ensures g.spawnCooldown - dt <= 0.0 ==>
              && r.spawnCooldown == Max(MinSpawnInterval, SpawnIntervalBase - g.speed * SpawnSpeedFactor)
              && MinSpawnInterval <= r.spawnCooldown
              && |r.obstacles| == |g.obstacles| + 1 && r.obstacles[..|g.obstacles|] == g.obstacles
              && r.obstacles[|g.obstacles|].y == -ObstacleSize
              && r.obstacles[|g.obstacles|].width == ObstacleSize
              && r.obstacles[|g.obstacles|].height == ObstacleSize
              && (r.checkpoints == g.checkpoints
                  || (&& |r.checkpoints| == |g.checkpoints| + 1
                      && r.checkpoints[..|g.checkpoints|] == g.checkpoints
                      && r.checkpoints[|g.checkpoints|] == Checkpoint(r.checkpoints[|g.checkpoints|].x,
                                                                      -GateHeight, GateWidth, GateHeight, false)))
              && (|r.particles| == |g.particles| || |r.particles| == |g.particles| + SnowCount)
              && r.particles[..|g.particles|] == g.particles
              && (forall p :: p in r.particles[|g.particles|..] ==> p.life == SnowLife)
  {
    var cooldown := g.spawnCooldown - dt;
    if cooldown > 0.0 then g.(spawnCooldown := cooldown)
    else
      var g1 := g.(spawnCooldown := Max(MinSpawnInterval, SpawnIntervalBase - g.speed * SpawnSpeedFactor));
      SpawnSnow(SpawnGate(SpawnTree(g1, w, rand), w, rand), w, h, rand)
  }

  /** A tree just above the top edge, at a random position across the
      canvas: one draw. */
  function SpawnTree(g: World, w: real, rand: nat -> real): (r: World)
    ensures |r.obstacles| == |g.obstacles| + 1 && r.obstacles[..|g.obstacles|] == g.obstacles
    ensures var o := r.obstacles[|g.obstacles|];
            o.y == -ObstacleSize && o.width == ObstacleSize && o.height == ObstacleSize
            && o.x == Spread(rand(g.drawn), w, 20.0)
    ensures r.drawn == g.drawn + 1
    ensures r.(obstacles := g.obstacles, drawn := g.drawn) == g
  {
    g.(obstacles := g.obstacles + [Obstacle(Spread(rand(g.drawn), w, 20.0), -ObstacleSize, ObstacleSize, ObstacleSize)],
       drawn := g.drawn + 1)
  }

  /** With probability 0.33, a gate just above the top edge: one draw for
      the coin and, on success, one for the position. */
  function SpawnGate(g: World, w: real, rand: nat -> real): (r: World)
    ensures rand(g.drawn) < GateChance <==> |r.checkpoints| == |g.checkpoints| + 1
    ensures rand(g.drawn) < GateChance ==>
              && r.checkpoints[..|g.checkpoints|] == g.checkpoints
              && r.checkpoints[|g.checkpoints|]
                 == Checkpoint(Spread(rand(g.drawn + 1), w, 60.0), -GateHeight, GateWidth, GateHeight, false)
              && r.drawn == g.drawn + 2
    ensures rand(g.drawn) >= GateChance ==> r.checkpoints == g.checkpoints && r.drawn == g.drawn + 1
    ensures r.(checkpoints := g.checkpoints, drawn := g.drawn) == g
  {
    if rand(g.drawn) < GateChance then
      g.(checkpoints := g.checkpoints + [Checkpoint(Spread(rand(g.drawn + 1), w, 60.0), -GateHeight, GateWidth, GateHeight, false)],
         drawn := g.drawn + 2)
    else g.(drawn := g.drawn + 1)
  }

  /** With probability 0.25, a snow puff in the middle of the canvas at 30%
      of its height: one draw for the coin, then the puff's own draws. */
  function SpawnSnow(g: World, w: real, h: real, rand: nat -> real): (r: World)
    ensures rand(g.drawn) < SnowChance ==>
              r.particles == g.particles + Snow(w / 2.0, h * 0.3, rand, g.drawn + 1)
              && r.drawn == g.drawn + 1 + 4 * SnowCount
    ensures rand(g.drawn) >= SnowChance ==> r.particles == g.particles && r.drawn == g.drawn + 1
    ensures r.(particles := g.particles, drawn := g.drawn) == g
  {
    if rand(g.drawn) < SnowChance then
      g.(particles := g.particles + Snow(w / 2.0, h * 0.3, rand, g.drawn + 1), drawn := g.drawn + 1 + 4 * SnowCount)
    else g.(drawn := g.drawn + 1)
  }

  /** `Math.random() * (w - 2 * margin) + margin`: a horizontal position
      that keeps `margin` pixels from both edges of a wide enough canvas. */
  function Spread(r: real, w: real, margin: real): (x: real)
    ensures 0.0 <= r < 1.0 && w > 2.0 * margin ==> margin <= x < w - margin
  {
    var m := w - 2.0 * margin;
    assert 0.0 <= r < 1.0 && m > 0.0 ==> 0.0 <= r * m < m by {
      if 0.0 <= r < 1.0 && m > 0.0 {
        ScaleBelow(r, m);
      }
    }
    r * m + margin
  }

  /** How far the slope scrolls in a frame of `dt` milliseconds at the
      given speed; the distance travelled grows by the same amount. */
  function Drop(speed: real, dt: real): (dy: real)
    ensures 0.0 <= speed && 0.0 <= dt ==> 0.0 <= dy
  {
    speed * dt * ScrollRate
  }

  /** The points a frame of `dt` milliseconds earns at the given speed. */
  function Gain(speed: real, dt: real): (points: real)
    ensures 0.0 <= speed && 0.0 <= dt ==> 0.0 <= points
  {
    speed * dt * ScoreRate
  }

  /** The first lines of `update(dt)`: the speed ramps up by
      `dt * 0.00035` to the cap of 8, then distance and score grow with the
      new speed, by `speed * dt * 0.06` and `speed * dt * 0.012`. */
  function Ramp(g: World, dt: real): (r: World)
    ensures 0.0 <= dt && g.speed <= MaxSpeed ==> g.speed <= r.speed <= MaxSpeed
    ensures r.speed == MaxSpeed || r.speed == g.speed + dt * Acceleration
    ensures r.distance - g.distance == Drop(r.speed, dt)
    ensures r.score - g.score == Gain(r.speed, dt)
    ensures r.(speed := g.speed, distance := g.distance, score := g.score) == g
  {
    var speed := Min(MaxSpeed, g.speed + dt * Acceleration);
    g.(speed := speed, distance := g.distance + Drop(speed, dt), score := g.score + Gain(speed, dt))
  }

  /** Steering: the skier moves 12% of the way toward the pointer and is
      then clamped so that the whole skier stays on a canvas `w` wide. */
  function Steer(g: World, w: real): (r: World)
    ensures w >= g.player.width ==> g.player.width / 2.0 <= r.player.x <= w - g.player.width / 2.0
    ensures g.player.width / 2.0 <= g.player.x + (g.pointerX - g.player.x) * Steering <= w - g.player.width / 2.0
            ==> r.player.x == g.player.x + (g.pointerX - g.player.x) * Steering
    ensures r.player.(x := g.player.x) == g.player
    ensures r.(player := g.player) == g
  {
    var steered := g.player.x + (g.pointerX - g.player.x) * Steering;
    g.(player := g.player.(x := Clamp(steered, g.player.width / 2.0, w - g.player.width / 2.0)))
  }

  /** The three filters of `update(dt)`, run in order with the scroll
      `dy = speed * dt * 0.06`: obstacles, then gates, then particles. */
  function Scroll(g: World, dt: real, h: real, rand: nat -> real): (r: World)
    ensures forall p :: p in r.particles ==> p.life > 0
    ensures r.(score := g.score, obstacles := g.obstacles, checkpoints := g.checkpoints,
               particles := g.particles, drawn := g.drawn) == g
  {
    var dy := Drop(g.speed, dt);
    AgeAll(PassGates(PassTrees(g, dy, h, rand), dy, h, rand))
  }

  /** The obstacle filter on the whole state. */
  function PassTrees(g: World, dy: real, h: real, rand: nat -> real): World
  {
    var os := SweepObstacles(g.obstacles, g.player, dy, h, rand, g.score, g.particles, g.drawn);
    g.(obstacles := os.kept, score := os.score, particles := os.particles, drawn := os.drawn)
  }

  /** The checkpoint filter on the whole state. */
  function PassGates(g: World, dy: real, h: real, rand: nat -> real): World
  {
    var cs := SweepCheckpoints(g.checkpoints, g.player, dy, h, rand, g.score, g.particles, g.drawn);
    g.(checkpoints := cs.kept, score := cs.score, particles := cs.particles, drawn := cs.drawn)
  }

  /** The particle filter on the whole state. */
  function AgeAll(g: World): World
  {
    g.(particles := AgeParticles(g.particles))
  }

  /** `update(dt)` past its early return and before the finish test. */
  function Advance(g: World, dt: real, w: real, h: real, rand: nat -> real): World
  {
    Scroll(Steer(Ramp(g, dt), w), dt, h, rand)
  }

  /** The end of `update(dt)`: once the distance reaches 2000 the run
      earns 500 points and stops. */
  function Finish(g: World): (r: World)
    ensures g.distance >= FinishDistance ==> !r.isRunning && r.score == g.score + FinishBonus
    ensures g.distance < FinishDistance ==> r == g
    ensures r.(isRunning := g.isRunning, score := g.score) == g
  {
    if g.distance >= FinishDistance then Stop(g.(score := g.score + FinishBonus)) else g
  }

  /** `update(dt)`: nothing at all while the game is not running. */
  function Update(g: World, dt: real, w: real, h: real, rand: nat -> real): (r: World)
    ensures !g.isRunning ==> r == g
  {
    if !g.isRunning then g else Finish(Advance(g, dt, w, h, rand))
  }

  /** One frame of `loop(prevTs)`, `elapsed` milliseconds after the previous
      one: the frame time is capped at 60 ms, then `spawnObjects` and
      `update` run. A stopped game does nothing. */
  function Tick(g: World, elapsed: real, w: real, h: real, rand: nat -> real): (r: World)
    ensures !g.isRunning ==> r == g
  {
    if !g.isRunning then g
    else
      var dt := Min(MaxFrame, elapsed);
      Update(Spawn(g, dt, w, h, rand), dt, w, h, rand)
  }

  /** A new tree lies across the canvas with a 20-pixel margin on each
      side, and a new gate with a 60-pixel margin. */
  lemma SpawnInside(g: World, dt: real, w: real, h: real, rand: nat -> real)
    requires UnitStream(rand) && g.spawnCooldown - dt <= 0.0
    ensures var r := Spawn(g, dt, w, h, rand);
            && (w > 40.0 ==> 20.0 <= r.obstacles[|g.obstacles|].x < w - 20.0)
            && (w > 120.0 && |r.checkpoints| > |g.checkpoints| ==>
                  60.0 <= r.checkpoints[|g.checkpoints|].x < w - 60.0)
  {
  }

  /** The score after a running frame: the distance-based accrual, minus 35
      per tree hit, plus 70 per newly collected gate, plus 500 if the run
      finished in this frame. */
  lemma ScoreLedger(g: World, dt: real, w: real, h: real, rand: nat -> real)
    requires g.isRunning
    ensures var r := Update(g, dt, w, h, rand);
            var dy := Drop(r.speed, dt);
            r.score == g.score + Gain(r.speed, dt)
                       - HitPenalty * ObstacleHits(g.obstacles, r.player, dy) as real
                       + GateBonus * NewGates(g.checkpoints, r.player, dy) as real
                       + (if r.isRunning then 0.0 else FinishBonus)
  {
    var x := Steer(Ramp(g, dt), w);
    var dy := Drop(x.speed, dt);
    var os := SweepObstacles(x.obstacles, x.player, dy, h, rand, x.score, x.particles, x.drawn);
    var cs := SweepCheckpoints(x.checkpoints, x.player, dy, h, rand, os.score, os.particles, os.drawn);
    assert Scroll(x, dt, h, rand).score == cs.score;
  }

  /** After a running frame the trees left are exactly the moved trees that
      the skier did not hit and that are still on screen, and the gates left
      are exactly the moved (and possibly collected) gates still on screen. */
  lemma UpdateLists(g: World, dt: real, w: real, h: real, rand: nat -> real)
    requires g.isRunning
    ensures var r := Update(g, dt, w, h, rand);
            var dy := Drop(r.speed, dt);
            && (forall m :: m in r.obstacles <==> exists o :: o in g.obstacles && m == Fall(o, dy) && Stays(r.player, o, dy, h))
            && (forall t :: t in r.checkpoints <==> exists c :: c in g.checkpoints && t == Touch(c, r.player, dy) && t.y < h + GateMargin)
            && r.obstacles == TreesKept(g.obstacles, r.player, dy, h)
            && r.checkpoints == GatesKept(g.checkpoints, r.player, dy, h)
  {
    var x := Steer(Ramp(g, dt), w);
    var dy := Drop(x.speed, dt);
    var os := SweepObstacles(x.obstacles, x.player, dy, h, rand, x.score, x.particles, x.drawn);
    var cs := SweepCheckpoints(x.checkpoints, x.player, dy, h, rand, os.score, os.particles, os.drawn);
    ObstacleSurvivors(x.obstacles, x.player, dy, h, rand, x.score, x.particles, x.drawn);
    GateSurvivors(x.checkpoints, x.player, dy, h, rand, os.score, os.particles, os.drawn);
    ObstacleFilter(x.obstacles, x.player, dy, h, rand, x.score, x.particles, x.drawn);
    CheckpointFilter(x.checkpoints, x.player, dy, h, rand, os.score, os.particles, os.drawn);
    assert Scroll(x, dt, h, rand).obstacles == os.kept;
    assert Scroll(x, dt, h, rand).checkpoints == cs.kept;
  }

  /** The finish bonus is paid once: a frame stops the run exactly when the
      distance has reached 2000, and from then on frames change nothing
      until the next `start`. */
  lemma FinishOnce(g: World, dt: real, w: real, h: real, rand: nat -> real,
                   elapsed: real, w': real, h': real)
    requires g.isRunning
    ensures var r := Update(g, dt, w, h, rand);
            && (r.isRunning <==> r.distance < FinishDistance)
            && (!r.isRunning ==> Tick(r, elapsed, w', h', rand) == r && Update(r, dt, w', h', rand) == r)
  {
  }

  /** `spawnObjects` keeps the invariant. */
  lemma SpawnKeepsInv(g: World, dt: real, w: real, h: real, rand: nat -> real)
    requires Inv(g) && 0.0 <= dt
    ensures Inv(Spawn(g, dt, w, h, rand))
  {
    var r := Spawn(g, dt, w, h, rand);
    if g.spawnCooldown - dt <= 0.0 {
      var n := |g.particles|;
      assert r.particles == r.particles[..n] + r.particles[n..];
      assert r.obstacles == g.obstacles + [r.obstacles[|g.obstacles|]];
      if |r.checkpoints| > |g.checkpoints| {
        assert r.checkpoints == g.checkpoints + [r.checkpoints[|g.checkpoints|]];
      }
    }
  }

  /** A running `update` keeps the invariant, and the speed never drops. */
  lemma UpdateKeepsInv(g: World, dt: real, w: real, h: real, rand: nat -> real)
    requires Inv(g) && 0.0 <= dt
    ensures Inv(Update(g, dt, w, h, rand))
    ensures g.speed <= Update(g, dt, w, h, rand).speed
    ensures g.isRunning && w >= PlayerWidth ==>
              PlayerWidth / 2.0 <= Update(g, dt, w, h, rand).player.x <= w - PlayerWidth / 2.0
  {
    if g.isRunning {
      var x := Steer(Ramp(g, dt), w);
      var dy := Drop(x.speed, dt);
      var os := SweepObstacles(x.obstacles, x.player, dy, h, rand, x.score, x.particles, x.drawn);
      ObstacleSurvivors(x.obstacles, x.player, dy, h, rand, x.score, x.particles, x.drawn);
      GateSurvivors(x.checkpoints, x.player, dy, h, rand, os.score, os.particles, os.drawn);
      assert Scroll(x, dt, h, rand).obstacles == os.kept;
      assert Inv(Scroll(x, dt, h, rand));
    }
  }

  /** Every frame of the loop keeps the invariant: the speed never drops
      and never passes 8, and while the canvas is at least as wide as the
      skier, a running frame leaves the skier inside it. */
  lemma TickKeepsInv(g: World, elapsed: real, w: real, h: real, rand: nat -> real)
    requires Inv(g) && 0.0 <= elapsed
    ensures Inv(Tick(g, elapsed, w, h, rand))
    ensures g.speed <= Tick(g, elapsed, w, h, rand).speed <= MaxSpeed
    ensures g.isRunning && w >= PlayerWidth ==>
              PlayerWidth / 2.0 <= Tick(g, elapsed, w, h, rand).player.x <= w - PlayerWidth / 2.0
  {
    if g.isRunning {
      var dt := Min(MaxFrame, elapsed);
      var sp := Spawn(g, dt, w, h, rand);
      SpawnKeepsInv(g, dt, w, h, rand);
      UpdateKeepsInv(sp, dt, w, h, rand);
    }
  }
}
