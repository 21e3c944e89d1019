/** The `SkiGame` class: the mini-game object whose methods update its own
    fields frame by frame. Each method is proved to move the object's
    state exactly as the matching function of `SkiWorld` says, so every
    property proved there holds of the object. The canvas size `w` by `h`
    that the source reads from the page on each call is a parameter, and
    `random(k)` is the `k`-th value `Math.random()` returns. */
module SkiGame {
  import opened Numbers
  import opened SkiEntities
  import opened SkiBursts
  import opened SkiSweeps
  import opened SkiWorld

  class Game {
    /** Whether the page has the canvas and whether it gave a 2-D context. */
    const hasCanvas: bool
    const hasContext: bool
    /** The values `Math.random()` returns, in order. */
    const random: nat -> real
    /** How many of them have been used. */
    var drawn: nat

    var isRunning: bool
    var score: real
    var player: Player
    var speed: real
    var distance: real
    var obstacles: seq<Obstacle>
    var checkpoints: seq<Checkpoint>
    var particles: seq<Particle>
    var pointerX: real
    var spawnCooldown: real

    /** The object's simulation state as one value. */
    function State(): World
      reads this
    {
      World(isRunning, score, player, speed, distance, obstacles, checkpoints, particles,
            pointerX, spawnCooldown, drawn)
    }

    /** `new SkiGame(...)` on a canvas of `w` by `h` pixels: idle, with the
        skier centred. */
    constructor(hasCanvas: bool, hasContext: bool, random: nat -> real, w: real, h: real)
      ensures this.hasCanvas == hasCanvas && this.hasContext == hasContext && this.random == random
      ensures State() == Initial(hasCanvas, w, h)
    {
      this.hasCanvas := hasCanvas;
      this.hasContext := hasContext;
      this.random := random;
      drawn := 0;
      isRunning := false;
      score := 0.0;
      player := Player(0.0, 0.0, PlayerWidth, PlayerHeight);
      speed := BaseSpeed;
      distance := 0.0;
      obstacles := [];
      checkpoints := [];
      particles := [];
      pointerX := 0.0;
      spawnCooldown := 0.0;
      new;
      ResetPlayer(w, h);
    }

    /** One call of `Math.random()`. */
    method NextRandom() returns (r: real)
      modifies this`drawn
      ensures r == random(old(drawn)) && drawn == old(drawn) + 1
    {
      r := random(drawn);
      drawn := drawn + 1;
    }

    /** `resetPlayer()`. */
    method ResetPlayer(w: real, h: real)
      modifies this`player, this`pointerX
      ensures State() == SkiWorld.ResetPlayer(old(State()), hasCanvas, w, h)
    {
      if !hasCanvas {
        return;
      }
      player := player.(x := w / 2.0, y := h * 0.78);
      pointerX := player.x;
    }

    /** The `mousemove` and `touchmove` handlers: the pointer target is the
        pointer's position relative to the canvas's left edge. They are
        only installed when there is a canvas. */
    method PointerMove(clientX: real, left: real)
      modifies this`pointerX
      ensures hasCanvas ==> pointerX == clientX - left
      ensures !hasCanvas ==> pointerX == old(pointerX)
    {
      if hasCanvas {
        pointerX := clientX - left;
      }
    }

    /** `stop(message)`: the run ends. */
    method Stop()
      modifies this`isRunning
      ensures State() == SkiWorld.Stop(old(State()))
    {
      isRunning := false;
    }

    /** `start()`: a fresh run, followed at once by its first frame, which
        comes `elapsed` milliseconds after the start time was taken. */
    method Start(elapsed: real, w: real, h: real)
      modifies this
      ensures !(hasCanvas && hasContext) ==> State() == old(State())
      ensures hasCanvas && hasContext ==>
                State() == Tick(SkiWorld.Start(old(State()), true, w, h), elapsed, w, h, random)
    {
      if !hasCanvas || !hasContext {
        return;
      }
      isRunning := true;
      score := 0.0;
      distance := 0.0;
      speed := BaseSpeed;
      obstacles := [];
      checkpoints := [];
      particles := [];
      spawnCooldown := 0.0;
      ResetPlayer(w, h);
      assert State() == SkiWorld.Start(old(State()), true, w, h);
      var _ := Loop(elapsed, w, h);
    }

    /** `createExplosion(x, y)`: ten particles pushed one by one. */
    method CreateExplosion(x: real, y: real)
      modifies this`particles, this`drawn
      ensures particles == old(particles) + Explosion(x, y, random, old(drawn))
      ensures drawn == old(drawn) + 2 * ExplosionCount
    {
      ghost var burst := Explosion(x, y, random, drawn);
      for i := 0 to ExplosionCount
        invariant particles == old(particles) + burst[..i]
        invariant drawn == old(drawn) + 2 * i
      {
        var rx := NextRandom();
        var ry := NextRandom();
        var p := Particle(x, y, (rx - 0.5) * 4.5, (ry - 0.8) * 4.2, ExplosionLife, ExplosionColor);
        assert p == burst[i];
        particles := particles + [p];
        assert burst[..i + 1] == burst[..i] + [p];
      }
      assert burst[..ExplosionCount] == burst;
    }

    /** `createSparks(x, y)`: fourteen particles pushed one by one. */
    method CreateSparks(x: real, y: real)
      modifies this`particles, this`drawn
      ensures particles == old(particles) + Sparks(x, y, random, old(drawn))
      ensures drawn == old(drawn) + 2 * SparkCount
    {
      ghost var burst := Sparks(x, y, random, drawn);
      for i := 0 to SparkCount
        invariant particles == old(particles) + burst[..i]
        invariant drawn == old(drawn) + 2 * i
      {
        var rx := NextRandom();
        var ry := NextRandom();
        var p := Particle(x, y, (rx - 0.5) * 6.2, (ry - 0.8) * 5.4, SparkLife, SparkColor);
        assert p == burst[i];
        particles := particles + [p];
        assert burst[..i + 1] == burst[..i] + [p];
      }
      assert burst[..SparkCount] == burst;
    }

    /** `createSnow(x, y)`: eight flakes pushed one by one. */
    method CreateSnow(x: real, y: real)
      modifies this`particles, this`drawn
      ensures particles == old(particles) + Snow(x, y, random, old(drawn))
      ensures drawn == old(drawn) + 4 * SnowCount
    {
      ghost var burst := Snow(x, y, random, drawn);
      for i := 0 to SnowCount
        invariant particles == old(particles) + burst[..i]
        invariant drawn == old(drawn) + 4 * i
      {
        var rx := NextRandom();
        var ry := NextRandom();
        var rvx := NextRandom();
        var rvy := NextRandom();
        var p := Particle(x + (rx - 0.5) * 80.0, y + (ry - 0.5) * 60.0,
                          (rvx - 0.5) * 0.8, (rvy - 0.2) * 1.2, SnowLife, SnowColor);
        assert p == burst[i];
        particles := particles + [p];
        assert burst[..i + 1] == burst[..i] + [p];
      }
      assert burst[..SnowCount] == burst;
    }

    /** `spawnObjects(dt)`. */
    method SpawnObjects(dt: real, w: real, h: real)
      modifies this`spawnCooldown, this`obstacles, this`checkpoints, this`particles, this`drawn
      ensures State() == Spawn(old(State()), dt, w, h, random)
    {
      spawnCooldown := spawnCooldown - dt;
      if spawnCooldown > 0.0 {
        return;
      }
      spawnCooldown := Max(MinSpawnInterval, SpawnIntervalBase - speed * SpawnSpeedFactor);
      PushTree(w);
      PushGate(w);
      PushSnow(w, h);
    }

    /** The tree `spawnObjects` always adds. */
    method PushTree(w: real)
      modifies this`obstacles, this`drawn
      ensures State() == SpawnTree(old(State()), w, random)
    {
      var r := NextRandom();
      var ox := r * (w - 40.0) + 20.0;
      assert ox == Spread(r, w, 20.0);
      obstacles := obstacles + [Obstacle(ox, -30.0, 30.0, 30.0)];
    }

    /** The gate `spawnObjects` adds with probability 0.33. */
    method PushGate(w: real)
      modifies this`checkpoints, this`drawn
      ensures State() == SpawnGate(old(State()), w, random)
    {
      var coin := NextRandom();
      if coin < 0.33 {
        var r := NextRandom();
        var cx := r * (w - 120.0) + 60.0;
        assert cx == Spread(r, w, 60.0);
        checkpoints := checkpoints + [Checkpoint(cx, -40.0, 90.0, 40.0, false)];
      }
    }

    /** The snow puff `spawnObjects` adds with probability 0.25. */
    method PushSnow(w: real, h: real)
      modifies this`particles, this`drawn
      ensures State() == SpawnSnow(old(State()), w, h, random)
    {
      var coin := NextRandom();
      if coin < 0.25 {
        CreateSnow(w / 2.0, h * 0.3);
      }
    }

    /** The obstacle filter of `update(dt)`. */
    method FilterObstacles(dy: real, h: real)
      modifies this`obstacles, this`score, this`particles, this`drawn
      ensures State() == PassTrees(old(State()), dy, h, random)
    {
      var os := obstacles;
      var kept: seq<Obstacle> := [];
      for i := 0 to |os|
        invariant Sweep(kept, score, particles, drawn)
                  == SweepObstacles(os[..i], player, dy, h, random, old(score), old(particles), old(drawn))
      {
        SweepObstaclesSnoc(os, i, player, dy, h, random, old(score), old(particles), old(drawn));
        var o, keep := ObstacleCallback(os[i], dy, h, kept);
        if keep {
          kept := kept + [o];
        }
      }
      assert os[..|os|] == os;
      obstacles := kept;
    }

    /** The obstacle filter's callback on one tree: move it; on a hit,
        burst and lose 35 points and drop it; otherwise keep it while it is
        above the bottom edge plus 50 pixels. `kept` is what the filter has
        kept so far. */
    method ObstacleCallback(o: Obstacle, dy: real, h: real, ghost kept: seq<Obstacle>)
      returns (m: Obstacle, keep: bool)
      modifies this`score, this`particles, this`drawn
      ensures Sweep(if keep then kept + [m] else kept, score, particles, drawn)
              == ObstacleStep(Sweep(kept, old(score), old(particles), old(drawn)), o, player, dy, h, random)
    {
      m := o.(y := o.y + dy);
      if RectsIntersect(player, m) {
        CreateExplosion(m.x, m.y);
        score := score - 35.0;
        return m, false;
      }
      keep := m.y < h + 50.0;
    }

    /** The checkpoint filter of `update(dt)`. */
    method FilterCheckpoints(dy: real, h: real)
      modifies this`checkpoints, this`score, this`particles, this`drawn
      ensures State() == PassGates(old(State()), dy, h, random)
    {
      var cs := checkpoints;
      var kept: seq<Checkpoint> := [];
      for i := 0 to |cs|
        invariant Sweep(kept, score, particles, drawn)
                  == SweepCheckpoints(cs[..i], player, dy, h, random, old(score), old(particles), old(drawn))
      {
        SweepCheckpointsSnoc(cs, i, player, dy, h, random, old(score), old(particles), old(drawn));
        var t, keep := CheckpointCallback(cs[i], dy, h, kept);
        if keep {
          kept := kept + [t];
        }
      }
      assert cs[..|cs|] == cs;
      checkpoints := kept;
    }

    /** The checkpoint filter's callback on one gate: move it; on its first
        hit, mark it, add 70 points and burst sparks at its centre. The gate
        stays while it is above the bottom edge plus 70 pixels; `kept` is
        what the filter has kept so far. */
    method CheckpointCallback(c: Checkpoint, dy: real, h: real, ghost kept: seq<Checkpoint>)
      returns (t: Checkpoint, keep: bool)
      modifies this`score, this`particles, this`drawn
      ensures Sweep(if keep then kept + [t] else kept, score, particles, drawn)
              == CheckpointStep(Sweep(kept, old(score), old(particles), old(drawn)), c, player, dy, h, random)
    {
      t := c.(y := c.y + dy);
      if !t.collected && CheckpointHit(player, t) {
        t := t.(collected := true);
        score := score + 70.0;
        CreateSparks(t.x + t.width / 2.0, t.y + t.height / 2.0);
      }
      keep := t.y < h + 70.0;
    }

    /** The particle filter of `update(dt)`. */
    method FilterParticles()
      modifies this`particles
      ensures State() == AgeAll(old(State()))
    {
      var ps := particles;
      var kept: seq<Particle> := [];
      for i := 0 to |ps|
        invariant kept == AgeParticles(ps[..i])
      {
        AgeParticlesSnoc(ps, i);
        var p := ps[i];
        p := p.(x := p.x + p.vx, y := p.y + p.vy);
        p := p.(vy := p.vy + 0.12, life := p.life - 1);
        if p.life > 0 {
          kept := kept + [p];
        }
      }
      assert ps[..|ps|] == ps;
      particles := kept;
    }

    /** `update(dt)`. */
    method Update(dt: real, w: real, h: real)
      modifies this`isRunning, this`score, this`player, this`speed, this`distance,
               this`obstacles, this`checkpoints, this`particles, this`drawn
      ensures State() == SkiWorld.Update(old(State()), dt, w, h, random)
    {
      if !isRunning {
        return;
      }
      Accelerate(dt);
      SteerPlayer(w);
      ScrollSlope(dt, h);
      if distance >= 2000.0 {
        score := score + 500.0;
        Stop();
      }
    }

    /** The speed, distance and score lines of `update(dt)`. */
    method Accelerate(dt: real)
      modifies this`speed, this`distance, this`score
      ensures State() == Ramp(old(State()), dt)
    {
      speed := Min(MaxSpeed, speed + dt * 0.00035);
      distance := distance + speed * dt * 0.06;
      score := score + speed * dt * 0.012;
    }

    /** The steering lines of `update(dt)`. */
    method SteerPlayer(w: real)
      modifies this`player
      ensures State() == Steer(old(State()), w)
    {
      player := player.(x := player.x + (pointerX - player.x) * 0.12);
      player := player.(x := Clamp(player.x, player.width / 2.0, w - player.width / 2.0));
    }

    /** The three filters of `update(dt)`, with the frame's scroll. */
    method ScrollSlope(dt: real, h: real)
      modifies this`score, this`obstacles, this`checkpoints, this`particles, this`drawn
      ensures State() == Scroll(old(State()), dt, h, random)
    {
      var dy := speed * dt * 0.06;
      assert dy == Drop(speed, dt);
      FilterObstacles(dy, h);
      FilterCheckpoints(dy, h);
      FilterParticles();
    }

    /** One frame of `loop(prevTs)`, `elapsed` milliseconds after the
        previous one; `shown` is the number written to the score element,
        the score floored and never below zero. */
    method Loop(elapsed: real, w: real, h: real) returns (shown: int)
      modifies this`spawnCooldown, this`isRunning, this`score, this`player, this`speed, this`distance,
               this`obstacles, this`checkpoints, this`particles, this`drawn
      ensures State() == Tick(old(State()), elapsed, w, h, random)
      ensures old(isRunning) ==> shown == ShownScore(score)
    {
      shown := 0;
      if !isRunning {
        return;
      }
      var dt := Min(60.0, elapsed);
      SpawnObjects(dt, w, h);
      Update(dt, w, h);
      shown := ShownScore(score);
    }
  }
}
