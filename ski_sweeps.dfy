/** The three list passes of one `update` frame: the obstacle filter, the
    checkpoint filter and the particle filter. Their callbacks move each
    element and, for obstacles and gates, may change the score and append
    particle bursts; each pass is defined element by element from the end
    of the list, so that a pass over `s + [e]` is the pass over `s` followed
    by the callback on `e`. */
module SkiSweeps {
  import opened SkiEntities
  import opened SkiBursts

  const HitPenalty: real := 35.0
  const GateBonus: real := 70.0
  const ObstacleMargin: real := 50.0
  const GateMargin: real := 70.0
  const Gravity: real := 0.12

  /** What a pass has produced so far: the elements kept (the new list),
      the running score, the particle list and the number of random draws
      used. */
  datatype Sweep<T> = Sweep(kept: seq<T>, score: real, particles: seq<Particle>, drawn: nat)

  /** `s` occurs in `t` in the same order, possibly with gaps. */
  ghost predicate Subsequence<T>(s: seq<T>, t: seq<T>)
    decreases |t|
  {
    if s == [] then true
    else if t == [] then false
    else (s[|s| - 1] == t[|t| - 1] && Subsequence(s[..|s| - 1], t[..|t| - 1]))
         || Subsequence(s, t[..|t| - 1])
  }

  // ---------------------------------------------------------------- obstacles

  /** `o.y += dy`. */
  function Fall(o: Obstacle, dy: real): Obstacle
  {
    o.(y := o.y + dy)
  }

  /** Every obstacle after the scroll, in list order. */
  function Fallen(os: seq<Obstacle>, dy: real): (ms: seq<Obstacle>)
    ensures |ms| == |os|
    ensures forall i :: 0 <= i < |os| ==> ms[i] == Fall(os[i], dy)
  {
    seq(|os|, i requires 0 <= i < |os| => Fall(os[i], dy))
  }

  /** The moved obstacle hits the skier. */
  predicate Hits(player: Player, o: Obstacle, dy: real)
  {
    RectsIntersect(player, Fall(o, dy))
  }

  /** The moved obstacle stays in the list: no hit, and still above the
      bottom edge plus the margin. */
  predicate Stays(player: Player, o: Obstacle, dy: real, h: real)
  {
    !Hits(player, o, dy) && Fall(o, dy).y < h + ObstacleMargin
  }

  /** How many obstacles of `os` the skier hits in this frame. */
  function ObstacleHits(os: seq<Obstacle>, player: Player, dy: real): (n: nat)
    ensures n <= |os|
    decreases |os|
  {
    if os == [] then 0
    else ObstacleHits(os[..|os| - 1], player, dy) + (if Hits(player, os[|os| - 1], dy) then 1 else 0)
  }

  /** The filter callback on one obstacle: move it; on a hit, burst and
      lose 35 points and drop it; otherwise keep it while it is on screen. */
  function ObstacleStep(s: Sweep<Obstacle>, o: Obstacle, player: Player, dy: real, h: real,
                        rand: nat -> real): (r: Sweep<Obstacle>)
    ensures r.kept == s.kept + [Fall(o, dy)] <==> Stays(player, o, dy, h)
    ensures !Stays(player, o, dy, h) ==> r.kept == s.kept
    ensures Hits(player, o, dy) ==> r.score == s.score - HitPenalty
                                    && |r.particles| == |s.particles| + ExplosionCount
                                    && r.particles[..|s.particles|] == s.particles
    ensures !Hits(player, o, dy) ==> r.score == s.score && r.particles == s.particles && r.drawn == s.drawn
  {
    var m := Fall(o, dy);
    if RectsIntersect(player, m) then
      s.(score := s.score - HitPenalty, particles := s.particles + Explosion(m.x, m.y, rand, s.drawn),
         drawn := s.drawn + 2 * ExplosionCount)
    else if m.y < h + ObstacleMargin then s.(kept := s.kept + [m])
    else s
  }

  /** `this.obstacles = this.obstacles.filter(...)` starting from the given
      score, particles and draw count: every hit costs 35 points and
      appends ten explosion particles (twenty draws) behind the particles
      already there. */
  function SweepObstacles(os: seq<Obstacle>, player: Player, dy: real, h: real, rand: nat -> real,
                          score: real, particles: seq<Particle>, drawn: nat): (r: Sweep<Obstacle>)
    ensures |r.kept| <= |os|
    ensures r.score == score - HitPenalty * ObstacleHits(os, player, dy) as real
    ensures |r.particles| == |particles| + ExplosionCount * ObstacleHits(os, player, dy)
    ensures r.particles[..|particles|] == particles
    ensures r.drawn == drawn + 2 * ExplosionCount * ObstacleHits(os, player, dy)
    decreases |os|
  {
    if os == [] then Sweep([], score, particles, drawn)
    else ObstacleStep(SweepObstacles(os[..|os| - 1], player, dy, h, rand, score, particles, drawn),
                      os[|os| - 1], player, dy, h, rand)
  }

  /** The pass over the first `i + 1` obstacles is the pass over the first
      `i` followed by the callback on obstacle `i`. */
  lemma SweepObstaclesSnoc(os: seq<Obstacle>, i: nat, player: Player, dy: real, h: real, rand: nat -> real,
                           score: real, particles: seq<Particle>, drawn: nat)
    requires i < |os|
    ensures SweepObstacles(os[..i + 1], player, dy, h, rand, score, particles, drawn)
            == ObstacleStep(SweepObstacles(os[..i], player, dy, h, rand, score, particles, drawn), os[i], player, dy, h, rand)
  {
    assert os[..i + 1][..i] == os[..i];
  }

  /** The survivors are exactly the moved obstacles that neither hit the
      skier nor went past the bottom edge plus 50 pixels. */
  lemma {:induction false} ObstacleSurvivors(os: seq<Obstacle>, player: Player, dy: real, h: real,
                                             rand: nat -> real, score: real, particles: seq<Particle>, drawn: nat)
    ensures var r := SweepObstacles(os, player, dy, h, rand, score, particles, drawn);
            && (forall m :: m in r.kept ==> m.y < h + ObstacleMargin && !RectsIntersect(player, m))
            && (forall m :: m in r.kept ==> exists o :: o in os && m == Fall(o, dy) && Stays(player, o, dy, h))
            && (forall o :: o in os && Stays(player, o, dy, h) ==> Fall(o, dy) in r.kept)
    decreases |os|
  {
    if os != [] {
      var prefix := os[..|os| - 1];
      ObstacleSurvivors(prefix, player, dy, h, rand, score, particles, drawn);
      assert forall o :: o in prefix ==> o in os;
      assert os == prefix + [os[|os| - 1]];
    }
  }

  /** Every particle the pass appends is a fresh explosion particle with
      22 frames of life. */
  lemma {:induction false} ObstacleBursts(os: seq<Obstacle>, player: Player, dy: real, h: real,
                                          rand: nat -> real, score: real, particles: seq<Particle>, drawn: nat)
    ensures var r := SweepObstacles(os, player, dy, h, rand, score, particles, drawn);
            forall p :: p in r.particles[|particles|..] ==> p.life == ExplosionLife && p.color == ExplosionColor
    decreases |os|
  {
    if os != [] {
      var prefix := os[..|os| - 1];
      var s := SweepObstacles(prefix, player, dy, h, rand, score, particles, drawn);
      var r := SweepObstacles(os, player, dy, h, rand, score, particles, drawn);
      ObstacleBursts(prefix, player, dy, h, rand, score, particles, drawn);
      assert r.particles[|particles|..] == s.particles[|particles|..] + r.particles[|s.particles|..];
    }
  }

  /** Survivors keep their relative order. */
  lemma {:induction false} ObstacleOrder(os: seq<Obstacle>, player: Player, dy: real, h: real,
                                         rand: nat -> real, score: real, particles: seq<Particle>, drawn: nat)
    ensures Subsequence(SweepObstacles(os, player, dy, h, rand, score, particles, drawn).kept, Fallen(os, dy))
    decreases |os|
  {
    if os != [] {
      var prefix := os[..|os| - 1];
      ObstacleOrder(prefix, player, dy, h, rand, score, particles, drawn);
      assert Fallen(os, dy)[..|os| - 1] == Fallen(prefix, dy);
    }
  }

  /** The trees a pass keeps, read from the front of the list: each moved
      tree that stays, in list order, as `Array.prototype.filter`
      describes it. */
  function TreesKept(os: seq<Obstacle>, player: Player, dy: real, h: real): (ms: seq<Obstacle>)
    ensures |ms| <= |os|
    decreases |os|
  {
    if os == [] then []
    else (if Stays(player, os[0], dy, h) then [Fall(os[0], dy)] else []) + TreesKept(os[1..], player, dy, h)
  }

  /** Filtering a concatenation filters each part. */
  lemma {:induction false} TreesKeptAppend(a: seq<Obstacle>, b: seq<Obstacle>, player: Player, dy: real, h: real)
    ensures TreesKept(a + b, player, dy, h) == TreesKept(a, player, dy, h) + TreesKept(b, player, dy, h)
    decreases |a|
  {
    if a != [] {
      assert (a + b)[0] == a[0];
      assert (a + b)[1..] == a[1..] + b;
      TreesKeptAppend(a[1..], b, player, dy, h);
    } else {
      assert a + b == b;
    }
  }

  /** The obstacle pass keeps exactly the filter of the moved trees: the
      same trees, in the same order, with the same repetitions. */
  lemma {:induction false} ObstacleFilter(os: seq<Obstacle>, player: Player, dy: real, h: real,
                                          rand: nat -> real, score: real, particles: seq<Particle>, drawn: nat)
    ensures SweepObstacles(os, player, dy, h, rand, score, particles, drawn).kept == TreesKept(os, player, dy, h)
    decreases |os|
  {
    if os != [] {
      var prefix, last := os[..|os| - 1], os[|os| - 1];
      ObstacleFilter(prefix, player, dy, h, rand, score, particles, drawn);
      assert os == prefix + [last];
      TreesKeptAppend(prefix, [last], player, dy, h);
    }
  }

  // -------------------------------------------------------------- checkpoints

  /** The gate is hit for the first time in this frame. */
  predicate Collects(player: Player, c: Checkpoint, dy: real)
  {
    !c.collected && CheckpointHit(player, c.(y := c.y + dy))
  }

  /** The gate after its callback: moved by `dy` and marked collected if
      the skier passes through it. */
  function Touch(c: Checkpoint, player: Player, dy: real): (t: Checkpoint)
    ensures t.x == c.x && t.y == c.y + dy && t.width == c.width && t.height == c.height
    ensures t.collected <==> c.collected || CheckpointHit(player, c.(y := c.y + dy))
  {
    var m := c.(y := c.y + dy);
    if !m.collected && CheckpointHit(player, m) then m.(collected := true) else m
  }

  /** A gate is collected at most once: once collected it stays collected
      and can never be collected (and rewarded) again. */
  lemma CollectOnce(c: Checkpoint, player: Player, dy: real, player': Player, dy': real)
    requires Collects(player, c, dy)
    ensures Touch(c, player, dy).collected
    ensures !Collects(player', Touch(c, player, dy), dy')
    ensures Touch(Touch(c, player, dy), player', dy').collected
  {
  }

  /** How many gates of `cs` are collected in this frame. */
  function NewGates(cs: seq<Checkpoint>, player: Player, dy: real): (n: nat)
    ensures n <= |cs|
    decreases |cs|
  {
    if cs == [] then 0
    else NewGates(cs[..|cs| - 1], player, dy) + (if Collects(player, cs[|cs| - 1], dy) then 1 else 0)
  }

  /** The filter callback on one gate: move it; on its first hit, mark it,
      add 70 points and burst sparks at its centre; keep it, collected or
      not, while it is on screen. */
  function CheckpointStep(s: Sweep<Checkpoint>, c: Checkpoint, player: Player, dy: real, h: real,
                          rand: nat -> real): (r: Sweep<Checkpoint>)
    ensures r.kept == s.kept + [Touch(c, player, dy)] <==> c.y + dy < h + GateMargin
    ensures c.y + dy >= h + GateMargin ==> r.kept == s.kept
    ensures Collects(player, c, dy) ==> r.score == s.score + GateBonus
                                        && |r.particles| == |s.particles| + SparkCount
                                        && r.particles[..|s.particles|] == s.particles
    ensures !Collects(player, c, dy) ==> r.score == s.score && r.particles == s.particles && r.drawn == s.drawn
  {
    var t := Touch(c, player, dy);
    var s1 := if Collects(player, c, dy) then
                s.(score := s.score + GateBonus,
                   particles := s.particles + Sparks(t.x + t.width / 2.0, t.y + t.height / 2.0, rand, s.drawn),
                   drawn := s.drawn + 2 * SparkCount)
              else s;
    if t.y < h + GateMargin then s1.(kept := s1.kept + [t]) else s1
  }

  /** `this.checkpoints = this.checkpoints.filter(...)`: each newly
      collected gate adds 70 points and appends fourteen spark particles
      (28 draws) behind the particles already there. */
  function SweepCheckpoints(cs: seq<Checkpoint>, player: Player, dy: real, h: real, rand: nat -> real,
                            score: real, particles: seq<Particle>, drawn: nat): (r: Sweep<Checkpoint>)
    ensures |r.kept| <= |cs|
    ensures r.score == score + GateBonus * NewGates(cs, player, dy) as real
    ensures |r.particles| == |particles| + SparkCount * NewGates(cs, player, dy)
    ensures r.particles[..|particles|] == particles
    ensures r.drawn == drawn + 2 * SparkCount * NewGates(cs, player, dy)
    decreases |cs|
  {
    if cs == [] then Sweep([], score, particles, drawn)
    else CheckpointStep(SweepCheckpoints(cs[..|cs| - 1], player, dy, h, rand, score, particles, drawn),
                        cs[|cs| - 1], player, dy, h, rand)
  }

  /** The pass over the first `i + 1` gates is the pass over the first `i`
      followed by the callback on gate `i`. */
  lemma SweepCheckpointsSnoc(cs: seq<Checkpoint>, i: nat, player: Player, dy: real, h: real, rand: nat -> real,
                             score: real, particles: seq<Particle>, drawn: nat)
    requires i < |cs|
    ensures SweepCheckpoints(cs[..i + 1], player, dy, h, rand, score, particles, drawn)
            == CheckpointStep(SweepCheckpoints(cs[..i], player, dy, h, rand, score, particles, drawn), cs[i], player, dy, h, rand)
  {
    assert cs[..i + 1][..i] == cs[..i];
  }

  /** A gate survives exactly when it is still above the bottom edge plus
      70 pixels, whether collected or not. */
  lemma {:induction false} GateSurvivors(cs: seq<Checkpoint>, player: Player, dy: real, h: real,
                                         rand: nat -> real, score: real, particles: seq<Particle>, drawn: nat)
    ensures var r := SweepCheckpoints(cs, player, dy, h, rand, score, particles, drawn);
            && (forall t :: t in r.kept ==> t.y < h + GateMargin)
            && (forall t :: t in r.kept ==> exists c :: c in cs && t == Touch(c, player, dy))
            && (forall c :: c in cs && c.y + dy < h + GateMargin ==> Touch(c, player, dy) in r.kept)
    decreases |cs|
  {
    if cs != [] {
      var prefix := cs[..|cs| - 1];
      var last := cs[|cs| - 1];
      assert cs == prefix + [last];
      var s := SweepCheckpoints(prefix, player, dy, h, rand, score, particles, drawn);
      var r := SweepCheckpoints(cs, player, dy, h, rand, score, particles, drawn);
      var t := Touch(last, player, dy);
      GateSurvivors(prefix, player, dy, h, rand, score, particles, drawn);
      assert r.kept == if t.y < h + GateMargin then s.kept + [t] else s.kept;
      assert forall c :: c in prefix ==> c in cs;
    }
  }

  /** Every particle the pass appends is a spark with 18 frames of life. */
  lemma {:induction false} GateBursts(cs: seq<Checkpoint>, player: Player, dy: real, h: real,
                                      rand: nat -> real, score: real, particles: seq<Particle>, drawn: nat)
    ensures var r := SweepCheckpoints(cs, player, dy, h, rand, score, particles, drawn);
            forall p :: p in r.particles[|particles|..] ==> p.life == SparkLife && p.color == SparkColor
    decreases |cs|
  {
    if cs != [] {
      var prefix := cs[..|cs| - 1];
      var s := SweepCheckpoints(prefix, player, dy, h, rand, score, particles, drawn);
      var r := SweepCheckpoints(cs, player, dy, h, rand, score, particles, drawn);
      GateBursts(prefix, player, dy, h, rand, score, particles, drawn);
      assert r.particles[|particles|..] == s.particles[|particles|..] + r.particles[|s.particles|..];
    }
  }

  /** The gates a pass keeps, read from the front of the list: each gate,
      moved and possibly collected, while it is above the bottom edge plus
      70 pixels. */
  function GatesKept(cs: seq<Checkpoint>, player: Player, dy: real, h: real): (ts: seq<Checkpoint>)
    ensures |ts| <= |cs|
    decreases |cs|
  {
    if cs == [] then []
    else (if cs[0].y + dy < h + GateMargin then [Touch(cs[0], player, dy)] else []) + GatesKept(cs[1..], player, dy, h)
  }

  /** Filtering a concatenation filters each part. */
  lemma {:induction false} GatesKeptAppend(a: seq<Checkpoint>, b: seq<Checkpoint>, player: Player, dy: real, h: real)
    ensures GatesKept(a + b, player, dy, h) == GatesKept(a, player, dy, h) + GatesKept(b, player, dy, h)
    decreases |a|
  {
    if a != [] {
      assert (a + b)[0] == a[0];
      assert (a + b)[1..] == a[1..] + b;
      GatesKeptAppend(a[1..], b, player, dy, h);
    } else {
      assert a + b == b;
    }
  }

  /** The checkpoint pass keeps exactly the filter of the touched gates. */
  lemma {:induction false} CheckpointFilter(cs: seq<Checkpoint>, player: Player, dy: real, h: real,
                                            rand: nat -> real, score: real, particles: seq<Particle>, drawn: nat)
    ensures SweepCheckpoints(cs, player, dy, h, rand, score, particles, drawn).kept == GatesKept(cs, player, dy, h)
    decreases |cs|
  {
    if cs != [] {
      var prefix, last := cs[..|cs| - 1], cs[|cs| - 1];
      CheckpointFilter(prefix, player, dy, h, rand, score, particles, drawn);
      assert cs == prefix + [last];
      GatesKeptAppend(prefix, [last], player, dy, h);
    }
  }

  // ---------------------------------------------------------------- particles

  /** The particle callback: move by the velocity, fall a little faster,
      lose one frame of life. */
  function Age(p: Particle): (q: Particle)
    ensures q.life == p.life - 1 && q.color == p.color
    ensures q.x - p.x == p.vx && q.y - p.y == p.vy
    ensures q.vx == p.vx && q.vy - p.vy == Gravity
  {
    p.(x := p.x + p.vx, y := p.y + p.vy, vy := p.vy + Gravity, life := p.life - 1)
  }

  /** `this.particles = this.particles.filter(...)`: every particle is aged
      and kept while it still has life left. */
  function AgeParticles(ps: seq<Particle>): (r: seq<Particle>)
    ensures |r| <= |ps|
    ensures forall q :: q in r ==> q.life > 0
    decreases |ps|
  {
    if ps == [] then []
    else
      var a := AgeParticles(ps[..|ps| - 1]);
      var q := Age(ps[|ps| - 1]);
      if q.life > 0 then a + [q] else a
  }

  /** The pass over the first `i + 1` particles extends the pass over the
      first `i` by particle `i`, aged, if it still has life left. */
  lemma AgeParticlesSnoc(ps: seq<Particle>, i: nat)
    requires i < |ps|
    ensures AgeParticles(ps[..i + 1])
            == if Age(ps[i]).life > 0 then AgeParticles(ps[..i]) + [Age(ps[i])] else AgeParticles(ps[..i])
  {
    assert ps[..i + 1][..i] == ps[..i];
  }

  /** The particles left are exactly the aged particles that still have
      life left. */
  lemma {:induction false} ParticleSurvivors(ps: seq<Particle>)
    ensures forall q :: q in AgeParticles(ps) ==> exists p :: p in ps && q == Age(p)
    ensures forall p :: p in ps && p.life > 1 ==> Age(p) in AgeParticles(ps)
    decreases |ps|
  {
    if ps != [] {
      var prefix := ps[..|ps| - 1];
      ParticleSurvivors(prefix);
      assert forall p :: p in prefix ==> p in ps;
      assert ps == prefix + [ps[|ps| - 1]];
    }
  }

  /** The particles left, read from the front of the list: each particle
      aged by one frame, while it still has life. */
  function ParticlesLeft(ps: seq<Particle>): (qs: seq<Particle>)
    ensures |qs| <= |ps|
    decreases |ps|
  {
    if ps == [] then []
    else (if Age(ps[0]).life > 0 then [Age(ps[0])] else []) + ParticlesLeft(ps[1..])
  }

  /** Filtering a concatenation filters each part. */
  lemma {:induction false} ParticlesLeftAppend(a: seq<Particle>, b: seq<Particle>)
    ensures ParticlesLeft(a + b) == ParticlesLeft(a) + ParticlesLeft(b)
    decreases |a|
  {
    if a != [] {
      assert (a + b)[0] == a[0];
      assert (a + b)[1..] == a[1..] + b;
      ParticlesLeftAppend(a[1..], b);
    } else {
      assert a + b == b;
    }
  }

  /** The particle pass is exactly the filter of the aged particles. */
  lemma {:induction false} ParticleFilter(ps: seq<Particle>)
    ensures AgeParticles(ps) == ParticlesLeft(ps)
    decreases |ps|
  {
    if ps != [] {
      var prefix, last := ps[..|ps| - 1], ps[|ps| - 1];
      ParticleFilter(prefix);
      assert ps == prefix + [last];
      ParticlesLeftAppend(prefix, [last]);
    }
  }
}
