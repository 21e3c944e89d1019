/** The things on the mini-game's slope: the skier, the trees to avoid, the
    gates to collect and the particles of the visual effects, with the two
    hit tests the game uses. Coordinates are canvas pixels, `y` grows
    downward, and JavaScript numbers are idealised as `real`. */
module SkiEntities {

  const PlayerWidth: real := 18.0
  const PlayerHeight: real := 26.0
  const ObstacleSize: real := 30.0
  const GateWidth: real := 90.0
  const GateHeight: real := 40.0

  /** The skier: `x` is the horizontal centre, `y` the top edge. */
  datatype Player = Player(x: real, y: real, width: real, height: real)

  /** A tree; `(x, y)` is its top-left corner. */
  datatype Obstacle = Obstacle(x: real, y: real, width: real, height: real)

  /** A gate; `(x, y)` is its top-left corner. */
  datatype Checkpoint = Checkpoint(x: real, y: real, width: real, height: real, collected: bool)

  /** A particle of an explosion, spark or snow burst; `life` counts the
      frames it has left. */
  datatype Particle = Particle(x: real, y: real, vx: real, vy: real, life: int, color: string)

  /** `rectsIntersect(player, obj)`: the skier's box, centred on `x`, and
      the obstacle's box overlap (strict inequalities on all four sides). */
  predicate RectsIntersect(player: Player, o: Obstacle)
  {
    var px := player.x - player.width / 2.0;
    var py := player.y;
    px < o.x + o.width && px + player.width > o.x && py < o.y + o.height && py + player.height > o.y
  }

  /** `checkpointHit(player, cp)`: the skier's centre lies strictly inside
      the gate's horizontal span and the boxes overlap vertically. */
  predicate CheckpointHit(player: Player, cp: Checkpoint)
  {
    var centerX := player.x;
    var py := player.y;
    centerX > cp.x && centerX < cp.x + cp.width && py < cp.y + cp.height && py + player.height > cp.y
  }

  /** The gate's own box, as the obstacle test sees boxes. */
  function GateBox(cp: Checkpoint): (o: Obstacle)
    ensures o.x == cp.x && o.y == cp.y && o.width == cp.width && o.height == cp.height
  {
    Obstacle(cp.x, cp.y, cp.width, cp.height)
  }

  /** Passing through a gate is stricter than touching it: a gate hit is
      always a box overlap. */
  lemma GateHitIsOverlap(player: Player, cp: Checkpoint)
    requires player.width >= 0.0
    requires CheckpointHit(player, cp)
    ensures RectsIntersect(player, GateBox(cp))
  {
  }

  /** ... but not the other way round: a skier grazing the left post
      overlaps the gate's box without passing through it. */
  lemma GrazingIsNoGateHit()
    ensures var player := Player(95.0, 0.0, PlayerWidth, PlayerHeight);
            var cp := Checkpoint(100.0, 0.0, GateWidth, GateHeight, false);
            RectsIntersect(player, GateBox(cp)) && !CheckpointHit(player, cp)
  {
  }
}
