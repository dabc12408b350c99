/** The game's records (treasures, obstacles, power-ups, particles), its
    constants, the way each record is built from the random draws the game
    makes, and the per-tick step each record takes on its own. */
module Entities {
  import opened Geometry

  const SHIP_SPEED: real := 5.0
  const SHIP_SIZE: real := 50.0
  const OBSTACLE_SPEED: real := 2.0
  const MIN_OBSTACLE_SIZE: real := 30.0
  const MAX_OBSTACLE_SIZE: real := 50.0
  const HEALTH_MAX: int := 3
  const TREASURE_SIZE: real := 30.0
  const POWERUP_SIZE: real := 30.0
  const POWERUP_DRIFT: real := 2.0
  const TREASURE_POINTS: int := 10
  const FADE_STEP: real := 0.02
  /** The double nearest to pi, as the platform's `Math.PI`. */
  const PI: real := 3.141592653589793

  /** Pool capacities: a spawn is refused once a pool holds this many. */
  const TREASURE_CAP: nat := 5
  const OBSTACLE_CAP: nat := 3
  const POWERUP_CAP: nat := 1

  /** Particles per burst: on damage and on collecting a power-up. */
  const DAMAGE_BURST: nat := 20
  const COLLECT_BURST: nat := 15
  const DAMAGE_COLOR: string := "#FF0000"
  const HEALTH_COLOR: string := "#FF69B4"
  const MULTIPLIER_COLOR: string := "#FFD700"

  /** A value the platform's random source can return: in [0, 1). */
  predicate Unit(r: real) { 0.0 <= r < 1.0 }

  /** The player's ship: position, size, velocity and tilt. */
  datatype Ship = Ship(x: real, y: real, width: real, height: real, dx: real, dy: real, rotation: real)
  {
    function Bounds(): Box { Box(x, y, width, height) }
  }

  datatype Treasure = Treasure(x: real, y: real, width: real, height: real, rotation: real)
  {
    function Bounds(): Box { Box(x, y, width, height) }
  }

  datatype Obstacle = Obstacle(x: real, y: real, width: real, height: real,
                               speed: real, rotation: real, rotationSpeed: real)
  {
    function Bounds(): Box { Box(x, y, width, height) }
  }

  datatype PowerKind = Health | Multiplier

  datatype PowerUp = PowerUp(x: real, y: real, width: real, height: real, kind: PowerKind, dy: real)
  {
    function Bounds(): Box { Box(x, y, width, height) }
  }

  datatype Particle = Particle(x: real, y: real, dx: real, dy: real, radius: real,
                               alpha: real, color: string)

  /** The random draws one spawn makes, in the order the game draws them. */
  datatype TreasureDraw = TreasureDraw(x: real, y: real, rotation: real)
  {
    predicate Valid() { Unit(x) && Unit(y) && Unit(rotation) }
  }

  datatype ObstacleDraw = ObstacleDraw(size: real, x: real, speed: real, rotation: real, spin: real)
  {
    predicate Valid() { Unit(size) && Unit(x) && Unit(speed) && Unit(rotation) && Unit(spin) }
  }

  datatype PowerUpDraw = PowerUpDraw(x: real, kind: real)
  {
    predicate Valid() { Unit(x) && Unit(kind) }
  }

  datatype ParticleDraw = ParticleDraw(dx: real, dy: real, radius: real)

  /** A draw in [0, 1) scaled to a non-negative span stays within the span. */
  lemma ScaledWithin(r: real, span: real, scaled: real)
    requires Unit(r) && scaled == r * span
    ensures span >= 0.0 ==> 0.0 <= scaled <= span
    ensures span > 0.0 ==> scaled < span
  {
    if span > 0.0 {
      assert (1.0 - r) * span > 0.0;
    } else if span == 0.0 {
      assert r * span == 0.0;
    }
  }

  /** A positive speed raised by a draw's half stays below one and a half
      times itself. */
  lemma SpeedWithin(speed: real, r: real, raised: real)
    requires Unit(r) && raised == speed * (1.0 + r * 0.5)
    ensures speed > 0.0 ==> speed <= raised < 1.5 * speed
  {
    if speed > 0.0 {
      assert speed * (1.5 - (1.0 + r * 0.5)) > 0.0;
      assert speed * (r * 0.5) >= 0.0;
    }
  }

  /** A new treasure: 30 by 30, placed anywhere that keeps it inside the canvas
      and at least 100 above its bottom edge, turned by an angle in [0, 2 pi). */
  function NewTreasure(canvasWidth: real, canvasHeight: real, d: TreasureDraw): (t: Treasure)
    requires d.Valid()
    ensures t.width == TREASURE_SIZE && t.height == TREASURE_SIZE
    ensures canvasWidth >= TREASURE_SIZE ==> 0.0 <= t.x && t.x + t.width <= canvasWidth
    ensures canvasHeight >= 100.0 ==> 0.0 <= t.y <= canvasHeight - 100.0
    ensures 0.0 <= t.rotation <= 2.0 * PI
  {
    var x := d.x * (canvasWidth - TREASURE_SIZE);
    var y := d.y * (canvasHeight - 100.0);
    var turn := d.rotation * PI;
    ScaledWithin(d.x, canvasWidth - TREASURE_SIZE, x);
    ScaledWithin(d.y, canvasHeight - 100.0, y);
    ScaledWithin(d.rotation, PI, turn);
    Treasure(x, y, TREASURE_SIZE, TREASURE_SIZE, turn * 2.0)
  }

  /** A new obstacle: a square of side in [30, 50), entering from just above
      the canvas at a horizontal place that keeps it inside, falling at
      between 1 and 1.5 times the current obstacle speed and spinning by less
      than 0.05 per tick either way. */
  function NewObstacle(canvasWidth: real, currentSpeed: real, d: ObstacleDraw): (o: Obstacle)
    requires d.Valid()
    ensures MIN_OBSTACLE_SIZE <= o.width < MAX_OBSTACLE_SIZE && o.height == o.width
    ensures o.y + o.height == 0.0
    ensures canvasWidth >= MAX_OBSTACLE_SIZE ==> 0.0 <= o.x && o.x + o.width <= canvasWidth
    ensures currentSpeed > 0.0 ==> currentSpeed <= o.speed < 1.5 * currentSpeed
    ensures -0.05 <= o.rotationSpeed < 0.05
  {
    var grow := d.size * (MAX_OBSTACLE_SIZE - MIN_OBSTACLE_SIZE);
    var size := MIN_OBSTACLE_SIZE + grow;
    var x := d.x * (canvasWidth - size);
    var speed := currentSpeed * (1.0 + d.speed * 0.5);
    ScaledWithin(d.size, MAX_OBSTACLE_SIZE - MIN_OBSTACLE_SIZE, grow);
    ScaledWithin(d.x, canvasWidth - size, x);
    SpeedWithin(currentSpeed, d.speed, speed);
    Obstacle(x, -size, size, size, speed, d.rotation * PI * 2.0, (d.spin - 0.5) * 0.1)
  }

  /** A new power-up: 30 by 30, entering from just above the canvas at a
      horizontal place that keeps it inside, drifting down by 2 per tick;
      a health power-up when the kind draw is below one half, otherwise a
      multiplier. */
  function NewPowerUp(canvasWidth: real, d: PowerUpDraw): (p: PowerUp)
    requires d.Valid()
    ensures p.width == POWERUP_SIZE && p.height == POWERUP_SIZE && p.y + p.height == 0.0
    ensures canvasWidth >= POWERUP_SIZE ==> 0.0 <= p.x && p.x + p.width <= canvasWidth
    ensures p.dy > 0.0
    ensures p.kind == Health <==> d.kind < 0.5
  {
    var x := d.x * (canvasWidth - POWERUP_SIZE);
    ScaledWithin(d.x, canvasWidth - POWERUP_SIZE, x);
    PowerUp(x, -POWERUP_SIZE, POWERUP_SIZE, POWERUP_SIZE,
            if d.kind < 0.5 then Health else Multiplier, POWERUP_DRIFT)
  }

  /** A new particle at (x, y): fully opaque, moving by less than 2.5 per tick
      on each axis, with a radius in [1, 4). */
  function NewParticle(x: real, y: real, color: string, d: ParticleDraw): (p: Particle)
    requires Unit(d.dx) && Unit(d.dy) && Unit(d.radius)
    ensures p.x == x && p.y == y && p.color == color && p.alpha == 1.0
    ensures -2.5 <= p.dx < 2.5 && -2.5 <= p.dy < 2.5
    ensures 1.0 <= p.radius < 4.0
  {
    Particle(x, y, (d.dx - 0.5) * 5.0, (d.dy - 0.5) * 5.0, d.radius * 3.0 + 1.0, 1.0, color)
  }

  /** Draws a burst can be built from. */
  predicate BurstDraws(draws: seq<ParticleDraw>)
  {
    forall i :: 0 <= i < |draws| ==> Unit(draws[i].dx) && Unit(draws[i].dy) && Unit(draws[i].radius)
  }

  /** A burst: one new particle per draw, all at (x, y). */
  function Burst(x: real, y: real, color: string, draws: seq<ParticleDraw>): (ps: seq<Particle>)
    requires BurstDraws(draws)
    ensures |ps| == |draws|
    ensures forall i :: 0 <= i < |ps| ==> ps[i].x == x && ps[i].y == y && ps[i].alpha == 1.0
  {
    seq(|draws|, i requires 0 <= i < |draws| => NewParticle(x, y, color, draws[i]))
  }

  /** One tick of an obstacle: it falls by its speed and turns by its spin. */
  function Fallen(o: Obstacle): (r: Obstacle)
    ensures o.speed > 0.0 ==> r.y > o.y
    ensures r.x == o.x && r.width == o.width && r.height == o.height
    ensures r.speed == o.speed && r.rotationSpeed == o.rotationSpeed
  {
    o.(y := o.y + o.speed, rotation := o.rotation + o.rotationSpeed)
  }

  /** One tick of a power-up: it drifts down by its own rate. */
  function Drifted(p: PowerUp): (r: PowerUp)
    ensures p.dy > 0.0 ==> r.y > p.y
    ensures r.x == p.x && r.width == p.width && r.height == p.height
    ensures r.dy == p.dy && r.kind == p.kind
  {
    p.(y := p.y + p.dy)
  }

  /** One tick of a particle: it moves by its velocity and fades by 0.02. */
  function Faded(p: Particle): (r: Particle)
    ensures r.alpha < p.alpha
    ensures r.alpha > 0.0 <==> p.alpha > FADE_STEP
    ensures r.dx == p.dx && r.dy == p.dy && r.radius == p.radius && r.color == p.color
  {
    p.(x := p.x + p.dx, y := p.y + p.dy, alpha := p.alpha - FADE_STEP)
  }

  /** The colour of the burst shown when a power-up of this kind is collected. */
  function KindColor(k: PowerKind): string
  {
    if k == Health then HEALTH_COLOR else MULTIPLIER_COLOR
  }

  /** The centre of a box, where bursts are placed. */
  function CenterX(b: Box): real { b.x + b.width / 2.0 }
  function CenterY(b: Box): real { b.y + b.height / 2.0 }
}
