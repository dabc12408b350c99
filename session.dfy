/** One game session: the ship, the four pools and the scalars that the
    frame loop, the key handlers and the periodic spawners update in place. */
module Game {
  import opened Geometry
  import opened Sequences
  import opened Entities
  import opened Passes
  import opened Walks

  /** The three screens; the game never enters `GameOver` itself: after a
      fatal hit it stays `Playing` with its game-over flag set. */
  datatype GameState = Menu | Playing | GameOver

  /** Every obstacle except `obstacle`. */
  function Other(obstacle: Obstacle): Obstacle -> bool
  {
    (o: Obstacle) => o != obstacle
  }

  /** `Math.max(0, Math.min(v, hi))`: never negative, never above a
      non-negative `hi`, `v` itself when it already lies in [0, hi], `hi`
      when `v` passes a non-negative `hi`, and 0 when `v` or `hi` is
      negative. */
  function Clamp(v: real, hi: real): (r: real)
    ensures 0.0 <= r
    ensures 0.0 <= hi ==> r <= hi
    ensures 0.0 <= v <= hi ==> r == v
    ensures hi < 0.0 ==> r == 0.0
    ensures 0.0 <= hi < v ==> r == hi
    ensures v < 0.0 ==> r == 0.0
  {
    var m := if v <= hi then v else hi;
    if 0.0 >= m then 0.0 else m
  }

  /** The ship after one frame's movement: moved by its velocity, clamped to
      the canvas, tilted by the sign of its horizontal velocity. */
  function Moved(s: Ship, canvasWidth: real, canvasHeight: real): (r: Ship)
    ensures r.width == s.width && r.height == s.height && r.dx == s.dx && r.dy == s.dy
    ensures 0.0 <= r.x && (s.width <= canvasWidth ==> r.x + r.width <= canvasWidth)
    ensures 0.0 <= r.y && (s.height <= canvasHeight ==> r.y + r.height <= canvasHeight)
    ensures 0.0 <= s.x + s.dx <= canvasWidth - s.width ==> r.x == s.x + s.dx
    ensures 0.0 <= s.y + s.dy <= canvasHeight - s.height ==> r.y == s.y + s.dy
    ensures r.rotation == (if s.dx > 0.0 then 0.1 else if s.dx < 0.0 then -0.1 else 0.0)
  {
    s.(x := Clamp(s.x + s.dx, canvasWidth - s.width),
       y := Clamp(s.y + s.dy, canvasHeight - s.height),
       rotation := if s.dx != 0.0 then (if s.dx > 0.0 then 0.1 else -0.1) else 0.0)
  }

  class Session {
    /** Canvas size. */
    const width: real
    const height: real

    var ship: Ship
    var treasures: seq<Treasure>
    var obstacles: seq<Obstacle>
    var powerups: seq<PowerUp>
    var particles: seq<Particle>

    var score: int
    var health: int
    var difficulty: real
    var scoreMultiplier: int
    var currentObstacleSpeed: real
    var gameOver: bool
    var gameState: GameState

    /** What every operation keeps: health never above its maximum, pools
        never above their caps, every particle visible, the multiplier at
        least neutral, difficulty and obstacle speed never below where they
        start, the score never negative, the ship always 50 by 50. */
    ghost predicate Valid()
      reads this
    {
      ShipValid() && StatsValid() && PoolsValid()
    }

    ghost predicate ShipValid()
      reads this
    {
      ship.width == SHIP_SIZE && ship.height == SHIP_SIZE
    }

    ghost predicate StatsValid()
      reads this
    {
      && health <= HEALTH_MAX
      && score >= 0
      && scoreMultiplier >= 1
      && difficulty >= 1.0
      && currentObstacleSpeed >= OBSTACLE_SPEED
    }

    ghost predicate PoolsValid()
      reads this
    {
      && |treasures| <= TREASURE_CAP
      && |obstacles| <= OBSTACLE_CAP
      && |powerups| <= POWERUP_CAP
      && Alive(particles)
      && ShipTallest()
    }

    /** Nothing in the pools is taller than the ship. */
    ghost predicate ShipTallest()
      reads this
    {
      && (forall t :: t in treasures ==> t.height <= SHIP_SIZE)
      && (forall o :: o in obstacles ==> o.height <= SHIP_SIZE)
      && (forall p :: p in powerups ==> p.height <= SHIP_SIZE)
    }

    /** Page load: the menu is shown and the obstacle speed starts at its
        base value; the session fields get the values a new game gives them. */
    constructor (canvasWidth: real, canvasHeight: real)
      ensures Valid()
      ensures width == canvasWidth && height == canvasHeight
      ensures gameState == Menu && !gameOver
      ensures currentObstacleSpeed == OBSTACLE_SPEED
    {
      width, height := canvasWidth, canvasHeight;
      ship := Ship(canvasWidth / 2.0, canvasHeight - 30.0, SHIP_SIZE, SHIP_SIZE, 0.0, 0.0, 0.0);
      treasures, obstacles, powerups, particles := [], [], [], [];
      score, health, difficulty, scoreMultiplier := 0, HEALTH_MAX, 1.0, 1;
      currentObstacleSpeed := OBSTACLE_SPEED;
      gameOver := false;
      gameState := Menu;
    }

    /** Starts a game: the ship near the bottom centre, at rest; empty pools;
        full health; score, difficulty and multiplier back to their start.
        The obstacle speed is not reset, so a new game keeps the previous
        games' ramp. */
    method InitGame()
      requires currentObstacleSpeed >= OBSTACLE_SPEED
      modifies this`gameState, this`gameOver, this`ship, this`treasures, this`obstacles, this`powerups,
               this`particles, this`score, this`health, this`difficulty, this`scoreMultiplier
      ensures Valid()
      ensures gameState == Playing && !gameOver
      ensures ship == Ship(width / 2.0, height - 30.0, SHIP_SIZE, SHIP_SIZE, 0.0, 0.0, 0.0)
      ensures treasures == [] && obstacles == [] && powerups == [] && particles == []
      ensures score == 0 && health == HEALTH_MAX && difficulty == 1.0 && scoreMultiplier == 1
    {
      gameState := Playing;
      gameOver := false;
      ship := Ship(width / 2.0, height - 30.0, SHIP_SIZE, SHIP_SIZE, 0.0, 0.0, 0.0);
      treasures := [];
      obstacles := [];
      powerups := [];
      particles := [];
      score := 0;
      health := HEALTH_MAX;
      difficulty := 1.0;
      scoreMultiplier := 1;
    }

    /** Restarts only after a game over. */
    method Restart()
      requires Valid()
      modifies this
      ensures Valid()
      ensures !old(gameOver) ==> unchanged(this)
      ensures old(gameOver) ==> gameState == Playing && !gameOver && score == 0 && health == HEALTH_MAX
      ensures old(gameOver) ==> treasures == [] && obstacles == [] && powerups == [] && particles == []
      ensures old(gameOver) ==> ship == Ship(width / 2.0, height - 30.0, SHIP_SIZE, SHIP_SIZE, 0.0, 0.0, 0.0)
                                && difficulty == 1.0 && scoreMultiplier == 1
      ensures currentObstacleSpeed == old(currentObstacleSpeed)
    {
      if gameOver {
        InitGame();
      }
    }

    /** Adds one treasure while the pool holds fewer than 5. */
    method GenerateTreasure(d: TreasureDraw)
      requires Valid() && d.Valid()
      modifies this`treasures
      ensures Valid()
      ensures treasures == if |old(treasures)| < TREASURE_CAP
                           then old(treasures) + [NewTreasure(width, height, d)]
                           else old(treasures)
    {
      if |treasures| < TREASURE_CAP {
        treasures := treasures + [NewTreasure(width, height, d)];
      }
    }

    /** Adds one obstacle while the pool holds fewer than 3; its speed is
        drawn from the current obstacle speed. */
    method GenerateObstacle(d: ObstacleDraw)
      requires Valid() && d.Valid()
      modifies this`obstacles
      ensures Valid()
      ensures obstacles == if |old(obstacles)| < OBSTACLE_CAP
                           then old(obstacles) + [NewObstacle(width, currentObstacleSpeed, d)]
                           else old(obstacles)
    {
      if |obstacles| < OBSTACLE_CAP {
        obstacles := obstacles + [NewObstacle(width, currentObstacleSpeed, d)];
      }
    }

    /** Adds one power-up while the game is not over and the pool is empty. */
    method GeneratePowerup(d: PowerUpDraw)
      requires Valid() && d.Valid()
      modifies this`powerups
      ensures Valid()
      ensures powerups == if !gameOver && |old(powerups)| < POWERUP_CAP
                          then old(powerups) + [NewPowerUp(width, d)]
                          else old(powerups)
    {
      if !gameOver && |powerups| < POWERUP_CAP {
        powerups := powerups + [NewPowerUp(width, d)];
      }
    }

    /** Key press: an arrow key sets one velocity component to the ship's
        speed in its direction; other keys, and every key after a game over,
        change nothing. */
    method MoveShip(key: string)
      requires Valid()
      modifies this`ship
      ensures Valid()
      ensures gameOver ==> ship == old(ship)
      ensures !gameOver ==>
                ship == old(ship).(dx := if key == "ArrowLeft" then -SHIP_SPEED
                                         else if key == "ArrowRight" then SHIP_SPEED
                                         else old(ship.dx),
                                   dy := if key == "ArrowUp" then -SHIP_SPEED
                                         else if key == "ArrowDown" then SHIP_SPEED
                                         else old(ship.dy))
    {
      if gameOver {
        return;
      }
      if key == "ArrowLeft" {
        ship := ship.(dx := -SHIP_SPEED);
      } else if key == "ArrowRight" {
        ship := ship.(dx := SHIP_SPEED);
      } else if key == "ArrowUp" {
        ship := ship.(dy := -SHIP_SPEED);
      } else if key == "ArrowDown" {
        ship := ship.(dy := SHIP_SPEED);
      }
    }

    /** Key release: left or right stops horizontal motion and levels the
        ship; up or down stops vertical motion; other keys change nothing.
        Releases are honoured after a game over too. */
    method StopShip(key: string)
      requires Valid()
      modifies this`ship
      ensures Valid()
      ensures key == "ArrowLeft" || key == "ArrowRight" ==>
                ship == old(ship).(dx := 0.0, rotation := 0.0)
      ensures key == "ArrowUp" || key == "ArrowDown" ==>
                ship == old(ship).(dy := 0.0)
      ensures key !in {"ArrowLeft", "ArrowRight", "ArrowUp", "ArrowDown"} ==>
                ship == old(ship)
    {
      if key == "ArrowLeft" || key == "ArrowRight" {
        ship := ship.(dx := 0.0, rotation := 0.0);
      } else if key == "ArrowUp" || key == "ArrowDown" {
        ship := ship.(dy := 0.0);
      }
    }

    /** The periodic ramp: while the game is not over, difficulty rises by
        0.2 and the obstacle speed by a tenth. */
    method IncreaseDifficulty()
      requires Valid()
      modifies this`difficulty, this`currentObstacleSpeed
      ensures Valid()
      ensures gameOver ==> difficulty == old(difficulty) && currentObstacleSpeed == old(currentObstacleSpeed)
      ensures !gameOver ==> difficulty == old(difficulty) + 0.2
      ensures !gameOver ==> currentObstacleSpeed == old(currentObstacleSpeed) * 1.1
      ensures difficulty >= old(difficulty) && currentObstacleSpeed >= old(currentObstacleSpeed)
    {
      if !gameOver {
        difficulty := difficulty + 0.2;
        currentObstacleSpeed := currentObstacleSpeed * 1.1;
      }
    }

    /** The delayed callback a multiplier power-up schedules: the multiplier
        goes back to neutral, whatever it has become meanwhile. */
    method RevertMultiplier()
      requires Valid()
      modifies this`scoreMultiplier
      ensures Valid()
      ensures scoreMultiplier == 1
    {
      scoreMultiplier := 1;
    }

    /** Treasure pickup: keeps exactly the treasures the ship misses, in
        order, and scores 10 times the multiplier for each one picked up. */
    method CheckCollisions()
      requires Valid()
      modifies this`treasures, this`score
      ensures Valid()
      ensures treasures == Retain(old(treasures), Missed(ship.Bounds()))
      ensures score == old(score) + TREASURE_POINTS * scoreMultiplier * Hits(ship.Bounds(), old(treasures))
      ensures score - old(score) == TREASURE_POINTS * scoreMultiplier * (|old(treasures)| - |treasures|)
      ensures score >= old(score)
    {
      var box := ship.Bounds();
      var hits := Hits(box, treasures);
      PickupPass(box, treasures);
      treasures := Retain(treasures, Missed(box));
      score := score + TREASURE_POINTS * scoreMultiplier * hits;
    }

    /** Obstacle hits: scans the pool from the back and stops at the first
        obstacle the ship touches; that one alone is removed, health drops by
        one, a red burst appears at the ship's centre, and the game is over
        once health is at most zero. When the ship touches none, nothing
        changes. */
    method CheckObstacleCollisions(burst: seq<ParticleDraw>)
      requires Valid() && BurstDraws(burst) && |burst| == DAMAGE_BURST
      modifies this`obstacles, this`health, this`particles, this`gameOver
      ensures Valid()
      ensures var k := LastHit(ship.Bounds(), old(obstacles));
              if k < 0 then
                && obstacles == old(obstacles) && health == old(health)
                && particles == old(particles) && gameOver == old(gameOver)
              else
                && obstacles == RemoveAt(old(obstacles), k)
                && health == old(health) - 1
                && particles == old(particles) + Burst(CenterX(ship.Bounds()), CenterY(ship.Bounds()), DAMAGE_COLOR, burst)
                && gameOver == (old(gameOver) || health <= 0)
      ensures old(health) - 1 <= health <= old(health) && (old(gameOver) ==> gameOver)
    {
      var box := ship.Bounds();
      var i := |obstacles| - 1;
      while i >= 0
        invariant -1 <= i < |obstacles|
        invariant forall j :: i < j < |obstacles| ==> !CheckCollision(box, obstacles[j].Bounds())
        invariant obstacles == old(obstacles) && health == old(health)
        invariant particles == old(particles) && gameOver == old(gameOver)
      {
        if CheckCollision(box, obstacles[i].Bounds()) {
          LastHitUnique(box, obstacles, i);
          health := health - 1;
          particles := CreateParticles(particles, CenterX(box), CenterY(box), DAMAGE_COLOR, burst);
          obstacles := RemoveAt(obstacles, i);
          if health <= 0 {
            gameOver := true;
          }
          break;
        }
        i := i - 1;
      }
      if i < 0 {
        LastHitUnique(box, obstacles, -1);
      }
    }

    /** The single-obstacle check (not called by the frame loop): when the
        ship touches `obstacle`, health drops by one, a red burst appears,
        the obstacle leaves the pool and the game is over once health is at
        most zero. */
    method CheckObstacleCollision(obstacle: Obstacle, burst: seq<ParticleDraw>) returns (hit: bool)
      requires Valid() && BurstDraws(burst) && |burst| == DAMAGE_BURST
      modifies this`obstacles, this`health, this`particles, this`gameOver
      ensures Valid()
      ensures hit == CheckCollision(ship.Bounds(), obstacle.Bounds())
      ensures !hit ==> obstacles == old(obstacles) && health == old(health)
                       && particles == old(particles) && gameOver == old(gameOver)
      ensures hit ==> && obstacles == Retain(old(obstacles), Other(obstacle))
                      && obstacle !in obstacles
                      && health == old(health) - 1
                      && particles == old(particles) + Burst(CenterX(ship.Bounds()), CenterY(ship.Bounds()), DAMAGE_COLOR, burst)
                      && gameOver == (old(gameOver) || health <= 0)
    {
      var box := ship.Bounds();
      hit := CheckCollision(box, obstacle.Bounds());
      if hit {
        health := health - 1;
        particles := CreateParticles(particles, CenterX(box), CenterY(box), DAMAGE_COLOR, burst);
        RetainMembership(obstacles, Other(obstacle));
        obstacles := Retain(obstacles, Other(obstacle));
        if health <= 0 {
          gameOver := true;
        }
      }
    }

    /** The movement half of drawing the obstacles: walks the pool from the
        back, moves each obstacle down by its speed, and removes in place each
        one that has passed the canvas bottom. */
    method AdvanceObstacles()
      requires Valid()
      modifies this`obstacles
      ensures Valid()
      ensures obstacles == FallPass(old(obstacles), height)
    {
      FallPassMembership(obstacles, height);
      obstacles := FallWalk(obstacles, height);
    }

    /** Fades the particles in one front-to-back walk that removes each one
        no longer visible in place; see FadePass for which particles the walk
        skips. */
    method UpdateParticles()
      requires Valid()
      modifies this`particles
      ensures Valid()
      ensures particles == FadePass(old(particles))
    {
      FadePassKeepsAlive(particles);
      particles := FadeWalk(particles);
    }

    /** Drifts, expires and collects the power-ups in one front-to-back walk
        that removes in place. A collected health power-up restores one point
        up to the maximum, a collected multiplier doubles the multiplier, and
        each collection adds a burst at the power-up's centre. */
    method AdvancePowerups(burst: seq<ParticleDraw>)
      requires Valid() && BurstDraws(burst) && |burst| == COLLECT_BURST
      modifies this`powerups, this`health, this`scoreMultiplier, this`particles
      ensures Valid()
      ensures var sweep := PowerPass(ship.Bounds(), height, old(powerups));
              && powerups == sweep.kept
              && health == HealthAfter(old(health), sweep.collected)
              && scoreMultiplier == MultiplierAfter(old(scoreMultiplier), sweep.collected)
              && particles == old(particles) + CollectBursts(sweep.collected, burst)
      ensures health >= old(health) && scoreMultiplier >= old(scoreMultiplier)
    {
      var box := ship.Bounds();
      PowerPassKeepsHeights(box, height, powerups, SHIP_SIZE);
      var pool, hp, multiplier, sparks := PowerWalk(box, height, powerups, health, scoreMultiplier, particles, burst);
      powerups, health, scoreMultiplier, particles := pool, hp, multiplier, sparks;
    }

    /** One frame. Outside `Playing` nothing happens. Otherwise the ship
        moves and then obstacles fall, treasures are picked up, at most one
        obstacle hits, particles fade and power-ups drift or are collected.
        The frame does not touch the game state, the difficulty or the
        obstacle speed. */
    method Update(damageBurst: seq<ParticleDraw>, collectBurst: seq<ParticleDraw>)
      requires Valid()
      requires BurstDraws(damageBurst) && |damageBurst| == DAMAGE_BURST
      requires BurstDraws(collectBurst) && |collectBurst| == COLLECT_BURST
      modifies this`ship, this`treasures, this`obstacles, this`powerups, this`particles,
               this`score, this`health, this`scoreMultiplier, this`gameOver
      ensures Valid()
      ensures old(gameState) != Playing ==> unchanged(this)
      ensures old(gameState) == Playing ==>
                && ship == Moved(old(ship), width, height)
                && 0.0 <= ship.x && (SHIP_SIZE <= width ==> ship.x + ship.width <= width)
                && 0.0 <= ship.y && (SHIP_SIZE <= height ==> ship.y + ship.height <= height)
                && health >= old(health) - 1
                && score >= old(score)
                && (old(gameOver) ==> gameOver)
      ensures old(gameState) == Playing ==>
              EntitiesAdvanced(old(treasures), old(obstacles), old(powerups), old(particles),
                               old(score), old(health), old(scoreMultiplier), old(gameOver),
                               damageBurst, collectBurst)
    {
      if gameState != Playing {
        return;
      }
      AdvanceShip();
      AdvanceEntities(damageBurst, collectBurst);
    }

    /** The ship part of a frame: moved by its velocity, clamped to the
        canvas, tilted by the sign of its horizontal velocity. */
    method AdvanceShip()
      requires Valid()
      modifies this`ship
      ensures Valid()
      ensures ship == Moved(old(ship), width, height)
    {
      ship := Moved(ship, width, height);
    }

    /** What the entity part of one frame does, from the pools and scalars
        before it (the `0` parameters) to the fields after it, in the game's order: the obstacles
        fall, the treasures the ship touches are scored at the multiplier in
        force and removed, at most one fallen obstacle hits (health drops by
        one, a red burst appears, a game that reaches zero health is over),
        the particles, that burst included, fade, and the power-ups drift,
        expire or are collected. */
    ghost predicate EntitiesAdvanced(treasures0: seq<Treasure>, obstacles0: seq<Obstacle>,
                                     powerups0: seq<PowerUp>, particles0: seq<Particle>,
                                     score0: int, health0: int, multiplier0: int, gameOver0: bool,
                                     damageBurst: seq<ParticleDraw>, collectBurst: seq<ParticleDraw>)
      requires BurstDraws(damageBurst) && BurstDraws(collectBurst)
      reads this
    {
      var box := ship.Bounds();
      var fallen := FallPass(obstacles0, height);
      var k := LastHit(box, fallen);
      var hit := if k < 0 then [] else Burst(CenterX(box), CenterY(box), DAMAGE_COLOR, damageBurst);
      var hp := if k < 0 then health0 else health0 - 1;
      var sweep := PowerPass(box, height, powerups0);
      && treasures == Retain(treasures0, Missed(box))
      && score == score0 + TREASURE_POINTS * multiplier0 * Hits(box, treasures0)
      && obstacles == (if k < 0 then fallen else RemoveAt(fallen, k))
      && gameOver == (gameOver0 || (k >= 0 && hp <= 0))
      && particles == FadePass(particles0 + hit) + CollectBursts(sweep.collected, collectBurst)
      && powerups == sweep.kept
      && health == HealthAfter(hp, sweep.collected)
      && scoreMultiplier == MultiplierAfter(multiplier0, sweep.collected)
    }

    /** The rest of a frame, in the game's order: obstacles fall, treasures
        are picked up, at most one obstacle hits, particles fade, power-ups
        drift or are collected. Health drops by at most one and the score
        never drops; a game that is over stays over. */
    method AdvanceEntities(damageBurst: seq<ParticleDraw>, collectBurst: seq<ParticleDraw>)
      requires Valid()
      requires BurstDraws(damageBurst) && |damageBurst| == DAMAGE_BURST
      requires BurstDraws(collectBurst) && |collectBurst| == COLLECT_BURST
      modifies this`treasures, this`obstacles, this`powerups, this`particles,
               this`score, this`health, this`scoreMultiplier, this`gameOver
      ensures Valid()
      ensures EntitiesAdvanced(old(treasures), old(obstacles), old(powerups), old(particles),
                               old(score), old(health), old(scoreMultiplier), old(gameOver),
                               damageBurst, collectBurst)
      ensures health >= old(health) - 1
      ensures score >= old(score)
      ensures old(gameOver) ==> gameOver
    {
      AdvanceHazards(damageBurst);
      AdvanceEffects(collectBurst);
    }

    /** The hazard half of a frame: obstacles fall, treasures the ship
        touches are scored and removed, and at most one fallen obstacle hits. */
    method AdvanceHazards(damageBurst: seq<ParticleDraw>)
      requires Valid() && BurstDraws(damageBurst) && |damageBurst| == DAMAGE_BURST
      modifies this`treasures, this`obstacles, this`particles, this`score, this`health, this`gameOver
      ensures Valid()
      ensures treasures == Retain(old(treasures), Missed(ship.Bounds()))
      ensures score == old(score) + TREASURE_POINTS * scoreMultiplier * Hits(ship.Bounds(), old(treasures))
      ensures score >= old(score)
      ensures var fallen := FallPass(old(obstacles), height);
              var k := LastHit(ship.Bounds(), fallen);
              && obstacles == (if k < 0 then fallen else RemoveAt(fallen, k))
              && health == (if k < 0 then old(health) else old(health) - 1)
              && particles == old(particles) + (if k < 0 then [] else Burst(CenterX(ship.Bounds()), CenterY(ship.Bounds()), DAMAGE_COLOR, damageBurst))
              && gameOver == (old(gameOver) || (k >= 0 && health <= 0))
    {
      AdvanceObstacles();
      Collide(damageBurst);
    }

    /** The contact checks of a frame: treasures the ship touches are scored
        and removed, then at most one obstacle hits. */
    method Collide(damageBurst: seq<ParticleDraw>)
      requires Valid() && BurstDraws(damageBurst) && |damageBurst| == DAMAGE_BURST
      modifies this`treasures, this`obstacles, this`particles, this`score, this`health, this`gameOver
      ensures Valid()
      ensures treasures == Retain(old(treasures), Missed(ship.Bounds()))
      ensures score == old(score) + TREASURE_POINTS * scoreMultiplier * Hits(ship.Bounds(), old(treasures))
      ensures score >= old(score)
      ensures var k := LastHit(ship.Bounds(), old(obstacles));
              && obstacles == (if k < 0 then old(obstacles) else RemoveAt(old(obstacles), k))
              && health == (if k < 0 then old(health) else old(health) - 1)
              && particles == old(particles) + (if k < 0 then [] else Burst(CenterX(ship.Bounds()), CenterY(ship.Bounds()), DAMAGE_COLOR, damageBurst))
              && gameOver == (old(gameOver) || (k >= 0 && health <= 0))
    {
      CheckCollisions();
      CheckObstacleCollisions(damageBurst);
    }

    /** The effect half of a frame: particles fade, then power-ups drift,
        expire or are collected. */
    method AdvanceEffects(collectBurst: seq<ParticleDraw>)
      requires Valid() && BurstDraws(collectBurst) && |collectBurst| == COLLECT_BURST
      modifies this`powerups, this`particles, this`health, this`scoreMultiplier
      ensures Valid()
      ensures var sweep := PowerPass(ship.Bounds(), height, old(powerups));
              && powerups == sweep.kept
              && health == HealthAfter(old(health), sweep.collected)
              && scoreMultiplier == MultiplierAfter(old(scoreMultiplier), sweep.collected)
              && particles == FadePass(old(particles)) + CollectBursts(sweep.collected, collectBurst)
    {
      UpdateParticles();
      AdvancePowerups(collectBurst);
    }
  }

  /** The game always passes the ship as the first box, and nothing in a
      valid session is taller than the ship; so every contact the frame
      reports, with a treasure, a fallen obstacle or a drifted power-up, is
      a real overlap of the two boxes (though not every overlap is
      reported). */
  lemma ReportedContactsOverlap(s: Session)
    requires s.Valid()
    ensures var ship := s.ship.Bounds();
            forall t :: t in s.treasures && CheckCollision(ship, t.Bounds()) ==> Intersects(ship, t.Bounds())
    ensures var ship := s.ship.Bounds();
            forall o :: o in FallPass(s.obstacles, s.height) && CheckCollision(ship, o.Bounds()) ==>
              Intersects(ship, o.Bounds())
    ensures var ship := s.ship.Bounds();
            forall p :: p in s.powerups && CheckCollision(ship, Drifted(p).Bounds()) ==>
              Intersects(ship, Drifted(p).Bounds())
  {
    FallPassMembership(s.obstacles, s.height);
  }
}
