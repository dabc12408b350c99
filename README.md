# Pirate treasure game: the game rules, verified

This project models the rules that sit under the drawing code of a
single-file browser game, `script.js`. In the game a ship sails a canvas,
picks up treasures, dodges falling obstacles and collects power-ups. What
is modelled:

- **The box collision test.** `checkCollision` is modelled exactly as
  written, together with a symmetric reference test and lemmas relating the
  two.
- **The three capacity-limited spawners.** At most 5 treasures, 3 obstacles
  and 1 power-up. Each random draw is a parameter.
- **The per-frame ship update.** The ship moves by its velocity, is clamped
  to the canvas and tilts by the sign of its horizontal velocity. The
  key-press and key-release handlers are modelled too.
- **The treasure pickup filter and the two obstacle-hit checks.** One is the
  back-to-front scan that stops at the first hit. The other is the unused
  single-obstacle variant.
- **The three in-place pool walks.**
  - Obstacles fall and are removed back to front.
  - Particles fade and are removed by a forward `forEach` with `splice`.
  - Power-ups drift, expire or are collected in the same forward
    `forEach` + `splice` style.
- **The difficulty ramp, the session reset and the restart guard.**

The model has six modules, one per concern:

- `Geometry` holds the box test.
- `Sequences` holds order-preserving removal and slicing facts.
- `Entities` holds the game's records, the spawn constructors and the
  one-tick step of each record.
- `Passes` holds what one pass over a pool does, written as recursive
  functions of the pool, with lemmas about them.
- `Walks` holds the loops themselves, each proved to compute its pass
  function exactly.
- `Game` holds the `Session` class. Its fields are the game's module-level
  variables, and its methods update them in place the way the game's
  functions do.

`Session.Valid()` is the invariant every method keeps:

- health is never above 3;
- the pools never exceed their caps;
- every particle has positive alpha;
- the multiplier is at least 1;
- difficulty and obstacle speed never fall below their starting values;
- the score is never negative;
- the ship is 50 by 50;
- nothing in the treasure, obstacle or power-up pools is taller than the ship.

Positions, sizes, speeds, alpha and difficulty are exact reals; score,
health and the score multiplier are integers, as the game only ever adds,
subtracts or doubles whole numbers there. `Math.random()` results are parameters: a record of
draws per spawned entity, and a sequence of draws per particle burst, each
draw in [0, 1).

The forward `forEach` walks splice while they iterate. The element that
shifts into a removed slot is therefore not visited in that pass, and the
next element is visited in its place. `FadePass` and `PowerPass` state that
behaviour exactly, and `FadePassSkipsShifted` exhibits it on a concrete
pool.

The collision test is not symmetric. An overlap test adds each box's own
height to its top; line 530 of `script.js` adds `obj2.height` to `obj1.y`.
The model follows the code:
`CheckCollision` is the test as written. The lemmas show that it agrees
with the symmetric `Intersects` when the two heights are equal, and
`CheckCollisionNotSymmetric` gives two boxes for which the order matters.

## Model

| member | source | states |
|---|---|---|
| Geometry.CheckCollision | script.js:526-531 | when the first box is at least as tall as the second, every contact the test reports is a real overlap; when it is at most as tall, every real overlap is reported |
| Geometry.CheckCollisionVertical | script.js:526-531 | the test holds exactly when the boxes overlap horizontally and the first box's top lies strictly within the second box's height of the second box's top |
| Geometry.CheckCollisionAgreesOnEqualHeights | script.js:526-531 | for boxes of equal height the test equals the symmetric overlap test and gives the same answer in either order |
| Geometry.CheckCollisionNotSymmetric | script.js:526-531 | a 30-tall treasure overlapping the lower part of a 50-tall ship is missed with the ship as first argument (as the game calls it) and found with the treasure first |
| Geometry.IntersectsSymmetric | script.js:526-531 | the reference overlap test is symmetric |
| Entities.NewTreasure | script.js:244-254 | a spawned treasure is 30 by 30, lies horizontally within the canvas and vertically in [0, height − 100], rotation in [0, 2π] |
| Entities.NewObstacle | script.js:92-105 | a spawned obstacle is square with side in [30, 50), starts just above the canvas, lies horizontally within it, its speed is in [s, 1.5·s) for the current obstacle speed s, its spin is in [−0.05, 0.05) |
| Entities.NewPowerUp | script.js:399-410 | a spawned power-up is 30 by 30, starts just above the canvas, lies horizontally within it, drifts down, and is a health power-up exactly when its draw is below 0.5 |
| Entities.NewParticle | script.js:414-422 | a particle starts at the given point with full alpha and the given colour, velocity components in [−2.5, 2.5), radius in [1, 4) |
| Entities.Burst | script.js:412-424 | a burst has one particle per draw, each at the burst point with full alpha |
| Entities.ScaledWithin | script.js:94-96 | a random draw scaled by a non-negative span stays within [0, span] |
| Entities.SpeedWithin | script.js:100 | a speed raised by up to half a random draw stays in [speed, 1.5·speed) |
| Walks.CreateParticles | script.js:412-424 | the loop appends exactly one new particle per draw, in draw order, after the existing particles |
| Sequences.Retain | script.js:273-284 | filtering never lengthens a pool |
| Sequences.RetainMembership | script.js:273-284 | an element survives a filter exactly when it was there and passes the test |
| Sequences.RetainAppend | script.js:273-284 | filtering keeps the survivors' relative order: it distributes over concatenation |
| Sequences.RetainAll | script.js:273-284 | filtering removes nothing exactly when every element passes |
| Sequences.RetainRejected | script.js:273-284 | survivors plus rejected elements account for the whole pool |
| Sequences.RemoveAt | script.js:161 | `splice(k, 1)` shortens the pool by one, keeps the elements before k and shifts those after it down by one |
| Passes.PickupPass | script.js:273-284 | the treasures kept are exactly those the ship misses, and the kept plus the picked-up count is the original count |
| Passes.LastHit | script.js:152-171 | the scan's stopping index either is −1 or holds an obstacle the ship touches, and no obstacle after it is touched |
| Passes.LastHitUnique | script.js:152-171 | any index with that description is the scan's stopping index |
| Passes.LastHitRemovesOne | script.js:152-171 | removing the hit obstacle shortens the pool by one and keeps every obstacle the ship does not touch |
| Passes.FallenAll | script.js:113-115 | every obstacle moves by its speed and turns by its spin |
| Entities.Fallen | script.js:114-115 | an obstacle with positive speed moves down; its position across, size, speed and spin are unchanged |
| Passes.FallPassStep | script.js:110-121 | the pass over a pool is the first obstacle's fate (kept moved, or dropped once below the canvas) followed by the pass over the rest |
| Passes.FallPass | script.js:110-121 | the obstacle pass never lengthens the pool and leaves no obstacle below the canvas bottom |
| Passes.FallPassMembership | script.js:110-121 | after the obstacle pass the pool holds exactly the moved obstacles still on the canvas |
| Passes.FadePass | script.js:426-436 | one particle pass keeps at least half (rounded down) of the particles, since every removal skips the next particle |
| Passes.FadeVisit | script.js:426-436 | visiting slot k (fade, then splice when no longer visible) leaves what the rest of the pass will produce unchanged |
| Passes.FadedAll | script.js:428-430 | every particle moves by its velocity and loses 0.02 alpha |
| Entities.Faded | script.js:428-430 | a particle always loses alpha, is still visible afterwards exactly when its alpha was above 0.02, and keeps its velocity, radius and colour |
| Passes.FadePassKeepsAlive | script.js:426-436 | after the particle pass every particle still has positive alpha |
| Passes.FadePassWithoutRemoval | script.js:426-436 | when no particle fades out, the pass fades every particle and removes none |
| Passes.FadePassOrigins | script.js:426-436 | every particle left after the pass is either a visible faded original or an unfaded original that shifted into the slot of a particle just removed |
| Passes.FadePassSkipsShifted | script.js:426-436 | with two particles about to fade out, the pass removes the first and keeps the second unfaded, where fading every particle would remove both |
| Passes.PowerPass | script.js:451-523 | one power-up pass keeps or collects at most the power-ups it started with, and every collected one is on the canvas and touched by the ship |
| Passes.PowerVisit | script.js:452-522 | visiting slot k (drift, expire, or collect and splice) leaves what the rest of the pass will produce unchanged, with the collected one, if any, added |
| Passes.PowerKeptVisit | script.js:452-510 | a power-up that drifts but neither expires nor is touched stays in place in its drifted form |
| Passes.PowerRemovedVisit | script.js:454-517 | a power-up that expires or is touched is spliced out, and its successor is skipped |
| Passes.PowerPassSingle | script.js:451-523 | a lone power-up is dropped when it leaves the canvas, collected when touched, and otherwise kept in its drifted form |
| Passes.PowerPassKeepsHeights | script.js:451-523 | the power-ups a pass keeps are no taller than a bound every starting power-up meets: drifting and skipping never resize one |
| Entities.Drifted | script.js:453 | a power-up with positive drift moves down; its position across, size, drift and kind are unchanged |
| Passes.HealthAfter | script.js:511-512 | health power-ups never push health above 3 or lower it, and without one health is unchanged |
| Passes.MultiplierAfter | script.js:513-514 | multiplier power-ups never lower a multiplier of at least 1, and without one the multiplier is unchanged |
| Passes.CollectBursts | script.js:519-521 | each collected power-up adds one burst of visible particles |
| Passes.HealthAfterCount | script.js:510-512 | collecting health power-ups one after another from at most full health gives min(3, health + the number of health power-ups): the cap acts once, on the total |
| Passes.MultiplierAfterCount | script.js:510-514 | collecting multiplier power-ups one after another multiplies the multiplier by 2 to the number of multiplier power-ups |
| Walks.FallWalk | script.js:110-121 | the back-to-front loop with in-place removal computes exactly the obstacle pass |
| Walks.FadeWalk | script.js:426-436 | the forward loop with in-place removal computes exactly the particle pass, skips included |
| Walks.ApplyPowerUp | script.js:510-522 | collecting one power-up updates health, multiplier and particles exactly as the collection effects for one more power-up say |
| Walks.VisitPowerUp | script.js:452-522 | one loop iteration keeps the walk invariant: the slots visited so far plus the rest of the pass give the pass over the original pool |
| Walks.PowerWalk | script.js:451-523 | the forward loop with in-place removal computes exactly the power-up pass and its effects on health, multiplier and particles |
| Game.Clamp | script.js:322-323 | the clamped value is never negative and never above a non-negative bound; it is the value itself inside [0, bound], the bound when the value passes a non-negative bound, and 0 when the value or the bound is negative |
| Game.Moved | script.js:317-329 | the moved ship keeps its size and velocity, lies inside a canvas at least its size, moves by exactly its velocity when that stays inside, and is tilted 0.1, −0.1 or 0 by the sign of dx |
| Game.ReportedContactsOverlap | script.js:526-531 | in every valid session, each contact the frame reports between the ship (always the first box) and a treasure, a fallen obstacle or a drifted power-up is a real overlap of the two boxes, because nothing pooled is taller than the ship |
| Game.Session.constructor | script.js:33-34 | at page load the menu is shown and the obstacle speed starts at 2 |
| Game.Session.InitGame | script.js:39-65 | a new game is in play: the ship is at the bottom centre and at rest, the pools are empty, health is full, score, difficulty and multiplier are reset; the obstacle speed is left as it was, and from any state with the obstacle speed at least its start the invariant holds afterwards |
| Game.Session.Restart | script.js:533-537 | after a game over it starts a new game with every field `initGame` resets (ship at the bottom centre at rest, empty pools, full health, score 0, difficulty 1, multiplier 1) and keeps the obstacle speed; otherwise nothing changes |
| Game.Session.GenerateTreasure | script.js:244-254 | appends exactly one new treasure below the cap of 5, otherwise changes nothing |
| Game.Session.GenerateObstacle | script.js:92-105 | appends exactly one new obstacle below the cap of 3, using the current obstacle speed, otherwise changes nothing |
| Game.Session.GeneratePowerup | script.js:399-410 | appends exactly one new power-up when the game is not over and none is present, otherwise changes nothing |
| Game.Session.MoveShip | script.js:359-376 | after a game over nothing changes; otherwise each arrow key sets one velocity component to ±5 and other keys change nothing |
| Game.Session.StopShip | script.js:378-390 | left/right zero dx and the tilt, up/down zero dy, other keys change nothing |
| Game.Session.IncreaseDifficulty | script.js:392-397 | while the game is not over difficulty rises by 0.2 and obstacle speed by a factor of 1.1; neither ever drops |
| Game.Session.RevertMultiplier | script.js:515 | the delayed revert sets the multiplier back to 1 |
| Game.Session.CheckCollisions | script.js:273-284 | keeps exactly the missed treasures in order and adds 10 × multiplier per treasure picked up |
| Game.Session.CheckObstacleCollisions | script.js:152-171 | with no hit nothing changes; otherwise only the highest-index touched obstacle is removed, health drops by exactly 1, a burst of red particles is added at the ship's centre, and the game is over exactly when it already was or health is at most 0 |
| Game.Session.CheckObstacleCollision | script.js:287-306 | reports the hit; on a hit the obstacle leaves the pool, health drops by 1, a red burst is added and game over follows health ≤ 0; otherwise nothing changes |
| Game.Session.AdvanceObstacles | script.js:110-121 | the obstacle pool becomes exactly the obstacle pass of the old pool |
| Game.Session.UpdateParticles | script.js:426-436 | the particle pool becomes exactly the particle pass of the old pool, and every particle stays visible |
| Game.Session.AdvancePowerups | script.js:451-523 | the power-up pool, health, multiplier and particles become exactly the power-up pass's results; health and multiplier never drop |
| Game.Session.Update | script.js:314-341 | outside play nothing changes; in play the ship is moved and stays on the canvas, and the pools, score, health, multiplier and game-over flag are exactly those of the entity part of the frame (obstacle pass, pickup filter, last hit, particle pass with the hit burst, power-up pass), so health drops by at most 1, the score never drops and game over is never undone |
| Game.Session.AdvanceShip | script.js:317-329 | the ship becomes exactly its moved form |
| Game.Session.AdvanceEntities | script.js:336-341 | in the game's order: treasures are the ship-missed ones and the score rises by 10 × the multiplier in force per pickup; obstacles are the fallen pool minus its last touched obstacle; health drops by 1 exactly on a hit and then takes the collected power-ups; particles are the particle pass over the old ones plus the hit burst, followed by the collection bursts; power-ups are the pass's kept ones; game over is set exactly when already set or a hit leaves health at most 0 |
| Game.Session.AdvanceHazards | script.js:336-338 | obstacles fall, treasures are picked up and at most one fallen obstacle hits: each of the pool, score, health, particle and game-over results is given exactly, and the score never drops |
| Game.Session.Collide | script.js:337-338 | treasures the ship touches are scored at 10 × the multiplier and removed, then only the last touched obstacle is removed with health −1, the red burst, and game over once health is at most 0; with no hit the obstacles, health, particles and flag are unchanged |
| Game.Session.AdvanceEffects | script.js:339-341 | particles fade and power-ups pass: the particles are the particle pass over the old ones followed by the collection bursts, and the power-ups, health and multiplier are the power-up pass's results |

## Left out

- Drawing is not modelled: the canvas, gradients, `drawShip`, `drawWaves`, `drawTreasures`, `drawParticles`, `createExplosion` and the HUD. Only the state changes inside `drawObstacles` and `drawPowerups` are modelled.
- Audio playback is a call into the browser and is left out.
- The DOM and menu wiring are left out: `showMenu`, the text of `showGameOver`, the buttons and the key listeners. `showGameOver` switches to the menu through a two-second timer. The game state never becomes `GameOver` in the code, so the model keeps `Playing` with the game-over flag set.
- Timer scheduling is not modelled: `setInterval`, `setTimeout` and `requestAnimationFrame`. The multiplier revert is the separate `RevertMultiplier` method. How it interleaves with frames and other callbacks is concurrency and is not modelled.
- A restart in the code runs `initGame` again, which starts four more `setInterval` spawners and ramps on top of the earlier ones, so spawns and the difficulty ramp speed up with each game. Re-adding the same key listeners registers nothing new. A restart within two seconds of a game over also leaves the old frame loop running beside the new one, and the pending menu timer then stops the new game. The model has no timers, so none of this is captured.
- `Math.random` itself is not modelled. Its results are parameters in [0, 1).
- Wave generation is cosmetic and trigonometric, and is left out.
- JavaScript floating point is modelled as exact reals. Bit-exact rounding of `difficulty += 0.2` and `currentObstacleSpeed *= 1.1` is not captured.
- Game.Session.CheckObstacleCollision: the code removes obstacles by identity (`o !== obstacle`); the model removes by value. Equal-valued distinct obstacles would all be removed in the model.
- Game.Session.AdvancePowerups: one sequence of particle draws is used for every power-up collected in a frame. The pool holds at most one power-up, so at most one is collected per frame.
- Game.Session.constructor: in the code the pools and scalars are undefined until the first `initGame`. The model gives them the values `initGame` gives.
- Walks.FallWalk, Walks.FadeWalk, Walks.PowerWalk: each walk works on a local copy of the pool and assigns it back. Aliasing of a pool by another reference during the walk is not modelled.
- Game.Session.InitGame: the reset stops at the field resets; the synchronous `update()` at the end of `initGame` (line 88) is one frame, which a caller models by calling `Update` next. The wave setup, the listeners and the intervals are left out as above.
- Health can fall below 0 after a game over, because frames keep running until the menu appears. The invariant bounds health only from above.
