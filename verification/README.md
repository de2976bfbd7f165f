# Neon platformer simulation in Dafny

This project models the simulation core of a browser platformer: the
per-entity physics and collision code (`lib/game/physics.ts`) and the
simulation parts of the game engine (`lib/game/GameEngine.ts`). Those parts are
the initial state, keyboard input, the frame step `updateGame`, the camera, the
frame loop's time scale and `restart`. It then proves properties of that model.

Each frame moves the player, the moving platforms, the ground enemies
(goombas, koopas and spiky enemies) and the jumping enemies, and bobs the
power-ups. Flying enemies are not moved: the frame only sets their hover
speed and patrol direction. The frame then checks the goal and ages the
decorative particles. Contact with an enemy is either a stomp,
which damages it, or a hit that costs the player a health point and makes them
invincible until a timer expires. Score comes from stomped enemies (100, or 200
for a koopa), collected power-ups (500) and the goal (1000).

The model is purely functional. Every in-place update of the source becomes a
function from the old value to the new one.

- `Types`: the records of `types.ts`.
- `Numbers`: `Min` and `Max` model `Math.min` and `Math.max`
  (`lib/game/physics.ts:14`, `44-45`; `lib/game/GameEngine.ts:127`, `645`),
  and `JsRem` models JavaScript's truncating `%`. `Abs` is a helper for
  stating contracts.
- `Seqs`: `Array.prototype.filter`.
- `Physics`: `physics.ts`.
- `Environment`: the wall clock, `Math.sin` and the random samples a frame
  reads, passed as an explicit value.
- `Enemies`: the enemy loop.
- `GameEngine`: the engine. The engine's own fields are the game state and
  the set of held keys, because `handleInput` consumes the escape key from that
  set. The events that reach the engine between frames are also modelled:
  key changes, the invincibility timer and the restart key.
- `EngineProperties`: whole-frame and whole-run properties.
  - The state invariant holds initially and after every event.
  - Where the points of a frame come from.
  - What becomes of particles.
  - A frozen game stays frozen until restarted.

## Model

| member | source | states |
|---|---|---|
| Physics.UpdatePhysics | lib/game/physics.ts:9-22 | the position moves by the old velocity times the time scale; players and enemies fall 0.8 faster per step capped at 12 and keep 85% of their horizontal speed; particles fall 0.24 faster and keep 98%; other kinds keep their velocity; nothing else changes |
| Physics.FallSpeedAfterSteps | lib/game/physics.ts:13-14 | after n ≥ 1 steps a player or enemy falls at exactly min(vy + 0.8·n, 12) |
| Physics.FrictionAfterSteps | lib/game/physics.ts:15 | after n steps the horizontal speed is vx·0.85ⁿ |
| Physics.StepsDamp | lib/game/physics.ts:15 | after n steps the horizontal speed is vx damped by friction n times |
| Physics.FrictionNeverStops | lib/game/physics.ts:15 | friction alone never brings a moving player or enemy to a standstill |
| Physics.CollisionSymmetric | lib/game/physics.ts:24-31 | the overlap test does not depend on argument order |
| Physics.CollisionIffSharedPoint | lib/game/physics.ts:24-31 | for boxes of positive size the test holds exactly when the open boxes share a point |
| Physics.SideOf | lib/game/physics.ts:44-47 | the push-out is horizontal exactly when the horizontal overlap is the smaller one |
| Physics.ResolveCollision | lib/game/physics.ts:33-67 | the body ends flush against the platform's edge on the chosen side, its velocity on that axis is zero and on the other axis unchanged, and it no longer overlaps the platform |
| Physics.ResolvePlayer | lib/game/physics.ts:55-61 | landing on top grounds the player and ends the jump; any other push-out leaves both flags alone |
| Physics.CreateParticle | lib/game/physics.ts:69-88 | a new particle has the given id and sits at the given position with the given velocity, a square of the given size, active, with 30 frames of life out of 30 |
| Physics.BurstParticle | lib/game/physics.ts:97-108 | particle i of a burst starts at the centre with a square size in [2, 6) and a velocity within 1 of speed·(cos, sin) of its angle, for random samples in [0, 1) |
| Physics.ParticleBurst | lib/game/physics.ts:90-112 | a burst holds exactly `count` fresh particles with those bounds, particle i carrying the id of its random sample |
| Numbers.JsRem | lib/game/GameEngine.ts:93 | JavaScript `%`: the result has the dividend's sign, is smaller than the divisor in magnitude, differs from the dividend by a whole multiple of the divisor, and is the identity on [0, m) |
| Seqs.Filter | lib/game/GameEngine.ts:236 | the result holds only kept elements, holds every kept element, and is no longer than the input |
| Seqs.FilterConcat | lib/game/GameEngine.ts:285 | filtering distributes over concatenation |
| Seqs.FilterKeepsAll | lib/game/GameEngine.ts:257 | a list is its own filter exactly when every element is kept |
| Seqs.FilterLength | lib/game/GameEngine.ts:257 | the filter's length plus the number of rejected elements is the input's length |
| Enemies.ResolveAgainst | lib/game/GameEngine.ts:168-172 | resolving a jumper against the platforms only zeroes velocity components; it changes nothing when no platform overlaps; the body ends clear of the last platform |
| Enemies.Motion | lib/game/GameEngine.ts:155-175 | flying enemies get vertical speed 2·sin(now/500) and are not moved; jumpers reset their timer exactly when it passes 60 frames while not moving vertically, and then launch at -10; a jumper is integrated and then only pushed out of platforms, so each velocity component is the integrated one or zero, and nothing changes when it overlaps no platform; other kinds are integrated |
| Enemies.MoveEnemy | lib/game/GameEngine.ts:153-185 | a stopped enemy is re-launched at 1 (1.5 if flying); the direction flips exactly when the enemy is at or beyond a patrol bound; the speed is never zero afterwards; the walk cycle stays in [0, 2) |
| Enemies.SpeedAfterMove | lib/game/GameEngine.ts:174-183 | for kinds other than jumpers the speed after a frame follows from the speed before it: friction for walkers, none for flyers, the cruise speed exactly when it was zero |
| Enemies.Contact | lib/game/GameEngine.ts:187-233 | a spiky hit costs a health point and knocks the player back; a stomp damages the enemy, scores its kill value if it dies, bounces the player and bursts 10 particles; a side hit costs a health point; an invincible player is affected only by a stomp; health 0 means game over; of the touched enemy only its health and active flag may change |
| Enemies.SpikyContact | lib/game/GameEngine.ts:189-203 | one health point lost, invincible, velocity (-2·vx, -8), game over at zero health, enemies, score and particles unchanged |
| Enemies.StompContact | lib/game/GameEngine.ts:204-221 | the enemy loses one health point and becomes inactive exactly when none is left, which scores 100 (koopa 200); the player bounces at -7.5 |
| Enemies.SideContact | lib/game/GameEngine.ts:222-232 | one health point lost, invincible, velocity unchanged, game over at zero health |
| Enemies.EnemyTurn | lib/game/GameEngine.ts:153-233 | one enemy's turn changes only that enemy, keeps its identity and health invariant, costs at most one health point and none while invincible, and scores exactly a defeated enemy's value; the enemy ends where `MoveEnemy` put it, with only its health and active flag changed by contact; when the player and the moved enemy do not overlap, the player, score, particles and game-over flag are unchanged |
| Enemies.EnemyPass | lib/game/GameEngine.ts:153-234 | the whole enemy loop keeps platforms, power-ups, goal and camera, costs at most one health point, never lowers the score and only appends fresh particles |
| Enemies.EnemyPassScore | lib/game/GameEngine.ts:208-211 | the loop's points are exactly the kill values of the enemies it deactivated |
| Enemies.WholePassScore | lib/game/GameEngine.ts:153-234 | over the whole list, the loop's points are the kill values of the enemies it left inactive, and every enemy keeps its place and identity |
| GameEngine.InitializeGame | lib/game/GameEngine.ts:34-68 | a fresh game: 3 health, no score, player at (100, 300) at rest, no particles, camera at the origin, level 1, 300 time units, the level's content |
| GameEngine.Restart | lib/game/GameEngine.ts:666-668 | restart replaces the whole state by a fresh game and keeps the held keys |
| GameEngine.Steer | lib/game/GameEngine.ts:90-100 | left wins over right and sets speed -5 facing left; right sets 5 facing right; no steering resets the walk cycle; the walk cycle stays in [0, 4) |
| GameEngine.Jump | lib/game/GameEngine.ts:102-116 | a grounded, not yet jumping player holding a jump key gets vertical speed -15, is airborne and jumping, and five particles are added; otherwise nothing changes |
| GameEngine.TogglePause | lib/game/GameEngine.ts:118-121 | the pause flag flips exactly when escape is held |
| EngineProperties.InputFacts | lib/game/GameEngine.ts:87-122 | input handling, which may change the player's motion, the pause flag and the particles, keeps the enemies, platforms, power-ups, goal, camera, score, game-over and level flags, health, invincibility and power-up; it keeps the walk cycle in [0, 4) and only appends fresh particles |
| GameEngine.MovePlatform | lib/game/GameEngine.ts:138-146 | a moving platform sits at its level position plus range·sin(t·speed) on its axis; the other coordinate and everything else are kept |
| GameEngine.MovePlatformAsWritten | lib/game/GameEngine.ts:138-146 | the update the frame runs: on the moving axis (x for horizontal, y for vertical) the coordinate is set to range·sin(t·speed) itself, the other coordinate, the size, the type and the movement are kept, and a platform without movement is unchanged |
| EngineProperties.MovePlatformNearAnchor | lib/game/GameEngine.ts:138-146 | the anchored platform never strays further than its range from where the level placed it |
| EngineProperties.AsWrittenLeavesAnchor | lib/game/levels.ts:46-60 | as written, the second gap's platform (placed at y = 350, range 100) ends at y ≤ 100, at least 250 away from its place |
| GameEngine.PlatformPass | lib/game/GameEngine.ts:138-151 | every platform is moved by the as-written update (its coordinate becomes range·sin(t·speed)); only the platforms and the player change; the player is only pushed out (see PushPlayerOut) and is untouched when no moved platform overlaps them, and ends clear of the last platform |
| GameEngine.PushPlayerOut | lib/game/GameEngine.ts:148-150 | resolving the player against the platforms changes only the body's position and velocity and the grounded and jumping flags; each velocity component is kept or zeroed; a player is never made to jump; a newly grounded player is not jumping and not falling; nothing changes when no platform overlaps; the player ends clear of the last platform |
| GameEngine.PowerUpTurn | lib/game/GameEngine.ts:238-255 | the power-up bobs by 0.5·sin(now/200); touching it deactivates it, scores 500, grants `super` and appends exactly 15 particles; otherwise nothing but its position changes |
| GameEngine.PowerUpPass | lib/game/GameEngine.ts:238-255 | every power-up bobs, none is reactivated, the score never drops and only fresh particles are appended |
| GameEngine.PowerUpPassScore | lib/game/GameEngine.ts:241-243 | the loop's points are exactly 500 per power-up it deactivated |
| GameEngine.GoalCheck | lib/game/GameEngine.ts:259-274 | touching the goal completes the level and scores 1000; otherwise the score is unchanged |
| GameEngine.AgeParticle | lib/game/GameEngine.ts:276-283 | a particle is integrated, loses one frame of life and becomes inactive exactly when none is left |
| GameEngine.AgeParticles | lib/game/GameEngine.ts:276-283 | every particle is aged, in order |
| GameEngine.AgeParticlesConcat | lib/game/GameEngine.ts:276-283 | ageing distributes over concatenation |
| GameEngine.UpdateCamera | lib/game/GameEngine.ts:124-128 | the camera never goes left of 0; it closes 10% of the distance to the target, unless that point lies left of 0, in which case it stops at 0; from a non-negative position behind a non-negative target it stays between the two |
| EngineProperties.CameraEases | lib/game/GameEngine.ts:124-128 | behind a player at rest the camera's distance to its target shrinks by 0.9 each frame |
| EngineProperties.EasedIsPow | lib/game/GameEngine.ts:126 | n frames of easing scale the distance by 0.9ⁿ |
| GameEngine.FrameDelta | lib/game/GameEngine.ts:645 | the time scale is the elapsed time in 16.67 ms frames, capped at 2 and with no lower bound |
| GameEngine.UpdateGame | lib/game/GameEngine.ts:130-131 | a paused, lost or completed game is left untouched; otherwise the game is paused afterwards exactly when escape was held, and escape, and only escape, is removed from the held keys |
| EngineProperties.StageFacts | lib/game/GameEngine.ts:133-151 | the stages before the enemy loop leave enemies, power-ups, goal, camera, score and vitals alone |
| EngineProperties.LateStageFacts | lib/game/GameEngine.ts:236-291 | the final enemies and power-ups are the active ones; particles are aged and culled; falling below 676 ends the game; touching the goal completes the level |
| EngineProperties.InitialInv | lib/game/GameEngine.ts:34-68 | a fresh game on a well-formed level satisfies the state invariant |
| EngineProperties.AgeAndCullLive | lib/game/GameEngine.ts:276-285 | ageing and culling keeps only particles with life left |
| EngineProperties.FreshParticlesLive | lib/game/physics.ts:83-84 | appending fresh particles keeps every particle live |
| EngineProperties.EnemiesAfterFilterOk | lib/game/GameEngine.ts:236 | after the enemy loop and its filter every enemy is active with health left and a walk cycle in [0, 2) |
| EngineProperties.FramePreservesInv | lib/game/GameEngine.ts:130-292 | one frame keeps the invariant: only live enemies, power-ups and particles listed, score and camera non-negative, no health implies game over, walk cycle in range |
| EngineProperties.FrameVitals | lib/game/GameEngine.ts:187-233 | a frame costs at most one health point, none while invincible, and never lowers the score |
| EngineProperties.EnemyStageScore | lib/game/GameEngine.ts:153-234 | the enemy loop scores the kill values of the enemies it defeated and keeps every enemy's identity |
| EngineProperties.PowerUpStageScore | lib/game/GameEngine.ts:238-257 | the power-up loop scores 500 for each power-up the filter then removes |
| EngineProperties.GoalStageScore | lib/game/GameEngine.ts:259-274 | the goal check scores 1000 exactly when it completes the level |
| EngineProperties.FrameScore | lib/game/GameEngine.ts:130-292 | a frame's points are the kill values of the defeated enemies, 500 per power-up that disappeared and 1000 if the level was completed |
| EngineProperties.CullAppended | lib/game/GameEngine.ts:276-285 | ageing and culling a list extended by fresh particles gives the old particles aged and culled, followed by the fresh ones aged |
| EngineProperties.ParticleStages | lib/game/GameEngine.ts:108-285 | the bursts of a frame only append fresh particles, which are then all aged and culled |
| EngineProperties.FrameParticles | lib/game/GameEngine.ts:276-285 | after a frame the particles are the old ones aged and culled, followed by that frame's new ones aged once, none of which has expired |
| EngineProperties.ParticleLifetime | lib/game/GameEngine.ts:276-285 | a particle with L frames of life survives n frames exactly when n < L, with L − n frames left |
| EngineProperties.FrozenStep | lib/game/GameEngine.ts:118-131 | in a paused, lost or completed game no event except restart changes anything but the invincibility flag; escape cannot unpause |
| EngineProperties.FrozenUntilRestart | lib/game/GameEngine.ts:130-131 | the same holds for any sequence of events without a restart |
| EngineProperties.EventPreservesInv | components/Game.tsx:22-23 | frames, key changes, timer expiries and restarts to a well-formed level all keep the invariant |
| EngineProperties.ReachableInv | lib/game/GameEngine.ts:666-668 | every state reached from an invariant state by such events keeps the invariant |

## Left out

- Rendering, the background stars, the key listeners' DOM plumbing,
  `requestAnimationFrame`, `start` and `stop`: these are I/O. Held keys are
  a set in the engine value, and a `KeysChanged` event replaces it.
- `setTimeout` for invincibility is modelled as the `InvincibilityExpires`
  event. Nothing ties it to 2000 ms, because timers are outside the model.
- `Date.now()`, `Math.sin`, `Math.cos` and `Math.random` are parameters.
  - `Env.now` is one clock reading per frame. The source reads the clock
    again for every moving platform, every flying enemy and every power-up.
  - `sin` is uninterpreted. The only thing assumed about it is that it lies
    in [-1, 1], in the lemmas that say so.
  - The random samples of a burst come from `draw(i, count)`. Bursts of the
    same size within one frame therefore see the same samples.
- IEEE-754 rounding: coordinates are exact reals.
- Particle ids (`particle-<now>-<random>`) are not built from the clock. A
  particle's id is the `id` string of its random sample (`Draw.id`), and
  nothing reads it.
- `createLevel` (lib/game/levels.ts) is not part of this model. The level
  content is a parameter of `InitializeGame` and `Restart`, and the source
  always asks for level 1. The invariant lemmas assume the level's enemies
  are active with health and a walk cycle in [0, 2), and that its power-ups
  are active.
- `Player.score` stays 0, as in the source. Only the state's score changes.
- The time field (300) is never decremented by the source, and neither is it
  here.
- The source does not make game over and level completion exclusive. A frame
  can set both, and the model allows that too.
- GameEngine.CameraAfter, EngineProperties.AgeCullN: these iterate one
  operation with fixed inputs. A real run would also change the player's
  position and add new particles between frames.

The frame step keeps these behaviours of the code, which a reader might not
expect:
- the time scale is capped at 2 frames but has no lower bound;
- flying enemies get a vertical speed but are never integrated, so they do
  not move;
- a stopped enemy is always re-launched in the positive direction;
- escape cannot unpause the game, because `updateGame` returns before
  `handleInput` runs while paused;
- moving platforms are placed at `range * Math.sin(time * speed)` rather
  than around their level position (see Findings).

## Findings

| source | as written | input that shows it | evidently intended | confidence | as-written member | corrected member |
|---|---|---|---|---|---|---|
| lib/game/GameEngine.ts:141-145 | the moving axis coordinate is set to `range * Math.sin(time * speed)`, which is an offset with no anchor | the level's `moving-1` platform (lib/game/levels.ts:46-60) is placed at y = 350 with range 100; on its first frame it jumps to y ≤ 100, at least 250 above its gap | the platform oscillates within `range` of the position the level gave it | not executed | GameEngine.MovePlatformAsWritten (EngineProperties.AsWrittenLeavesAnchor) | GameEngine.MovePlatform (EngineProperties.MovePlatformNearAnchor) |

The corrected update records the level position as `Movement.origin`, which
the source's record does not have. The frame step `PlatformPass` runs the
as-written update, as the source does. The corrected `MovePlatform` is stated
and proved on its own, and no frame lemma depends on it.
