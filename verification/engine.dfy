/**
  The game engine's simulation (GameEngine.ts): initial state, input handling,
  the frame step `updateGame` as a pure function of the state, the held keys,
  the time scale and the environment samples, the camera, restart, and the
  events that reach the engine between frames.
 */
module GameEngine {
  import opened Types
  import opened Numbers
  import opened Seqs
  import opened Physics
  import opened Environment
  import opened Enemies

  /** The canvas the component creates (components/Game.tsx). */
  const CanvasWidth: real := 1024.0
  const CanvasHeight: real := 576.0
  /** Falling this far below the top of the canvas ends the game. */
  const FallLimit: real := CanvasHeight + 100.0
  const CameraEase: real := 0.1
  const PowerUpPoints: int := 500
  const GoalPoints: int := 1000
  const StartHealth: int := 3
  /** Length of a nominal 60 Hz frame in milliseconds, and the cap on the time scale. */
  const FrameMillis: real := 16.67
  const MaxDelta: real := 2.0

  /** The engine's simulation fields: the game state and the set of held keys
      (lower-cased key names, as the listeners record them). */
  datatype Engine = Engine(state: GameState, keys: set<string>)

  // ---------------------------------------------------------------- setup

  function InitialPlayer(): Player
  {
    Player(Entity("player", Vec(100.0, 300.0), Vec(0.0, 0.0), Vec(40.0, 40.0), PlayerKind, None, true),
           StartHealth, 0, false, false, Right, None, false, 0.0)
  }

  /** A fresh game on the given level content. */
  function InitializeGame(level: Level): (r: GameState)
    ensures r.player.health == StartHealth && r.score == 0 && r.player.score == 0
    ensures !r.gameOver && !r.levelComplete && !r.paused
    ensures !r.player.invincible && !r.player.isJumping && !r.player.isGrounded && r.player.powerUp == None
    ensures r.player.body.pos == Vec(100.0, 300.0) && r.player.body.vel == Vec(0.0, 0.0)
    ensures r.particles == [] && r.camera == Vec(0.0, 0.0) && r.level == 1 && r.time == 300
    ensures r.enemies == level.enemies && r.platforms == level.platforms
    ensures r.powerUps == level.powerUps && r.goal == level.goal
  {
    GameState(InitialPlayer(), level.enemies, level.platforms, level.powerUps, [], level.goal,
              Vec(0.0, 0.0), 1, false, false, false, 0, 300)
  }

  /** `restart` replaces the whole state; the held keys are the listeners' and survive. */
  function Restart(e: Engine, level: Level): (r: Engine)
    ensures r.state == InitializeGame(level) && r.keys == e.keys
  {
    e.(state := InitializeGame(level))
  }

  // ---------------------------------------------------------------- input

  predicate LeftHeld(keys: set<string>) { "arrowleft" in keys || "a" in keys }
  predicate RightHeld(keys: set<string>) { "arrowright" in keys || "d" in keys }
  predicate JumpHeld(keys: set<string>) { " " in keys || "arrowup" in keys || "w" in keys }

  /** Horizontal steering: left wins over right; no steering resets the walk cycle. */
  function Steer(p: Player, keys: set<string>): (r: Player)
    ensures LeftHeld(keys) ==> r.body.vel.x == -MoveSpeed && r.facing == Left
    ensures !LeftHeld(keys) && RightHeld(keys) ==> r.body.vel.x == MoveSpeed && r.facing == Right
    ensures !LeftHeld(keys) && !RightHeld(keys) ==>
      r.body.vel.x == p.body.vel.x && r.facing == p.facing && r.animationFrame == 0.0
    ensures p.animationFrame >= 0.0 ==> 0.0 <= r.animationFrame < 4.0
    ensures r.body.vel.y == p.body.vel.y
    ensures r.(body := p.body, facing := p.facing, animationFrame := p.animationFrame) == p
    ensures r.body.(vel := p.body.vel) == p.body
  {
    if LeftHeld(keys) then
      p.(body := p.body.(vel := p.body.vel.(x := -MoveSpeed)), facing := Left,
         animationFrame := JsRem(p.animationFrame + 0.3, 4.0))
    else if RightHeld(keys) then
      p.(body := p.body.(vel := p.body.vel.(x := MoveSpeed)), facing := Right,
         animationFrame := JsRem(p.animationFrame + 0.3, 4.0))
    else p.(animationFrame := 0.0)
  }

  predicate CanJump(p: Player, keys: set<string>)
  {
    JumpHeld(keys) && p.isGrounded && !p.isJumping
  }

  /** The jump impulse, with a small burst of dust under the player's feet. */
  function Jump(s: GameState, keys: set<string>, env: Env): (r: GameState)
    ensures CanJump(s.player, keys) ==>
      && r.player.body.vel == Vec(s.player.body.vel.x, JumpForce)
      && r.player.isJumping && !r.player.isGrounded
      && |r.particles| == |s.particles| + 5
    ensures !CanJump(s.player, keys) ==> r == s
    ensures r.(player := s.player, particles := s.particles) == s
    ensures r.player.(body := s.player.body, isJumping := s.player.isJumping, isGrounded := s.player.isGrounded) == s.player
    ensures r.player.body.(vel := s.player.body.vel) == s.player.body
    ensures AppendsFresh(s.particles, r.particles)
  {
    var p := s.player;
    if CanJump(p, keys) then
      var feet := Vec(p.body.pos.x + p.body.size.x / 2.0, p.body.pos.y + p.body.size.y);
      var r := s.(player := p.(body := p.body.(vel := p.body.vel.(y := JumpForce)), isJumping := true, isGrounded := false),
                  particles := s.particles + ParticleBurst(feet, 5, "#00FFF0", 2.0, env.draw));
      assert r.particles[..|s.particles|] == s.particles;
      r
    else s
  }

  /** Escape toggles the pause flag and is consumed from the key set. */
  function TogglePause(s: GameState, keys: set<string>): (r: GameState)
    ensures r.paused == (("escape" in keys) != s.paused)
    ensures r.(paused := s.paused) == s
  {
    if "escape" in keys then s.(paused := !s.paused) else s
  }

  /** `handleInput`: steering, jumping and the pause key, in this order. */
  function HandleInput(s: GameState, keys: set<string>, env: Env): GameState
  {
    TogglePause(Jump(s.(player := Steer(s.player, keys)), keys, env), keys)
  }

  // ---------------------------------------------------------------- platforms

  /** The anchored moving-platform update, the evidently intended one: the
      platform oscillates around the coordinate the level placed it at. The
      frame runs the as-written variant below. */
  function MovePlatform(p: Platform, env: Env): (r: Platform)
    ensures r.platformType == p.platformType && r.movement == p.movement
    ensures r.body.(pos := p.body.pos) == p.body
    ensures p.movement.None? ==> r == p
    ensures p.movement.Some? && p.movement.value.direction == Horizontal ==>
      r.body.pos.y == p.body.pos.y && r.body.pos.x - p.movement.value.origin == Oscillation(p.movement.value, env)
    ensures p.movement.Some? && p.movement.value.direction == Vertical ==>
      r.body.pos.x == p.body.pos.x && r.body.pos.y - p.movement.value.origin == Oscillation(p.movement.value, env)
  {
    match p.movement
    case None => p
    case Some(m) =>
      if m.direction == Horizontal then p.(body := p.body.(pos := p.body.pos.(x := m.origin + Oscillation(m, env))))
      else p.(body := p.body.(pos := p.body.pos.(y := m.origin + Oscillation(m, env))))
  }

  /** `t * speed` with `t` the clock in seconds. */
  function Phase(m: Movement, env: Env): real
  {
    env.now / 1000.0 * m.speed
  }

  /** `range * sin(t * speed)`. */
  function Oscillation(m: Movement, env: Env): real
  {
    m.range * Sin(env, Phase(m, env))
  }

  /** The moving-platform update as the source writes it: the oscillation is
      assigned to the coordinate itself, with no anchor. This is the update the
      frame runs. */
  function MovePlatformAsWritten(p: Platform, env: Env): (r: Platform)
    ensures r.platformType == p.platformType && r.movement == p.movement
    ensures r.body.(pos := p.body.pos) == p.body
    ensures p.movement.None? ==> r == p
    ensures p.movement.Some? && p.movement.value.direction == Horizontal ==>
      r.body.pos.x == Oscillation(p.movement.value, env) && r.body.pos.y == p.body.pos.y
    ensures p.movement.Some? && p.movement.value.direction == Vertical ==>
      r.body.pos.y == Oscillation(p.movement.value, env) && r.body.pos.x == p.body.pos.x
  {
    match p.movement
    case None => p
    case Some(m) =>
      if m.direction == Horizontal then p.(body := p.body.(pos := p.body.pos.(x := Oscillation(m, env))))
      else p.(body := p.body.(pos := p.body.pos.(y := Oscillation(m, env))))
  }

  /** The platform loop: move every platform, and resolve the player against
      each one it overlaps. */
  function PlatformPass(s: GameState, env: Env): (r: GameState)
    ensures |r.platforms| == |s.platforms|
    ensures forall j :: 0 <= j < |s.platforms| ==> r.platforms[j] == MovePlatformAsWritten(s.platforms[j], env)
    ensures r.(player := s.player, platforms := s.platforms) == s
    ensures PushedOut(s.player, r.player)
    ensures (forall j :: 0 <= j < |r.platforms| ==> !CheckCollision(s.player.body, r.platforms[j].body)) ==>
      r.player == s.player
    ensures |s.platforms| > 0 ==> !CheckCollision(r.player.body, r.platforms[|s.platforms| - 1].body)
  {
    var moved := MovePlatforms(s.platforms, env);
    s.(platforms := moved, player := PushPlayerOut(s.player, moved))
  }

  /** Every platform takes the as-written update; where a platform moves does
      not depend on the player, so the source's interleaving of moving and
      resolving is the same as moving all platforms first. */
  function MovePlatforms(ps: seq<Platform>, env: Env): (qs: seq<Platform>)
    ensures |qs| == |ps|
    ensures forall j :: 0 <= j < |ps| ==> qs[j] == MovePlatformAsWritten(ps[j], env)
  {
    seq(|ps|, j requires 0 <= j < |ps| => MovePlatformAsWritten(ps[j], env))
  }

  /** Resolve the player against each of the (already moved) platforms in
      turn, wherever they overlap. */
  function PushPlayerOut(pl: Player, ps: seq<Platform>): (r: Player)
    ensures PushedOut(pl, r)
    ensures (forall j :: 0 <= j < |ps| ==> !CheckCollision(pl.body, ps[j].body)) ==> r == pl
    ensures |ps| > 0 ==> !CheckCollision(r.body, ps[|ps| - 1].body)
    decreases |ps|
  {
    if |ps| == 0 then pl
    else
      var p1 := if CheckCollision(pl.body, ps[0].body) then ResolvePlayer(pl, ps[0].body) else pl;
      var r := PushPlayerOut(p1, ps[1..]);
      PushedOutTrans(pl, p1, r);
      assert |ps| > 1 ==> ps[1..][|ps[1..]| - 1] == ps[|ps| - 1];
      assert (forall j :: 0 <= j < |ps| ==> !CheckCollision(pl.body, ps[j].body)) ==>
        p1 == pl && forall j :: 0 <= j < |ps[1..]| ==> !CheckCollision(p1.body, ps[1..][j].body);
      r
  }

  /** What pushing the player out of platforms can do: move the body and
      zero velocity components, and ground the player on a landing, which
      also ends the jump and the fall. Nothing else about the player changes. */
  predicate PushedOut(a: Player, b: Player)
  {
    && b.(body := a.body, isGrounded := a.isGrounded, isJumping := a.isJumping) == a
    && b.body.(pos := a.body.pos, vel := a.body.vel) == a.body
    && (b.body.vel.x == a.body.vel.x || b.body.vel.x == 0.0)
    && (b.body.vel.y == a.body.vel.y || b.body.vel.y == 0.0)
    && (b.isJumping ==> a.isJumping)
    && (b.isGrounded && !a.isGrounded ==> !b.isJumping && b.body.vel.y == 0.0)
  }

  lemma PushedOutTrans(a: Player, b: Player, c: Player)
    requires PushedOut(a, b) && PushedOut(b, c)
    ensures PushedOut(a, c)
  {
  }

  // ---------------------------------------------------------------- power-ups and goal

  function ItemActive(e: Entity): bool { e.active }

  function Bobbed(e: Entity, env: Env): Entity
  {
    e.(pos := e.pos.(y := e.pos.y + Bob(env)))
  }

  /** Bob power-up `i`, and collect it if the player touches it: it goes
      inactive, scores 500, grants the `super` power-up and bursts. */
  function PowerUpTurn(s: GameState, i: nat, env: Env): (r: GameState)
    requires i < |s.powerUps|
    ensures |r.powerUps| == |s.powerUps|
    ensures forall j :: 0 <= j < |s.powerUps| && j != i ==> r.powerUps[j] == s.powerUps[j]
    ensures r.powerUps[i].(active := s.powerUps[i].active) == Bobbed(s.powerUps[i], env)
    ensures r.powerUps[i].active == (s.powerUps[i].active && !CheckCollision(s.player.body, Bobbed(s.powerUps[i], env)))
    ensures CheckCollision(s.player.body, Bobbed(s.powerUps[i], env)) ==>
      r.score == s.score + PowerUpPoints && r.player.powerUp == Some(Super)
      && |r.particles| == |s.particles| + 15
    ensures !CheckCollision(s.player.body, Bobbed(s.powerUps[i], env)) ==>
      r.score == s.score && r.player == s.player && r.particles == s.particles
    ensures r.(player := s.player, powerUps := s.powerUps, score := s.score, particles := s.particles) == s
    ensures r.player.(powerUp := s.player.powerUp) == s.player
    ensures AppendsFresh(s.particles, r.particles)
  {
    var b := Bobbed(s.powerUps[i], env);
    if CheckCollision(s.player.body, b) then
      var r := s.(powerUps := s.powerUps[i := b.(active := false)],
                  score := s.score + PowerUpPoints,
                  player := s.player.(powerUp := Some(Super)),
                  particles := s.particles + ParticleBurst(Center(b), 15, "#39FF14", 6.0, env.draw));
      assert r.particles[..|s.particles|] == s.particles;
      r
    else s.(powerUps := s.powerUps[i := b])
  }

  /** Power-up `b` is `a` bobbed for this frame, and it is active only if
      `a` was. */
  predicate PowerUpMoved(a: Entity, b: Entity, env: Env)
  {
    b.(active := a.active) == Bobbed(a, env) && (b.active ==> a.active)
  }

  /** Collecting power-ups changes only the power-up list, the score (never
      downwards), the particles (by appending) and the player's power-up
      (to `super`). */
  predicate PickupStep(s: GameState, r: GameState)
  {
    && r.(player := s.player, powerUps := s.powerUps, score := s.score, particles := s.particles) == s
    && r.player.(powerUp := s.player.powerUp) == s.player
    && (r.player.powerUp == s.player.powerUp || r.player.powerUp == Some(Super))
    && r.score >= s.score
    && AppendsFresh(s.particles, r.particles)
  }

  /** The power-up loop from power-up `i` to the end of the list. */
  function PowerUpPass(s: GameState, i: nat, env: Env): (r: GameState)
    requires i <= |s.powerUps|
    ensures |r.powerUps| == |s.powerUps|
    ensures forall j :: 0 <= j < i ==> r.powerUps[j] == s.powerUps[j]
    ensures forall j :: i <= j < |s.powerUps| ==> PowerUpMoved(s.powerUps[j], r.powerUps[j], env)
    ensures PickupStep(s, r)
    decreases |s.powerUps| - i
  {
    if i == |s.powerUps| then s
    else
      var t := PowerUpTurn(s, i, env);
      var r := PowerUpPass(t, i + 1, env);
      PickupPassStep(s, t, r, i, env);
      r
  }

  /** One power-up turn followed by the rest of the loop composes as the
      loop's contract says. */
  lemma PickupPassStep(s: GameState, t: GameState, r: GameState, i: nat, env: Env)
    requires i < |s.powerUps| == |t.powerUps| == |r.powerUps|
    requires forall j :: 0 <= j < |s.powerUps| && j != i ==> t.powerUps[j] == s.powerUps[j]
    requires PowerUpMoved(s.powerUps[i], t.powerUps[i], env) && PickupStep(s, t)
    requires forall j :: 0 <= j < i + 1 ==> r.powerUps[j] == t.powerUps[j]
    requires forall j :: i + 1 <= j < |t.powerUps| ==> PowerUpMoved(t.powerUps[j], r.powerUps[j], env)
    requires PickupStep(t, r)
    ensures forall j :: 0 <= j < i ==> r.powerUps[j] == s.powerUps[j]
    ensures forall j :: i <= j < |s.powerUps| ==> PowerUpMoved(s.powerUps[j], r.powerUps[j], env)
    ensures PickupStep(s, r)
  {
    AppendsFreshTrans(s.particles, t.particles, r.particles);
  }

  /** The number of power-ups a pass deactivated. */
  function Collected(ps: seq<Entity>): nat
  {
    Dropped(ps, ItemActive)
  }

  /** When every remaining power-up starts active, the pass scores exactly
      500 per power-up it collected. */
  lemma {:induction false} PowerUpPassScore(s: GameState, i: nat, env: Env)
    requires i <= |s.powerUps|
    requires forall j :: i <= j < |s.powerUps| ==> s.powerUps[j].active
    ensures PowerUpPass(s, i, env).score == s.score + PowerUpPoints * Collected(PowerUpPass(s, i, env).powerUps[i..])
    decreases |s.powerUps| - i
  {
    var r := PowerUpPass(s, i, env);
    if i < |s.powerUps| {
      var t := PowerUpTurn(s, i, env);
      assert r == PowerUpPass(t, i + 1, env);
      PowerUpPassScore(t, i + 1, env);
      assert r.powerUps[i] == t.powerUps[i];
      assert r.powerUps[i..][1..] == r.powerUps[i + 1..];
    }
  }

  predicate GoalReached(s: GameState)
  {
    s.goal.Some? && CheckCollision(s.player.body, s.goal.value)
  }

  /** Touching the goal completes the level and is worth 1000 points. */
  function GoalCheck(s: GameState, env: Env): (r: GameState)
    ensures r.levelComplete == (s.levelComplete || GoalReached(s))
    ensures r.score == s.score + (if GoalReached(s) then GoalPoints else 0)
    ensures AppendsFresh(s.particles, r.particles)
    ensures r.(levelComplete := s.levelComplete, score := s.score, particles := s.particles) == s
  {
    if GoalReached(s) then
      var g := s.goal.value;
      var r := s.(levelComplete := true, score := s.score + GoalPoints,
                  particles := s.particles + ParticleBurst(Center(g), 30, "#FFD700", 8.0, env.draw));
      assert r.particles[..|s.particles|] == s.particles;
      r
    else s
  }

  // ---------------------------------------------------------------- particles

  function ParticleActive(p: Particle): bool { p.body.active }

  /** One frame of a particle: integrate, count down, and switch off at zero. */
  function AgeParticle(p: Particle, dt: real): (r: Particle)
    ensures r.lifespan == p.lifespan - 1
    ensures r.body.active == (p.body.active && r.lifespan >= 1)
    ensures r.(body := p.body, lifespan := p.lifespan) == p
    ensures r.body.(active := p.body.active) == UpdatePhysics(p.body, dt)
  {
    var b := UpdatePhysics(p.body, dt);
    var l := p.lifespan - 1;
    p.(body := b.(active := if l <= 0 then false else b.active), lifespan := l)
  }

  function AgeParticles(ps: seq<Particle>, dt: real): (r: seq<Particle>)
    ensures |r| == |ps| && forall k :: 0 <= k < |ps| ==> r[k] == AgeParticle(ps[k], dt)
  {
    seq(|ps|, k requires 0 <= k < |ps| => AgeParticle(ps[k], dt))
  }

  lemma AgeParticlesConcat(a: seq<Particle>, b: seq<Particle>, dt: real)
    ensures AgeParticles(a + b, dt) == AgeParticles(a, dt) + AgeParticles(b, dt)
  {
  }

  /** Age every particle, then drop those that ran out. */
  function AgeAndCull(ps: seq<Particle>, dt: real): seq<Particle>
  {
    Filter(AgeParticles(ps, dt), ParticleActive)
  }

  // ---------------------------------------------------------------- camera and clock

  /** Ease the camera 10% of the way towards centring the player, never left of 0. */
  function UpdateCamera(camera: Vec, playerX: real): (r: Vec)
    ensures r.x >= 0.0 && r.y == camera.y
    ensures var target := playerX - CanvasWidth / 2.0;
      r.x == 0.0 || r.x - target == (1.0 - CameraEase) * (camera.x - target)
    ensures var target := playerX - CanvasWidth / 2.0;
      r.x == 0.0 ==> target + (1.0 - CameraEase) * (camera.x - target) <= 0.0
    ensures var target := playerX - CanvasWidth / 2.0;
      camera.x >= 0.0 && target >= 0.0 ==>
        Min(camera.x, target) <= r.x <= Max(camera.x, target)
        && Abs(r.x - target) == (1.0 - CameraEase) * Abs(camera.x - target)
  {
    var target := playerX - CanvasWidth / 2.0;
    Vec(Max(0.0, camera.x + (target - camera.x) * CameraEase), camera.y)
  }

  /** The camera after `n` frames following a player who stands still at `playerX`. */
  function CameraAfter(camera: Vec, playerX: real, n: nat): Vec
  {
    if n == 0 then camera else UpdateCamera(CameraAfter(camera, playerX, n - 1), playerX)
  }

  /** The frame loop's time scale: elapsed milliseconds in 60 Hz frames,
      capped at two frames. */
  function FrameDelta(currentTime: real, lastTime: real): (r: real)
    ensures r <= MaxDelta
    ensures currentTime - lastTime <= MaxDelta * FrameMillis ==> r * FrameMillis == currentTime - lastTime
    ensures currentTime - lastTime >= MaxDelta * FrameMillis ==> r == MaxDelta
  {
    Min((currentTime - lastTime) / FrameMillis, MaxDelta)
  }

  // ---------------------------------------------------------------- the frame

  function EnemyActive(e: Enemy): bool { e.body.active }

  /** No simulation happens while paused or after the game ended. */
  predicate Frozen(s: GameState)
  {
    s.paused || s.gameOver || s.levelComplete
  }

  /** The stages of one unfrozen frame, in the order `updateGame` runs them. */
  datatype Stages = Stages(
    input: GameState,      // after handleInput
    physics: GameState,    // after the player's grounded reset and integration
    platforms: GameState,  // after the platform loop
    enemies: GameState,    // after the enemy loop, before filtering
    powerUps: GameState,   // after filtering enemies and the power-up loop, before filtering
    goal: GameState,       // after filtering power-ups and the goal check
    particles: GameState,  // after ageing and filtering particles
    fall: GameState,       // after the fall-out-of-world check
    camera: GameState)     // after the camera update

  function RunStages(s: GameState, keys: set<string>, dt: real, env: Env): Stages
  {
    var input := HandleInput(s, keys, env);
    var physics := input.(player := input.player.(isGrounded := false,
                                                  body := UpdatePhysics(input.player.body, dt)));
    var platforms := PlatformPass(physics, env);
    var enemies := EnemyPass(platforms, 0, dt, env);
    var powerUps := PowerUpPass(enemies.(enemies := Filter(enemies.enemies, EnemyActive)), 0, env);
    var goal := GoalCheck(powerUps.(powerUps := Filter(powerUps.powerUps, ItemActive)), env);
    var particles := goal.(particles := AgeAndCull(goal.particles, dt));
    var fall := if particles.player.body.pos.y > FallLimit then particles.(gameOver := true) else particles;
    var camera := fall.(camera := UpdateCamera(fall.camera, fall.player.body.pos.x));
    Stages(input, physics, platforms, enemies, powerUps, goal, particles, fall, camera)
  }

  /** `updateGame`: the identity on a frozen state, otherwise every stage in turn. */
  function UpdateGame(e: Engine, dt: real, env: Env): (r: Engine)
    ensures Frozen(e.state) ==> r == e
    ensures r.state.paused == (e.state.paused || (!Frozen(e.state) && "escape" in e.keys))
    ensures r.keys <= e.keys
    ensures !Frozen(e.state) ==> r.keys == e.keys - {"escape"}
  {
    if Frozen(e.state) then e
    else Engine(RunStages(e.state, e.keys, dt, env).camera, e.keys - {"escape"})
  }

  // ---------------------------------------------------------------- events

  /** What can happen to the engine: a frame, a change of the held keys (the
      listeners), the expiry of an invincibility timer, and the restart key. */
  datatype Event =
    | Tick(dt: real, env: Env)
    | KeysChanged(keys: set<string>)
    | InvincibilityExpires
    | RestartPressed(level: Level)

  function Apply(e: Engine, ev: Event): Engine
  {
    match ev
    case Tick(dt, env) => UpdateGame(e, dt, env)
    case KeysChanged(keys) => e.(keys := keys)
    case InvincibilityExpires => e.(state := e.state.(player := e.state.player.(invincible := false)))
    case RestartPressed(level) => Restart(e, level)
  }

  /** A sequence of events applied in order. */
  function ApplyAll(e: Engine, evs: seq<Event>): Engine
    decreases |evs|
  {
    if |evs| == 0 then e else ApplyAll(Apply(e, evs[0]), evs[1..])
  }
}
