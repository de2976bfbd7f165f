/**
  The enemy loop of one frame (GameEngine.ts, `updateGame`): the per-kind
  motion, velocity recovery, patrol reversal and animation of each enemy, then
  the contact between the player and that enemy (spiky hit, stomp or side hit).
 */
module Enemies {
  import opened Types
  import opened Numbers
  import opened Physics
  import opened Environment

  const JumperImpulse: real := -10.0
  /** A jumper may jump once its timer exceeds this many frames. */
  const JumperPeriod: real := 60.0
  const SpikyKnockbackY: real := -8.0

  /** Re-launch speed for an enemy whose horizontal velocity is exactly zero. */
  function CruiseSpeed(t: EnemyType): real
  {
    if t == Flying then 1.5 else 1.0
  }

  /** Score for defeating an enemy by stomping it. */
  function KillValue(t: EnemyType): int
  {
    if t == Koopa then 200 else 100
  }

  predicate InsidePatrol(x: real, p: Patrol)
  {
    p.start < x < p.end
  }

  /** A jumper launches when its advanced timer exceeds the period while it
      is not moving vertically. */
  predicate JumpFires(e: Enemy, dt: real)
  {
    e.jumpTimer + dt > JumperPeriod && e.body.vel.y == 0.0
  }

  /** A jumper's body before integration: launched upwards when it jumps. */
  function Launched(e: Enemy, dt: real): Entity
  {
    if JumpFires(e, dt) then e.body.(vel := e.body.vel.(y := JumperImpulse)) else e.body
  }

  /** Resolve `b` against each platform in turn that it overlaps at that point. */
  function ResolveAgainst(b: Entity, ps: seq<Platform>): (r: Entity)
    ensures r.(pos := b.pos, vel := b.vel) == b
    ensures r.vel.x == b.vel.x || r.vel.x == 0.0
    ensures r.vel.y == b.vel.y || r.vel.y == 0.0
    ensures (forall j :: 0 <= j < |ps| ==> !CheckCollision(b, ps[j].body)) ==> r == b
    ensures |ps| > 0 ==> !CheckCollision(r, ps[|ps| - 1].body)
    decreases |ps|
  {
    if |ps| == 0 then b
    else
      var b1 := if CheckCollision(b, ps[0].body) then ResolveCollision(b, ps[0].body) else b;
      var r := ResolveAgainst(b1, ps[1..]);
      assert |ps| > 1 ==> ps[1..][|ps[1..]| - 1] == ps[|ps| - 1];
      assert (forall j :: 0 <= j < |ps| ==> !CheckCollision(b, ps[j].body)) ==>
        b1 == b && forall j :: 0 <= j < |ps[1..]| ==> !CheckCollision(b1, ps[1..][j].body);
      r
  }

  /** The kind-specific part of an enemy's frame: flying enemies only get a
      new vertical speed and are not integrated; jumpers advance their timer,
      maybe launch, are integrated and land on platforms; the other kinds are
      integrated only. */
  function Motion(e: Enemy, platforms: seq<Platform>, dt: real, env: Env): (r: Enemy)
    ensures r.(body := e.body, jumpTimer := e.jumpTimer) == e
    ensures r.body.(pos := e.body.pos, vel := e.body.vel) == e.body
    ensures e.enemyType == Flying ==>
      r.body.pos == e.body.pos && r.body.vel == Vec(e.body.vel.x, HoverSpeed(env)) && r.jumpTimer == e.jumpTimer
    ensures e.enemyType == Jumper ==>
      r.jumpTimer == (if JumpFires(e, dt) then 0.0 else e.jumpTimer + dt)
      && (platforms != [] ==> !CheckCollision(r.body, platforms[|platforms| - 1].body))
    // a jumper is integrated (after its launch), then only pushed out of platforms
    ensures e.enemyType == Jumper ==>
      var b := UpdatePhysics(Launched(e, dt), dt);
      && r.body.(pos := b.pos, vel := b.vel) == b
      && (r.body.vel.x == b.vel.x || r.body.vel.x == 0.0)
      && (r.body.vel.y == b.vel.y || r.body.vel.y == 0.0)
      && ((forall j :: 0 <= j < |platforms| ==> !CheckCollision(b, platforms[j].body)) ==> r.body == b)
    ensures e.enemyType == Jumper && JumpFires(e, dt) && e.body.kind == EnemyKind ==>
      r.body.vel.y == JumperImpulse + Gravity || r.body.vel.y == 0.0
    ensures e.enemyType in {Goomba, Koopa, Spiky} ==>
      r.body == UpdatePhysics(e.body, dt) && r.jumpTimer == e.jumpTimer
  {
    match e.enemyType
    case Flying => e.(body := e.body.(vel := Vec(e.body.vel.x, HoverSpeed(env))))
    case Jumper =>
      e.(body := ResolveAgainst(UpdatePhysics(Launched(e, dt), dt), platforms),
         jumpTimer := if JumpFires(e, dt) then 0.0 else e.jumpTimer + dt)
    case _ => e.(body := UpdatePhysics(e.body, dt))
  }

  /** A stopped enemy is re-launched, always in the positive direction. */
  function Recover(e: Enemy): Enemy
  {
    if e.body.vel.x == 0.0 then e.(body := e.body.(vel := e.body.vel.(x := CruiseSpeed(e.enemyType)))) else e
  }

  /** Reverse at or beyond either patrol bound. */
  function Turn(e: Enemy): Enemy
  {
    if InsidePatrol(e.body.pos.x, e.patrol) then e
    else e.(body := e.body.(vel := e.body.vel.(x := -e.body.vel.x)))
  }

  /** The whole per-enemy movement of one frame. */
  function MoveEnemy(e: Enemy, platforms: seq<Platform>, dt: real, env: Env): (r: Enemy)
    ensures r.enemyType == e.enemyType && r.health == e.health && r.patrol == e.patrol
    ensures r.body.(pos := e.body.pos, vel := e.body.vel) == e.body
    ensures var m := Motion(e, platforms, dt, env);
      && r.body.pos == m.body.pos && r.body.vel.y == m.body.vel.y && r.jumpTimer == m.jumpTimer
      && Abs(r.body.vel.x) == (if m.body.vel.x == 0.0 then CruiseSpeed(e.enemyType) else Abs(m.body.vel.x))
      && ((r.body.vel.x > 0.0) <==> ((m.body.vel.x >= 0.0) <==> InsidePatrol(m.body.pos.x, e.patrol)))
    ensures r.body.vel.x != 0.0
    ensures e.animationFrame + 0.2 >= 0.0 ==> 0.0 <= r.animationFrame < 2.0
  {
    var t := Turn(Recover(Motion(e, platforms, dt, env)));
    t.(animationFrame := JsRem(e.animationFrame + 0.2, 2.0))
  }

  /** For the kinds that are not resolved against platforms, the speed after
      a frame is fixed by the speed before it: friction for ground kinds, none
      for flying ones, and the cruise speed exactly when it was zero. */
  lemma SpeedAfterMove(e: Enemy, platforms: seq<Platform>, dt: real, env: Env)
    requires e.enemyType != Jumper && e.body.kind == EnemyKind
    ensures var r := MoveEnemy(e, platforms, dt, env);
      Abs(r.body.vel.x) ==
        if e.body.vel.x == 0.0 then CruiseSpeed(e.enemyType)
        else if e.enemyType == Flying then Abs(e.body.vel.x)
        else Abs(e.body.vel.x) * Friction
    ensures e.enemyType == Flying ==> MoveEnemy(e, platforms, dt, env).body.pos == e.body.pos
  {
    var m := Motion(e, platforms, dt, env);
    if e.enemyType != Flying {
      assert m.body.vel.x == e.body.vel.x * Friction;
    }
  }

  /** The three mutually exclusive outcomes of touching an enemy. */
  datatype Hit = SpikyHit | Stomp | SideHit

  function ClassifyHit(pl: Player, en: Enemy): Hit
  {
    if en.enemyType == Spiky then SpikyHit
    else if pl.body.vel.y > 0.0 && pl.body.pos.y < en.body.pos.y then Stomp
    else SideHit
  }

  /** Lose one health point and become invincible. */
  function Hurt(pl: Player): Player
  {
    pl.(health := pl.health - 1, invincible := true)
  }

  function Center(b: Entity): Vec
  {
    Vec(b.pos.x + b.size.x / 2.0, b.pos.y + b.size.y / 2.0)
  }

  /** The parts of the state the enemy loop never touches. */
  function Scene(s: GameState): (seq<Platform>, seq<Entity>, Option<Entity>, Vec, int, bool, bool, int)
  {
    (s.platforms, s.powerUps, s.goal, s.camera, s.level, s.levelComplete, s.paused, s.time)
  }

  predicate SameScene(s: GameState, r: GameState)
  {
    Scene(s) == Scene(r)
  }

  /** The player with the fields a contact may change blanked out. */
  function Traits(p: Player): Player
  {
    p.(health := 0, invincible := false, body := p.body.(vel := Vec(0.0, 0.0)))
  }

  predicate SamePlayerTraits(p: Player, q: Player)
  {
    Traits(p) == Traits(q)
  }

  /** `after` is `before` followed by particles fresh from a burst. */
  predicate AppendsFresh(before: seq<Particle>, after: seq<Particle>)
  {
    && |before| <= |after| && after[..|before|] == before
    && forall k :: |before| <= k < |after| ==> Fresh(after[k])
  }

  predicate Fresh(p: Particle)
  {
    p.body.active && p.body.kind == ParticleKind && p.lifespan == ParticleLife && p.maxLifespan == ParticleLife
  }

  /** Contact between the player and enemy `i`, which overlap. */
  function Contact(s: GameState, i: nat, env: Env): (r: GameState)
    requires i < |s.enemies|
    ensures SameScene(s, r) && SamePlayerTraits(s.player, r.player)
    ensures |r.enemies| == |s.enemies|
    ensures forall j :: 0 <= j < |s.enemies| && j != i ==> r.enemies[j] == s.enemies[j]
    ensures SameIdentity(s.enemies[i], r.enemies[i]) && (Healthy(s.enemies[i]) ==> Healthy(r.enemies[i]))
    ensures r.enemies[i].animationFrame == s.enemies[i].animationFrame
    ensures r.enemies[i].(health := s.enemies[i].health, body := r.enemies[i].body.(active := s.enemies[i].body.active)) == s.enemies[i]
    ensures AppendsFresh(s.particles, r.particles)
    // spiky: hurt with knock-back unless invincible; the enemy is never harmed
    ensures ClassifyHit(s.player, s.enemies[i]) == SpikyHit && !s.player.invincible ==>
      && r.player.health == s.player.health - 1 && r.player.invincible
      && r.player.body.vel == Vec(-2.0 * s.player.body.vel.x, SpikyKnockbackY)
      && r.gameOver == (s.gameOver || r.player.health <= 0)
      && r.enemies == s.enemies && r.score == s.score && r.particles == s.particles
    // stomp: the enemy loses a point and may die; the player bounces
    ensures ClassifyHit(s.player, s.enemies[i]) == Stomp ==>
      && r.enemies[i].health == s.enemies[i].health - 1
      && r.enemies[i].body.active == (s.enemies[i].body.active && r.enemies[i].health > 0)
      && r.enemies[i].(health := s.enemies[i].health, body := s.enemies[i].body) == s.enemies[i]
      && r.enemies[i].body.(active := s.enemies[i].body.active) == s.enemies[i].body
      && r.score == s.score + (if r.enemies[i].health <= 0 then KillValue(s.enemies[i].enemyType) else 0)
      && r.player.body.vel == Vec(s.player.body.vel.x, JumpForce / 2.0)
      && r.player.health == s.player.health && r.player.invincible == s.player.invincible
      && r.gameOver == s.gameOver && |r.particles| == |s.particles| + 10
    // side hit: hurt without knock-back unless invincible
    ensures ClassifyHit(s.player, s.enemies[i]) == SideHit && !s.player.invincible ==>
      && r.player.health == s.player.health - 1 && r.player.invincible
      && r.player.body.vel == s.player.body.vel
      && r.gameOver == (s.gameOver || r.player.health <= 0)
      && r.enemies == s.enemies && r.score == s.score && r.particles == s.particles
    // an invincible player is not affected by anything but a stomp
    ensures ClassifyHit(s.player, s.enemies[i]) != Stomp && s.player.invincible ==> r == s
  {
    match ClassifyHit(s.player, s.enemies[i])
    case SpikyHit => if s.player.invincible then s else SpikyContact(s)
    case Stomp => StompContact(s, i, env)
    case SideHit => if s.player.invincible then s else SideContact(s)
  }

  function SpikyContact(s: GameState): (r: GameState)
    ensures SameScene(s, r) && SamePlayerTraits(s.player, r.player)
    ensures r.player.health == s.player.health - 1 && r.player.invincible
    ensures r.player.body.vel == Vec(-2.0 * s.player.body.vel.x, SpikyKnockbackY)
    ensures r.gameOver == (s.gameOver || r.player.health <= 0)
    ensures r.enemies == s.enemies && r.score == s.score && r.particles == s.particles
  {
    var pl := s.player;
    var hurt := Hurt(pl).(body := pl.body.(vel := Vec(-pl.body.vel.x * 2.0, SpikyKnockbackY)));
    s.(player := hurt, gameOver := s.gameOver || hurt.health <= 0)
  }

  function SideContact(s: GameState): (r: GameState)
    ensures SameScene(s, r) && SamePlayerTraits(s.player, r.player)
    ensures r.player.health == s.player.health - 1 && r.player.invincible
    ensures r.player.body.vel == s.player.body.vel
    ensures r.gameOver == (s.gameOver || r.player.health <= 0)
    ensures r.enemies == s.enemies && r.score == s.score && r.particles == s.particles
  {
    var hurt := Hurt(s.player);
    s.(player := hurt, gameOver := s.gameOver || hurt.health <= 0)
  }

  function StompContact(s: GameState, i: nat, env: Env): (r: GameState)
    requires i < |s.enemies|
    ensures SameScene(s, r) && SamePlayerTraits(s.player, r.player)
    ensures |r.enemies| == |s.enemies|
    ensures forall j :: 0 <= j < |s.enemies| && j != i ==> r.enemies[j] == s.enemies[j]
    ensures AppendsFresh(s.particles, r.particles) && |r.particles| == |s.particles| + 10
    ensures r.enemies[i].health == s.enemies[i].health - 1
    ensures r.enemies[i].body.active == (s.enemies[i].body.active && r.enemies[i].health > 0)
    ensures r.enemies[i].(health := s.enemies[i].health, body := s.enemies[i].body) == s.enemies[i]
    ensures r.enemies[i].body.(active := s.enemies[i].body.active) == s.enemies[i].body
    ensures r.score == s.score + (if r.enemies[i].health <= 0 then KillValue(s.enemies[i].enemyType) else 0)
    ensures r.player.body.vel == Vec(s.player.body.vel.x, JumpForce / 2.0)
    ensures r.player.health == s.player.health && r.player.invincible == s.player.invincible
    ensures r.gameOver == s.gameOver
  {
    var pl := s.player;
    var en := s.enemies[i];
    var health := en.health - 1;
    var killed := health <= 0;
    var en' := en.(health := health, body := en.body.(active := if killed then false else en.body.active));
    var burst := ParticleBurst(Center(en'.body), 10, if killed then "#FF10F0" else "#FF6B6B", 4.0, env.draw);
    var r := s.(enemies := s.enemies[i := en'],
                score := s.score + (if killed then KillValue(en.enemyType) else 0),
                player := pl.(body := pl.body.(vel := pl.body.vel.(y := JumpForce / 2.0))),
                particles := s.particles + burst);
    assert r.particles[..|s.particles|] == s.particles;
    r
  }

  /** The fixed traits of an enemy, which no frame changes. */
  predicate SameIdentity(a: Enemy, b: Enemy)
  {
    && b.enemyType == a.enemyType && b.patrol == a.patrol
    && b.body.id == a.body.id && b.body.size == a.body.size
    && b.body.kind == a.body.kind && b.body.color == a.body.color
  }

  /** An active enemy has health left. */
  predicate Healthy(e: Enemy)
  {
    e.body.active ==> e.health >= 1
  }

  /** What a frame keeps of an enemy: its identity, its health invariant and
      the range of its walk cycle. */
  predicate EnemyKept(a: Enemy, b: Enemy)
  {
    && SameIdentity(a, b)
    && (Healthy(a) ==> Healthy(b))
    && (a.animationFrame + 0.2 >= 0.0 ==> 0.0 <= b.animationFrame < 2.0)
  }

  /** How the player's vitals may change between two states of the enemy
      loop: at most one health point lost, and then invincible; none lost
      while invincible; game over is sticky and follows from no health. */
  predicate VitalsStep(s: GameState, r: GameState)
  {
    && (r.player.health == s.player.health || (r.player.health == s.player.health - 1 && r.player.invincible))
    && (s.player.invincible ==> r.player.health == s.player.health && r.player.invincible)
    && (s.gameOver ==> r.gameOver)
    && ((s.player.health <= 0 ==> s.gameOver) ==> (r.player.health <= 0 ==> r.gameOver))
  }

  /** What the enemy loop may do to the whole state: keep the scene, the
      number of enemies and the player's traits, change the vitals only as
      `VitalsStep` allows, never lower the score, and only append fresh
      particles. */
  predicate LoopStep(s: GameState, r: GameState)
  {
    && SameScene(s, r) && SamePlayerTraits(s.player, r.player)
    && |r.enemies| == |s.enemies|
    && VitalsStep(s, r)
    && r.score >= s.score
    && AppendsFresh(s.particles, r.particles)
  }

  /** Enemy `i` of `r` is `m`, the enemy as moved, except for what a stomp
      changes (its health and whether it is active); and when `m` does not
      overlap the player, nothing touches the player, the score, the
      particles or the game-over flag. */
  predicate TurnMoves(s: GameState, r: GameState, i: nat, m: Enemy)
    requires i < |s.enemies| && i < |r.enemies|
  {
    && r.enemies[i].(health := m.health, body := r.enemies[i].body.(active := m.body.active)) == m
    && (!CheckCollision(s.player.body, m.body) ==>
          r.player == s.player && r.score == s.score && r.particles == s.particles && r.gameOver == s.gameOver)
  }

  /** Move enemy `i`, then let it touch the player if they overlap. */
  function EnemyTurn(s: GameState, i: nat, dt: real, env: Env): (r: GameState)
    requires i < |s.enemies|
    ensures LoopStep(s, r)
    ensures forall j :: 0 <= j < |s.enemies| && j != i ==> r.enemies[j] == s.enemies[j]
    ensures EnemyKept(s.enemies[i], r.enemies[i])
    ensures s.enemies[i].body.active ==>
      r.score == s.score + (if r.enemies[i].body.active then 0 else KillValue(s.enemies[i].enemyType))
    ensures TurnMoves(s, r, i, MoveEnemy(s.enemies[i], s.platforms, dt, env))
  {
    var m := MoveEnemy(s.enemies[i], s.platforms, dt, env);
    var s1 := s.(enemies := s.enemies[i := m]);
    assert EnemyKept(s.enemies[i], s1.enemies[i]);
    Touch(s1, i, env)
  }

  /** The second half of an enemy's turn: contact if enemy `i` overlaps the
      player, nothing otherwise. */
  function Touch(s: GameState, i: nat, env: Env): (r: GameState)
    requires i < |s.enemies|
    ensures LoopStep(s, r)
    ensures forall j :: 0 <= j < |s.enemies| && j != i ==> r.enemies[j] == s.enemies[j]
    ensures SameIdentity(s.enemies[i], r.enemies[i]) && (Healthy(s.enemies[i]) ==> Healthy(r.enemies[i]))
    ensures r.enemies[i].animationFrame == s.enemies[i].animationFrame
    ensures s.enemies[i].body.active ==>
      r.score == s.score + (if r.enemies[i].body.active then 0 else KillValue(s.enemies[i].enemyType))
    ensures TurnMoves(s, r, i, s.enemies[i])
  {
    if CheckCollision(s.player.body, s.enemies[i].body) then Contact(s, i, env) else s
  }

  /** The enemy loop from enemy `i` to the end of the list. */
  function EnemyPass(s: GameState, i: nat, dt: real, env: Env): (r: GameState)
    requires i <= |s.enemies|
    ensures LoopStep(s, r)
    ensures forall j :: 0 <= j < i ==> r.enemies[j] == s.enemies[j]
    ensures forall j :: i <= j < |s.enemies| ==> EnemyKept(s.enemies[j], r.enemies[j])
    decreases |s.enemies| - i
  {
    if i == |s.enemies| then s
    else
      var t := EnemyTurn(s, i, dt, env);
      var r := EnemyPass(t, i + 1, dt, env);
      PassStep(s, t, r, i);
      r
  }

  /** One turn followed by the rest of the loop composes as the loop's
      contract says. */
  lemma PassStep(s: GameState, t: GameState, r: GameState, i: nat)
    requires i < |s.enemies|
    requires LoopStep(s, t) && LoopStep(t, r)
    requires forall j :: 0 <= j < |s.enemies| && j != i ==> t.enemies[j] == s.enemies[j]
    requires EnemyKept(s.enemies[i], t.enemies[i])
    requires forall j :: 0 <= j < i + 1 ==> r.enemies[j] == t.enemies[j]
    requires forall j :: i + 1 <= j < |t.enemies| ==> EnemyKept(t.enemies[j], r.enemies[j])
    ensures LoopStep(s, r)
    ensures forall j :: 0 <= j < i ==> r.enemies[j] == s.enemies[j]
    ensures forall j :: i <= j < |s.enemies| ==> EnemyKept(s.enemies[j], r.enemies[j])
  {
    AppendsFreshTrans(s.particles, t.particles, r.particles);
  }

  lemma AppendsFreshTrans(a: seq<Particle>, b: seq<Particle>, c: seq<Particle>)
    requires AppendsFresh(a, b) && AppendsFresh(b, c)
    ensures AppendsFresh(a, c)
  {
    assert c[..|a|] == c[..|b|][..|a|];
  }

  /** The points of the enemies a frame defeated. */
  function KilledScore(es: seq<Enemy>): int
  {
    if |es| == 0 then 0
    else (if es[0].body.active then 0 else KillValue(es[0].enemyType)) + KilledScore(es[1..])
  }

  /** When every remaining enemy starts active, the enemy loop adds exactly
      the kill points of the enemies it deactivated: 100 each, 200 for a koopa. */
  lemma {:induction false} EnemyPassScore(s: GameState, i: nat, dt: real, env: Env)
    requires i <= |s.enemies|
    requires forall j :: i <= j < |s.enemies| ==> s.enemies[j].body.active
    ensures EnemyPass(s, i, dt, env).score == s.score + KilledScore(EnemyPass(s, i, dt, env).enemies[i..])
    decreases |s.enemies| - i
  {
    var r := EnemyPass(s, i, dt, env);
    if i < |s.enemies| {
      var t := EnemyTurn(s, i, dt, env);
      assert r == EnemyPass(t, i + 1, dt, env);
      EnemyPassScore(t, i + 1, dt, env);
      assert r.enemies[i] == t.enemies[i];
      assert r.enemies[i..][1..] == r.enemies[i + 1..];
      assert t.enemies[i].enemyType == s.enemies[i].enemyType;
    }
  }

  /** The whole enemy loop: with every enemy active at the start, the score
      grows by the kill points of the enemies it ended inactive, and the
      list keeps its length and every enemy's identity. */
  lemma WholePassScore(s: GameState, dt: real, env: Env)
    requires forall j :: 0 <= j < |s.enemies| ==> s.enemies[j].body.active
    ensures var r := EnemyPass(s, 0, dt, env);
      && r.score == s.score + KilledScore(r.enemies)
      && |r.enemies| == |s.enemies|
      && forall j :: 0 <= j < |s.enemies| ==> SameIdentity(s.enemies[j], r.enemies[j])
  {
    var r := EnemyPass(s, 0, dt, env);
    EnemyPassScore(s, 0, dt, env);
    assert r.enemies[0..] == r.enemies;
  }
}
