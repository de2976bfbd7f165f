/**
  Properties of whole frames and of the engine's event sequence: the state
  invariant every reachable state keeps, how a frame may change health and
  score, what becomes of particles, and which events can leave a frozen state.
 */
module EngineProperties {
  import opened Types
  import opened Numbers
  import opened Seqs
  import opened Physics
  import opened Environment
  import opened Enemies
  import opened GameEngine

  // ---------------------------------------------------------------- per-stage facts

  /** What `handleInput` leaves alone. */
  lemma InputFacts(s: GameState, keys: set<string>, env: Env)
    ensures var r := HandleInput(s, keys, env);
      && r.enemies == s.enemies && r.platforms == s.platforms && r.powerUps == s.powerUps
      && r.goal == s.goal && r.camera == s.camera && r.score == s.score
      && r.gameOver == s.gameOver && r.levelComplete == s.levelComplete
      && r.player.health == s.player.health && r.player.invincible == s.player.invincible
      && r.player.powerUp == s.player.powerUp
      && (s.player.animationFrame >= 0.0 ==> 0.0 <= r.player.animationFrame < 4.0)
      && AppendsFresh(s.particles, r.particles)
  {
    var steered := s.(player := Steer(s.player, keys));
    var jumped := Jump(steered, keys, env);
    assert jumped.player.animationFrame == steered.player.animationFrame;
  }

  /** The per-stage facts of one unfrozen frame that the frame lemmas combine. */
  lemma StageFacts(s: GameState, keys: set<string>, dt: real, env: Env)
    ensures var st := RunStages(s, keys, dt, env);
      // stages before the enemy loop do not touch enemies, power-ups, score or vitals
      && st.platforms.enemies == s.enemies && st.platforms.powerUps == s.powerUps
      && st.platforms.goal == s.goal && st.platforms.camera == s.camera
      && st.platforms.score == s.score && st.platforms.gameOver == s.gameOver
      && st.platforms.levelComplete == s.levelComplete
      && st.platforms.player.health == s.player.health
      && st.platforms.player.invincible == s.player.invincible
      && (s.player.animationFrame >= 0.0 ==> 0.0 <= st.platforms.player.animationFrame < 4.0)
      && AppendsFresh(s.particles, st.platforms.particles)
  {
    InputFacts(s, keys, env);
  }

  // ---------------------------------------------------------------- the invariant

  predicate Live(p: Particle)
  {
    p.body.active && 1 <= p.lifespan <= p.maxLifespan
  }

  predicate EnemyOk(e: Enemy)
  {
    e.body.active && e.health >= 1 && 0.0 <= e.animationFrame < 2.0
  }

  predicate EnemiesOk(es: seq<Enemy>)
  {
    forall j :: 0 <= j < |es| ==> EnemyOk(es[j])
  }

  /** What holds of every state the engine can reach: the lists hold only
      live entities, the score and the camera are never negative, no health
      left means game over, and the walk cycles stay in range. */
  predicate Inv(s: GameState)
  {
    && EnemiesOk(s.enemies)
    && (forall j :: 0 <= j < |s.powerUps| ==> s.powerUps[j].active)
    && (forall j :: 0 <= j < |s.particles| ==> Live(s.particles[j]))
    && s.score >= 0
    && s.camera.x >= 0.0
    && (s.player.health <= 0 ==> s.gameOver)
    && 0.0 <= s.player.animationFrame < 4.0
  }

  /** Level content the level generator produces: every enemy alive with
      health, every power-up present. */
  predicate WellformedLevel(level: Level)
  {
    && EnemiesOk(level.enemies)
    && (forall j :: 0 <= j < |level.powerUps| ==> level.powerUps[j].active)
  }

  lemma InitialInv(level: Level)
    requires WellformedLevel(level)
    ensures Inv(InitializeGame(level))
  {
  }

  /** Particles that were live stay live or are dropped. */
  lemma AgeAndCullLive(ps: seq<Particle>, dt: real)
    requires forall k :: 0 <= k < |ps| ==> Live(ps[k])
    ensures var r := AgeAndCull(ps, dt);
      forall k :: 0 <= k < |r| ==> Live(r[k])
  {
    var aged := AgeParticles(ps, dt);
    var r := AgeAndCull(ps, dt);
    forall k | 0 <= k < |r|
      ensures Live(r[k])
    {
      assert r[k] in aged;
      var j :| 0 <= j < |aged| && aged[j] == r[k];
      assert aged[j] == AgeParticle(ps[j], dt);
    }
  }

  lemma FreshParticlesLive(before: seq<Particle>, after: seq<Particle>)
    requires forall k :: 0 <= k < |before| ==> Live(before[k])
    requires AppendsFresh(before, after)
    ensures forall k :: 0 <= k < |after| ==> Live(after[k])
  {
    forall k | 0 <= k < |after|
      ensures Live(after[k])
    {
      if k < |before| {
        assert after[k] == after[..|before|][k];
      }
    }
  }

  /** Surviving enemies after the enemy loop and its filter. */
  lemma EnemiesAfterFilterOk(s: GameState, dt: real, env: Env)
    requires EnemiesOk(s.enemies)
    ensures EnemiesOk(Filter(EnemyPass(s, 0, dt, env).enemies, EnemyActive))
  {
    var pre := EnemyPass(s, 0, dt, env).enemies;
    var f := Filter(pre, EnemyActive);
    forall j | 0 <= j < |f|
      ensures EnemyOk(f[j])
    {
      assert f[j] in pre;
      var k :| 0 <= k < |pre| && pre[k] == f[j];
      assert Healthy(s.enemies[k]);
    }
  }

  /** The later stages leave the enemy list, the player and the flags as
      the enemy loop and the filters made them. */
  lemma LateStageFacts(s: GameState, keys: set<string>, dt: real, env: Env)
    ensures var st := RunStages(s, keys, dt, env);
      && st.camera.enemies == Filter(st.enemies.enemies, EnemyActive)
      && st.camera.powerUps == Filter(st.powerUps.powerUps, ItemActive)
      && st.camera.particles == AgeAndCull(st.goal.particles, dt)
      && st.camera.player == st.enemies.player.(powerUp := st.powerUps.player.powerUp)
      && st.camera.score == st.goal.score
      && st.camera.gameOver == (st.enemies.gameOver || st.camera.player.body.pos.y > FallLimit)
      && st.camera.levelComplete == st.goal.levelComplete
      && st.camera.paused == st.input.paused
      && st.camera.camera.x >= 0.0
      && st.powerUps.score >= st.enemies.score && st.goal.score >= st.powerUps.score
      && st.goal.levelComplete == (st.enemies.levelComplete || GoalReached(st.powerUps))
      && AppendsFresh(st.enemies.particles, st.powerUps.particles)
      && AppendsFresh(st.powerUps.particles, st.goal.particles)
  {
    LateLists(s, keys, dt, env);
    LateFlags(s, keys, dt, env);
  }

  lemma LateLists(s: GameState, keys: set<string>, dt: real, env: Env)
    ensures var st := RunStages(s, keys, dt, env);
      && st.camera.enemies == Filter(st.enemies.enemies, EnemyActive)
      && st.camera.powerUps == Filter(st.powerUps.powerUps, ItemActive)
      && st.camera.particles == AgeAndCull(st.goal.particles, dt)
      && AppendsFresh(st.enemies.particles, st.powerUps.particles)
      && AppendsFresh(st.powerUps.particles, st.goal.particles)
  {
  }

  lemma LateFlags(s: GameState, keys: set<string>, dt: real, env: Env)
    ensures var st := RunStages(s, keys, dt, env);
      && st.camera.player == st.enemies.player.(powerUp := st.powerUps.player.powerUp)
      && st.camera.score == st.goal.score
      && st.camera.gameOver == (st.enemies.gameOver || st.camera.player.body.pos.y > FallLimit)
      && st.camera.levelComplete == st.goal.levelComplete
      && st.camera.paused == st.input.paused
      && st.camera.camera.x >= 0.0
      && st.powerUps.score >= st.enemies.score && st.goal.score >= st.powerUps.score
      && st.goal.levelComplete == (st.enemies.levelComplete || GoalReached(st.powerUps))
  {
  }

  /** One frame keeps the invariant. */
  lemma FramePreservesInv(e: Engine, dt: real, env: Env)
    requires Inv(e.state)
    ensures Inv(UpdateGame(e, dt, env).state)
  {
    var s := e.state;
    if !Frozen(s) {
      FrameListsLive(e, dt, env);
      StageFacts(s, e.keys, dt, env);
      LateStageFacts(s, e.keys, dt, env);
    }
  }

  /** After an unfrozen frame the enemy, power-up and particle lists hold
      only live entries. */
  lemma FrameListsLive(e: Engine, dt: real, env: Env)
    requires Inv(e.state) && !Frozen(e.state)
    ensures var r := UpdateGame(e, dt, env).state;
      && EnemiesOk(r.enemies)
      && (forall j :: 0 <= j < |r.powerUps| ==> r.powerUps[j].active)
      && (forall j :: 0 <= j < |r.particles| ==> Live(r.particles[j]))
  {
    FrameEnemiesOk(e, dt, env);
    FrameParticlesLive(e, dt, env);
    LateStageFacts(e.state, e.keys, dt, env);
  }

  lemma FrameEnemiesOk(e: Engine, dt: real, env: Env)
    requires Inv(e.state) && !Frozen(e.state)
    ensures EnemiesOk(UpdateGame(e, dt, env).state.enemies)
  {
    var s := e.state;
    var st := RunStages(s, e.keys, dt, env);
    InputFacts(s, e.keys, env);
    assert st.platforms.enemies == s.enemies;
    EnemiesAfterFilterOk(st.platforms, dt, env);
    assert UpdateGame(e, dt, env).state.enemies == Filter(st.enemies.enemies, EnemyActive);
  }

  lemma FrameParticlesLive(e: Engine, dt: real, env: Env)
    requires Inv(e.state) && !Frozen(e.state)
    ensures var r := UpdateGame(e, dt, env).state;
      forall j :: 0 <= j < |r.particles| ==> Live(r.particles[j])
  {
    var s := e.state;
    var st := RunStages(s, e.keys, dt, env);
    StageFacts(s, e.keys, dt, env);
    LateStageFacts(s, e.keys, dt, env);
    AppendsFreshTrans(s.particles, st.platforms.particles, st.enemies.particles);
    AppendsFreshTrans(s.particles, st.enemies.particles, st.powerUps.particles);
    AppendsFreshTrans(s.particles, st.powerUps.particles, st.goal.particles);
    FreshParticlesLive(s.particles, st.goal.particles);
    AgeAndCullLive(st.goal.particles, dt);
  }

  // ---------------------------------------------------------------- health and score

  /** A frame costs the player at most one health point, and none while
      invincible; the score never decreases. */
  lemma FrameVitals(e: Engine, dt: real, env: Env)
    ensures var r := UpdateGame(e, dt, env).state;
      && (r.player.health == e.state.player.health
          || (r.player.health == e.state.player.health - 1 && r.player.invincible))
      && (e.state.player.invincible ==> r.player.health == e.state.player.health)
      && r.score >= e.state.score
  {
    var s := e.state;
    if !Frozen(s) {
      StageFacts(s, e.keys, dt, env);
      LateStageFacts(s, e.keys, dt, env);
    }
  }

  /** The enemy loop scores exactly the kill values of the enemies it defeated. */
  lemma EnemyStageScore(s: GameState, keys: set<string>, dt: real, env: Env)
    requires forall j :: 0 <= j < |s.enemies| ==> s.enemies[j].body.active
    ensures var st := RunStages(s, keys, dt, env);
      st.enemies.score == s.score + KilledScore(st.enemies.enemies)
      && |st.enemies.enemies| == |s.enemies|
      && forall j :: 0 <= j < |s.enemies| ==> SameIdentity(s.enemies[j], st.enemies.enemies[j])
  {
    var st := RunStages(s, keys, dt, env);
    InputFacts(s, keys, env);
    assert st.platforms.enemies == s.enemies && st.platforms.score == s.score;
    WholePassScore(st.platforms, dt, env);
  }

  /** The power-up loop scores 500 for each power-up it deactivated. */
  lemma PowerUpStageScore(s: GameState, keys: set<string>, dt: real, env: Env)
    requires forall j :: 0 <= j < |s.powerUps| ==> s.powerUps[j].active
    ensures var st := RunStages(s, keys, dt, env);
      st.powerUps.score == st.enemies.score
        + PowerUpPoints * (|s.powerUps| - |Filter(st.powerUps.powerUps, ItemActive)|)
  {
    var st := RunStages(s, keys, dt, env);
    StageFacts(s, keys, dt, env);
    var filtered := st.enemies.(enemies := Filter(st.enemies.enemies, EnemyActive));
    assert st.powerUps == PowerUpPass(filtered, 0, env);
    PowerUpPassScore(filtered, 0, env);
    assert st.powerUps.powerUps[0..] == st.powerUps.powerUps;
    FilterLength(st.powerUps.powerUps, ItemActive);
  }

  /** The goal check scores 1000 exactly when it completes the level. */
  lemma GoalStageScore(s: GameState, keys: set<string>, dt: real, env: Env)
    requires !s.levelComplete
    ensures var st := RunStages(s, keys, dt, env);
      st.goal.score == st.powerUps.score + (if st.goal.levelComplete then GoalPoints else 0)
  {
    StageFacts(s, keys, dt, env);
  }

  /** Where the points of a frame come from: the enemies it defeated (the
      pre-filter enemy list, whose active members are the new enemy list), 500
      per power-up collected and 1000 for reaching the goal. */
  lemma FrameScore(e: Engine, dt: real, env: Env)
    requires Inv(e.state) && !Frozen(e.state)
    ensures ScoreExplained(e.state, UpdateGame(e, dt, env).state)
  {
    var s := e.state;
    var st := RunStages(s, e.keys, dt, env);
    LateStageFacts(s, e.keys, dt, env);
    EnemyStageScore(s, e.keys, dt, env);
    PowerUpStageScore(s, e.keys, dt, env);
    GoalStageScore(s, e.keys, dt, env);
    ScoreParts(s, st, UpdateGame(e, dt, env).state);
  }

  /** The score of `r` is that of `s` plus the points of a frame: some list
      `pre` of the same enemies, whose active members are `r`'s enemies,
      accounts for the kills; every power-up that disappeared scored 500, and
      completing the level 1000. */
  ghost predicate ScoreExplained(s: GameState, r: GameState)
  {
    exists pre: seq<Enemy> ::
      && |pre| == |s.enemies|
      && (forall j :: 0 <= j < |s.enemies| ==> SameIdentity(s.enemies[j], pre[j]))
      && r.enemies == Filter(pre, EnemyActive)
      && r.score == s.score + KilledScore(pre) + PowerUpPoints * (|s.powerUps| - |r.powerUps|)
                    + (if r.levelComplete then GoalPoints else 0)
  }

  /** Adds up the stage scores of a frame; the witness is the enemy list
      before the filter. */
  lemma ScoreParts(s: GameState, st: Stages, r: GameState)
    requires r == st.camera
    requires st.camera.enemies == Filter(st.enemies.enemies, EnemyActive)
    requires st.camera.powerUps == Filter(st.powerUps.powerUps, ItemActive)
    requires st.camera.score == st.goal.score && st.camera.levelComplete == st.goal.levelComplete
    requires st.enemies.score == s.score + KilledScore(st.enemies.enemies)
    requires |st.enemies.enemies| == |s.enemies|
    requires forall j :: 0 <= j < |s.enemies| ==> SameIdentity(s.enemies[j], st.enemies.enemies[j])
    requires st.powerUps.score == st.enemies.score
      + PowerUpPoints * (|s.powerUps| - |Filter(st.powerUps.powerUps, ItemActive)|)
    requires st.goal.score == st.powerUps.score + (if st.goal.levelComplete then GoalPoints else 0)
    ensures ScoreExplained(s, r)
  {
    var pre := st.enemies.enemies;
    assert st.camera.enemies == Filter(pre, EnemyActive);
  }

  // ---------------------------------------------------------------- particles

  /** Ageing and culling a list that grew by fresh particles. */
  lemma CullAppended(before: seq<Particle>, after: seq<Particle>, dt: real)
    requires AppendsFresh(before, after)
    ensures exists born: seq<Particle> ::
      && (forall k :: 0 <= k < |born| ==> Fresh(born[k]))
      && AgeAndCull(after, dt) == AgeAndCull(before, dt) + AgeParticles(born, dt)
  {
    var born := after[|before|..];
    assert after == before + born;
    forall k | 0 <= k < |born|
      ensures Fresh(born[k])
    {
      assert born[k] == after[|before| + k];
    }
    CullConcat(before, born, dt);
  }

  /** Ageing and culling old particles followed by fresh ones culls none of
      the fresh ones. */
  lemma CullConcat(before: seq<Particle>, born: seq<Particle>, dt: real)
    requires forall k :: 0 <= k < |born| ==> Fresh(born[k])
    ensures AgeAndCull(before + born, dt) == AgeAndCull(before, dt) + AgeParticles(born, dt)
  {
    calc {
      AgeAndCull(before + born, dt);
      Filter(AgeParticles(before + born, dt), ParticleActive);
      { AgeParticlesConcat(before, born, dt); }
      Filter(AgeParticles(before, dt) + AgeParticles(born, dt), ParticleActive);
      { FilterConcat(AgeParticles(before, dt), AgeParticles(born, dt), ParticleActive); }
      AgeAndCull(before, dt) + Filter(AgeParticles(born, dt), ParticleActive);
      { FilterKeepsAll(AgeParticles(born, dt), ParticleActive); }
      AgeAndCull(before, dt) + AgeParticles(born, dt);
    }
  }

  /** The particle stages of a frame: bursts append fresh particles, then
      every particle is aged and culled. */
  lemma ParticleStages(s: GameState, keys: set<string>, dt: real, env: Env)
    ensures var st := RunStages(s, keys, dt, env);
      AppendsFresh(s.particles, st.goal.particles)
      && st.camera.particles == AgeAndCull(st.goal.particles, dt)
  {
    var st := RunStages(s, keys, dt, env);
    StageFacts(s, keys, dt, env);
    LateStageFacts(s, keys, dt, env);
    AppendsFreshTrans(s.particles, st.platforms.particles, st.enemies.particles);
    AppendsFreshTrans(s.particles, st.enemies.particles, st.powerUps.particles);
    AppendsFreshTrans(s.particles, st.powerUps.particles, st.goal.particles);
  }

  /** The particles after a frame are the old ones aged and culled, followed
      by the ones the frame's bursts created, aged once; none of those runs
      out in its first frame. */
  lemma FrameParticles(e: Engine, dt: real, env: Env)
    requires !Frozen(e.state)
    ensures var s := e.state;
      var r := UpdateGame(e, dt, env).state;
      exists born: seq<Particle> ::
        && (forall k :: 0 <= k < |born| ==> Fresh(born[k]))
        && r.particles == AgeAndCull(s.particles, dt) + AgeParticles(born, dt)
  {
    var st := RunStages(e.state, e.keys, dt, env);
    ParticleStages(e.state, e.keys, dt, env);
    CullAppended(e.state.particles, st.goal.particles, dt);
    assert UpdateGame(e, dt, env).state == st.camera;
  }

  /** `n` frames of ageing and culling, with no new particles. */
  function AgeCullN(ps: seq<Particle>, dt: real, n: nat): seq<Particle>
    decreases n
  {
    if n == 0 then ps else AgeCullN(AgeAndCull(ps, dt), dt, n - 1)
  }

  lemma {:induction false} AgeCullNEmpty(dt: real, n: nat)
    ensures AgeCullN([], dt, n) == []
  {
    if n > 0 {
      assert AgeAndCull([], dt) == [];
      AgeCullNEmpty(dt, n - 1);
    }
  }

  /** A particle with `lifespan` frames left is still there after `n` frames
      exactly when `n < lifespan`, with `lifespan - n` frames left. */
  lemma {:induction false} ParticleLifetime(p: Particle, dt: real, n: nat)
    requires p.body.active && p.lifespan >= 1
    ensures var r := AgeCullN([p], dt, n);
      && |r| == (if n < p.lifespan then 1 else 0)
      && (|r| == 1 ==> r[0].lifespan == p.lifespan - n && r[0].body.active)
    decreases n
  {
    if n > 0 {
      var q := AgeParticle(p, dt);
      assert AgeParticles([p], dt) == [q];
      assert [q][1..] == [];
      if q.body.active {
        assert AgeAndCull([p], dt) == [q];
        ParticleLifetime(q, dt, n - 1);
      } else {
        assert AgeAndCull([p], dt) == [];
        AgeCullNEmpty(dt, n - 1);
      }
    }
  }

  // ---------------------------------------------------------------- camera

  /** The distance `d` after `n` frames of 10% easing. */
  function Eased(d: real, n: nat): real
  {
    if n == 0 then d else (1.0 - CameraEase) * Eased(d, n - 1)
  }

  /** Easing is exponential decay. */
  lemma {:induction false} EasedIsPow(d: real, n: nat)
    ensures Eased(d, n) == Pow(1.0 - CameraEase, n) * d
  {
    if n > 0 {
      EasedIsPow(d, n - 1);
      ScaleChain(1.0 - CameraEase, Pow(1.0 - CameraEase, n - 1), d, Eased(d, n - 1));
    }
  }

  /** Behind a player who stands still, the camera's distance from its
      target shrinks by the factor 0.9 every frame (with `EasedIsPow`: it is
      `0.9^n` times the starting distance). */
  lemma {:induction false} CameraEases(camera: Vec, playerX: real, n: nat)
    requires camera.x >= 0.0 && playerX - CanvasWidth / 2.0 >= 0.0
    ensures var target := playerX - CanvasWidth / 2.0;
      var r := CameraAfter(camera, playerX, n);
      && r.x >= 0.0 && r.y == camera.y
      && Abs(r.x - target) == Eased(Abs(camera.x - target), n)
  {
    if n > 0 {
      CameraEases(camera, playerX, n - 1);
    }
  }

  lemma ScaleChain(k: real, p: real, a: real, d: real)
    requires d == p * a
    ensures k * d == (k * p) * a
  {
  }

  // ---------------------------------------------------------------- events

  /** While frozen, no event but a restart changes anything except the
      invincibility flag; in particular the escape key cannot unpause. */
  lemma FrozenStep(e: Engine, ev: Event)
    requires Frozen(e.state) && !ev.RestartPressed?
    ensures var r := Apply(e, ev).state;
      && r.(player := e.state.player) == e.state
      && r.player.(invincible := e.state.player.invincible) == e.state.player
  {
  }

  lemma {:induction false} FrozenUntilRestart(e: Engine, evs: seq<Event>)
    requires Frozen(e.state)
    requires forall k :: 0 <= k < |evs| ==> !evs[k].RestartPressed?
    ensures var r := ApplyAll(e, evs).state;
      && r.(player := e.state.player) == e.state
      && r.player.(invincible := e.state.player.invincible) == e.state.player
    decreases |evs|
  {
    if |evs| > 0 {
      FrozenStep(e, evs[0]);
      FrozenUntilRestart(Apply(e, evs[0]), evs[1..]);
    }
  }

  /** Restart levels the generator could have produced. */
  predicate WellformedEvent(ev: Event)
  {
    ev.RestartPressed? ==> WellformedLevel(ev.level)
  }

  lemma EventPreservesInv(e: Engine, ev: Event)
    requires Inv(e.state) && WellformedEvent(ev)
    ensures Inv(Apply(e, ev).state)
  {
    match ev
    case Tick(dt, env) => FramePreservesInv(e, dt, env);
    case KeysChanged(_) =>
    case InvincibilityExpires =>
    case RestartPressed(level) => InitialInv(level);
  }

  /** Every state reachable from a fresh game keeps the invariant. */
  lemma {:induction false} ReachableInv(e: Engine, evs: seq<Event>)
    requires Inv(e.state)
    requires forall k :: 0 <= k < |evs| ==> WellformedEvent(evs[k])
    ensures Inv(ApplyAll(e, evs).state)
    decreases |evs|
  {
    if |evs| > 0 {
      EventPreservesInv(e, evs[0]);
      ReachableInv(Apply(e, evs[0]), evs[1..]);
    }
  }

  // ---------------------------------------------------------------- moving platforms

  /** The anchored update keeps a moving platform within `range` of where the
      level placed it. */
  lemma MovePlatformNearAnchor(p: Platform, env: Env)
    requires SineBounded(env) && p.movement.Some?
    ensures var m := p.movement.value;
      var r := MovePlatform(p, env);
      Abs((if m.direction == Horizontal then r.body.pos.x else r.body.pos.y) - m.origin) <= Abs(m.range)
  {
    var m := p.movement.value;
    var r := MovePlatform(p, env);
    var d := (if m.direction == Horizontal then r.body.pos.x else r.body.pos.y) - m.origin;
    assert d == Oscillation(m, env);
    ScaleBounded(m.range, Sin(env, Phase(m, env)));
    assert Abs(Oscillation(m, env)) <= Abs(m.range);
  }

  /** The second gap's moving platform of the first level, anchored at y = 350. */
  function GapPlatform(): Platform
  {
    Platform(Entity("moving-1", Vec(1450.0, 350.0), Vec(0.0, 0.0), Vec(120.0, 20.0), PlatformKind, None, true),
             Moving, Some(Movement(Vertical, 0.5, 100.0, 350.0)))
  }

  /** As written, that platform leaves its gap on the first frame: it is put
      at `100 * sin(...)`, at least 250 above where the level placed it. */
  lemma AsWrittenLeavesAnchor(env: Env)
    requires SineBounded(env)
    ensures var r := MovePlatformAsWritten(GapPlatform(), env);
      r.body.pos.y <= 100.0 && 350.0 - r.body.pos.y >= 250.0
      && Abs(MovePlatform(GapPlatform(), env).body.pos.y - 350.0) <= 100.0
  {
    MovePlatformNearAnchor(GapPlatform(), env);
    ScaleBounded(100.0, Sin(env, Phase(GapPlatform().movement.value, env)));
  }
}
