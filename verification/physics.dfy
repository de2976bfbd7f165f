/**
  Per-entity kinematics, axis-aligned box collision and particle creation
  (physics.ts). Every function is pure: the source's in-place updates become
  returned copies.
 */
module Physics {
  import opened Types
  import opened Numbers

  const Gravity: real := 0.8
  const JumpForce: real := -15.0
  const MoveSpeed: real := 5.0
  const MaxFallSpeed: real := 12.0
  const Friction: real := 0.85
  /** Particles fall at 30% of normal gravity and decay their drift gently. */
  const ParticleGravity: real := Gravity * 0.3
  const ParticleDrag: real := 0.98
  /** Initial (and maximal) lifespan of a particle, in frames. */
  const ParticleLife: int := 30

  /** One integration step: move by the velocity held *before* this step, then
      update the velocity according to the kind. */
  function UpdatePhysics(e: Entity, dt: real): (r: Entity)
    ensures r.pos.x - e.pos.x == e.vel.x * dt && r.pos.y - e.pos.y == e.vel.y * dt
    ensures r.(pos := e.pos, vel := e.vel) == e
    ensures (e.kind == PlayerKind || e.kind == EnemyKind) ==>
      r.vel.y <= MaxFallSpeed && r.vel.y == Min(e.vel.y + Gravity, MaxFallSpeed) && r.vel.x == e.vel.x * Friction
    ensures e.kind == ParticleKind ==> r.vel.y == e.vel.y + 0.24 && r.vel.x == e.vel.x * ParticleDrag
    ensures (e.kind == PlatformKind || e.kind == PowerUpKind || e.kind == GoalKind) ==> r.vel == e.vel
  {
    var moved := e.(pos := Vec(e.pos.x + e.vel.x * dt, e.pos.y + e.vel.y * dt));
    match e.kind
    case PlayerKind => moved.(vel := Vec(e.vel.x * Friction, Min(e.vel.y + Gravity, MaxFallSpeed)))
    case EnemyKind => moved.(vel := Vec(e.vel.x * Friction, Min(e.vel.y + Gravity, MaxFallSpeed)))
    case ParticleKind => moved.(vel := Vec(e.vel.x * ParticleDrag, e.vel.y + ParticleGravity))
    case _ => moved
  }

  /** `n` consecutive physics steps with the same time scale. */
  function Steps(e: Entity, dt: real, n: nat): Entity
  {
    if n == 0 then e else UpdatePhysics(Steps(e, dt, n - 1), dt)
  }

  lemma {:induction false} StepsKeepKind(e: Entity, dt: real, n: nat)
    ensures Steps(e, dt, n).kind == e.kind
  {
    if n > 0 {
      StepsKeepKind(e, dt, n - 1);
    }
  }

  /** Falling bodies gain `Gravity` per frame until they reach the terminal
      fall speed, and then stay there. */
  lemma {:induction false} FallSpeedAfterSteps(e: Entity, dt: real, n: nat)
    requires e.kind == PlayerKind || e.kind == EnemyKind
    requires n >= 1
    ensures Steps(e, dt, n).vel.y == Min(e.vel.y + n as real * Gravity, MaxFallSpeed)
  {
    StepsKeepKind(e, dt, n - 1);
    if n > 1 {
      FallSpeedAfterSteps(e, dt, n - 1);
    }
  }

  function Pow(b: real, n: nat): real
  {
    if n == 0 then 1.0 else b * Pow(b, n - 1)
  }

  lemma {:induction false} PowInUnit(b: real, n: nat)
    requires 0.0 < b <= 1.0
    ensures 0.0 < Pow(b, n) <= 1.0
  {
    if n > 0 {
      PowInUnit(b, n - 1);
      var q := Pow(b, n - 1);
      MulNonNeg(1.0 - b, q);
      assert b * q == q - (1.0 - b) * q;
    }
  }

  /** `v` damped by friction for `n` frames: friction is exponential decay,
      so a moving body slows but never reaches zero. */
  function Damped(v: real, n: nat): real
  {
    if n == 0 then v else Damped(v, n - 1) * Friction
  }

  lemma {:induction false} DampedIsPow(v: real, n: nat)
    ensures Damped(v, n) == v * Pow(Friction, n)
  {
    if n > 0 {
      DampedIsPow(v, n - 1);
      MulAssoc(v, Pow(Friction, n - 1), Friction);
    }
  }

  lemma {:induction false} FrictionAfterSteps(e: Entity, dt: real, n: nat)
    requires e.kind == PlayerKind || e.kind == EnemyKind
    ensures Steps(e, dt, n).vel.x == e.vel.x * Pow(Friction, n)
  {
    StepsDamp(e, dt, n);
    DampedIsPow(e.vel.x, n);
  }

  lemma {:induction false} StepsDamp(e: Entity, dt: real, n: nat)
    requires e.kind == PlayerKind || e.kind == EnemyKind
    ensures Steps(e, dt, n).vel.x == Damped(e.vel.x, n)
  {
    if n > 0 {
      StepsDamp(e, dt, n - 1);
      StepsKeepKind(e, dt, n - 1);
      FrictionStep(Steps(e, dt, n - 1), dt);
    }
  }

  /** With exact arithmetic friction never stops a moving body. */
  lemma FrictionNeverStops(e: Entity, dt: real, n: nat)
    requires e.kind == PlayerKind || e.kind == EnemyKind
    requires e.vel.x != 0.0
    ensures Steps(e, dt, n).vel.x != 0.0
  {
    FrictionAfterSteps(e, dt, n);
    PowInUnit(Friction, n);
    MulNonZero(e.vel.x, Pow(Friction, n));
  }

  /** The horizontal part of one step, isolated so that the rest of the
      step's contract stays out of the proofs above. */
  lemma FrictionStep(x: Entity, dt: real)
    requires x.kind == PlayerKind || x.kind == EnemyKind
    ensures UpdatePhysics(x, dt).vel.x == x.vel.x * Friction
  {
  }

  lemma MulAssoc(a: real, b: real, c: real)
    ensures (a * b) * c == a * (c * b)
  {
  }

  lemma MulNonZero(a: real, b: real)
    requires a != 0.0 && b > 0.0
    ensures a * b != 0.0
  {
  }

  /** Strict overlap of two open intervals `[lo1, lo1+len1)` and `[lo2, lo2+len2)`. */
  predicate Overlap1D(lo1: real, len1: real, lo2: real, len2: real)
  {
    lo1 < lo2 + len2 && lo1 + len1 > lo2
  }

  /** Bounding-box overlap, strict on both axes: touching edges do not collide. */
  predicate CheckCollision(a: Entity, b: Entity)
  {
    && Overlap1D(a.pos.x, a.size.x, b.pos.x, b.size.x)
    && Overlap1D(a.pos.y, a.size.y, b.pos.y, b.size.y)
  }

  lemma CollisionSymmetric(a: Entity, b: Entity)
    ensures CheckCollision(a, b) == CheckCollision(b, a)
  {
  }

  /** `p` lies strictly inside the box of `e`. */
  predicate Inside(p: Vec, e: Entity)
  {
    e.pos.x < p.x < e.pos.x + e.size.x && e.pos.y < p.y < e.pos.y + e.size.y
  }

  /** For boxes of positive size, colliding means that the two interiors share a point. */
  lemma CollisionIffSharedPoint(a: Entity, b: Entity)
    requires a.size.x > 0.0 && a.size.y > 0.0 && b.size.x > 0.0 && b.size.y > 0.0
    ensures CheckCollision(a, b) <==> exists p :: Inside(p, a) && Inside(p, b)
  {
    if CheckCollision(a, b) {
      var x := (Max(a.pos.x, b.pos.x) + Min(a.pos.x + a.size.x, b.pos.x + b.size.x)) / 2.0;
      var y := (Max(a.pos.y, b.pos.y) + Min(a.pos.y + a.size.y, b.pos.y + b.size.y)) / 2.0;
      assert Inside(Vec(x, y), a) && Inside(Vec(x, y), b);
    }
  }

  function OverlapX(e: Entity, p: Entity): real
  {
    Min(e.pos.x + e.size.x - p.pos.x, p.pos.x + p.size.x - e.pos.x)
  }

  function OverlapY(e: Entity, p: Entity): real
  {
    Min(e.pos.y + e.size.y - p.pos.y, p.pos.y + p.size.y - e.pos.y)
  }

  /** Which face of the platform the entity is pushed out through. */
  datatype Side = LeftOf | RightOf | Above | Below

  /** The axis of smaller overlap decides; a tie resolves vertically. The
      side on that axis is chosen by comparing top-left corners. */
  function SideOf(e: Entity, p: Entity): (r: Side)
    ensures (r == LeftOf || r == RightOf) <==> OverlapX(e, p) < OverlapY(e, p)
  {
    if OverlapX(e, p) < OverlapY(e, p) then
      (if e.pos.x < p.pos.x then LeftOf else RightOf)
    else
      (if e.pos.y < p.pos.y then Above else Below)
  }

  /** Push `e` out of platform `p` along one axis and stop it on that axis. */
  function ResolveCollision(e: Entity, p: Entity): (r: Entity)
    ensures SideOf(e, p) == LeftOf ==> r.pos.x + r.size.x == p.pos.x
    ensures SideOf(e, p) == RightOf ==> r.pos.x == p.pos.x + p.size.x
    ensures SideOf(e, p) == Above ==> r.pos.y + r.size.y == p.pos.y
    ensures SideOf(e, p) == Below ==> r.pos.y == p.pos.y + p.size.y
    ensures SideOf(e, p) in {LeftOf, RightOf} ==>
      r.vel.x == 0.0 && r.pos.y == e.pos.y && r.vel.y == e.vel.y
    ensures SideOf(e, p) in {Above, Below} ==>
      r.vel.y == 0.0 && r.pos.x == e.pos.x && r.vel.x == e.vel.x
    ensures r.(pos := e.pos, vel := e.vel) == e
    ensures !CheckCollision(r, p)
  {
    match SideOf(e, p)
    case LeftOf => e.(pos := e.pos.(x := p.pos.x - e.size.x), vel := e.vel.(x := 0.0))
    case RightOf => e.(pos := e.pos.(x := p.pos.x + p.size.x), vel := e.vel.(x := 0.0))
    case Above => e.(pos := e.pos.(y := p.pos.y - e.size.y), vel := e.vel.(y := 0.0))
    case Below => e.(pos := e.pos.(y := p.pos.y + p.size.y), vel := e.vel.(y := 0.0))
  }

  /** The player variant: landing on top also grounds the player and ends its
      jump; this happens only for a body whose kind is `player`. */
  function ResolvePlayer(pl: Player, p: Entity): (r: Player)
    ensures r.body == ResolveCollision(pl.body, p)
    ensures (SideOf(pl.body, p) == Above && pl.body.kind == PlayerKind) ==> r.isGrounded && !r.isJumping
    ensures !(SideOf(pl.body, p) == Above && pl.body.kind == PlayerKind) ==>
      r.isGrounded == pl.isGrounded && r.isJumping == pl.isJumping
    ensures r.(body := pl.body, isGrounded := pl.isGrounded, isJumping := pl.isJumping) == pl
  {
    var landed := SideOf(pl.body, p) == Above && pl.body.kind == PlayerKind;
    pl.(body := ResolveCollision(pl.body, p),
        isGrounded := if landed then true else pl.isGrounded,
        isJumping := if landed then false else pl.isJumping)
  }

  /** A fresh particle as `createParticle` builds it. */
  function CreateParticle(id: string, position: Vec, velocity: Vec, color: string, size: real): (r: Particle)
    ensures r.body.pos == position && r.body.vel == velocity && r.body.size == Vec(size, size)
    ensures r.body.kind == ParticleKind && r.body.active && r.body.id == id
    ensures r.lifespan == ParticleLife && r.maxLifespan == ParticleLife && r.fadeOut
  {
    Particle(Entity(id, position, velocity, Vec(size, size), ParticleKind, Some(color), true),
             ParticleLife, ParticleLife, true, true)
  }

  /** The samples `particleBurst` draws for particle `i` of a burst: the cosine
      and sine of its angle `2*pi*i/count`, two jitter draws and a size draw
      (each a `Math.random()` value), and the generated id. */
  datatype Draw = Draw(id: string, cos: real, sin: real, jitterX: real, jitterY: real, sizeUnit: real)

  predicate IsUnit(u: real) { 0.0 <= u < 1.0 }

  /** What a burst promises of one particle drawn with `d`: a fresh, active
      square particle at `center` with a full life, whose size lies in [2, 6)
      and whose velocity lies within 1 of `speed` along the drawn direction,
      on each axis whose random sample lies in [0, 1). */
  predicate BurstShape(p: Particle, center: Vec, speed: real, d: Draw)
  {
    && p.body.pos == center && p.body.active && p.body.kind == ParticleKind
    && p.lifespan == ParticleLife && p.maxLifespan == ParticleLife && p.fadeOut
    && p.body.size.x == p.body.size.y
    && (IsUnit(d.sizeUnit) ==> 2.0 <= p.body.size.x < 6.0)
    && (IsUnit(d.jitterX) ==> -1.0 <= p.body.vel.x - d.cos * speed < 1.0)
    && (IsUnit(d.jitterY) ==> -1.0 <= p.body.vel.y - d.sin * speed < 1.0)
  }

  /** Particle `i` of a burst of `count` around `center`. */
  function BurstParticle(center: Vec, i: nat, count: nat, color: string, speed: real, draw: (nat, nat) -> Draw): (r: Particle)
    ensures BurstShape(r, center, speed, draw(i, count))
    ensures r.body.id == draw(i, count).id
  {
    var d := draw(i, count);
    CreateParticle(d.id, center,
                   Vec(d.cos * speed + (d.jitterX - 0.5) * 2.0, d.sin * speed + (d.jitterY - 0.5) * 2.0),
                   color, d.sizeUnit * 4.0 + 2.0)
  }

  /** `count` particles spread from `center`; particle `i` uses `draw(i, count)`. */
  function ParticleBurst(center: Vec, count: nat, color: string, speed: real, draw: (nat, nat) -> Draw): (r: seq<Particle>)
    ensures |r| == count
    ensures forall i :: 0 <= i < count ==> BurstShape(r[i], center, speed, draw(i, count))
    ensures forall i :: 0 <= i < count ==> r[i].body.id == draw(i, count).id
  {
    var r := seq(count, i requires 0 <= i < count => BurstParticle(center, i, count, color, speed, draw));
    forall i | 0 <= i < count
      ensures BurstShape(r[i], center, speed, draw(i, count))
    {
      assert r[i] == BurstParticle(center, i, count, color, speed, draw);
    }
    assert forall i :: 0 <= i < count ==> r[i] == BurstParticle(center, i, count, color, speed, draw);
    r
  }
}
