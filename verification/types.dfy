/**
  The entity records of the platformer's simulation: positions, velocities and
  sizes in world units, the kind discriminants as datatypes, and the root
  `GameState` aggregate. Coordinates are exact reals in place of doubles.
 */
module Types {

  datatype Option<+T> = None | Some(value: T)

  /** A 2D vector; positions are top-left corners, y grows downwards. */
  datatype Vec = Vec(x: real, y: real)

  /** The `type` discriminant every game object carries. */
  datatype Kind = PlayerKind | EnemyKind | PlatformKind | PowerUpKind | ParticleKind | GoalKind

  /** The fields every game object shares (the base record). */
  datatype Entity = Entity(
    id: string,
    pos: Vec,
    vel: Vec,
    size: Vec,
    kind: Kind,
    color: Option<string>,
    active: bool)

  datatype Facing = Left | Right

  datatype PowerUpTag = Super | Fire | Star

  datatype Player = Player(
    body: Entity,
    health: int,
    score: int,            // never updated: the live score is GameState.score
    isJumping: bool,
    isGrounded: bool,
    facing: Facing,
    powerUp: Option<PowerUpTag>,
    invincible: bool,
    animationFrame: real)

  datatype EnemyType = Goomba | Koopa | Flying | Spiky | Jumper

  /** Horizontal bounds at which an enemy turns around. */
  datatype Patrol = Patrol(start: real, end: real)

  /** An absent `jumpTimer` or `animationFrame` is modelled as 0, the value `|| 0` reads it as. */
  datatype Enemy = Enemy(
    body: Entity,
    enemyType: EnemyType,
    health: int,
    patrol: Patrol,
    jumpTimer: real,
    animationFrame: real)

  datatype PlatformType = Solid | Moving | Breakable | Cloud

  datatype Direction = Horizontal | Vertical

  /** Sinusoidal motion of a platform. `origin` is the coordinate (on the
      moving axis) the level placed the platform at; the source record has no
      such field, see the anchored `GameEngine.MovePlatform`. */
  datatype Movement = Movement(direction: Direction, speed: real, range: real, origin: real)

  datatype Platform = Platform(body: Entity, platformType: PlatformType, movement: Option<Movement>)

  /** A decorative particle; `lifespan` counts frames down to removal. */
  datatype Particle = Particle(body: Entity, lifespan: int, maxLifespan: int, fadeOut: bool, gravity: bool)

  datatype GameState = GameState(
    player: Player,
    enemies: seq<Enemy>,
    platforms: seq<Platform>,
    powerUps: seq<Entity>,
    particles: seq<Particle>,
    goal: Option<Entity>,
    camera: Vec,
    level: int,
    gameOver: bool,
    levelComplete: bool,
    paused: bool,
    score: int,
    time: int)

  /** The hand-placed content of one level, an input of the model. */
  datatype Level = Level(enemies: seq<Enemy>, platforms: seq<Platform>, powerUps: seq<Entity>, goal: Option<Entity>)
}
