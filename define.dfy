/**
 * The game's shared records and constants: window bounds, the player and
 * enemy components, the global resources (player status, spawn counter,
 * speed factor, game clock) and the wave schedule.
 */
module Define {
  import opened Clock

  datatype Option<T> = None | Some(value: T)

  const WINDOW_SIZE_WIDTH: real := 400.0
  const WINDOW_SIZE_HEIGHT: real := 720.0
  const WINDOW_SIZE_MARGIN: real := 100.0

  const PLAYER_RADIUS: real := 14.0
  const PLAYER_VELOCITY: real := 3.0

  const ENEMY_RADIUS: real := 15.0
  const ENEMY_SPAWN_DURATION_SECONDS: real := 1.0

  const SHOOT_VELOCITY: real := 3.0
  const SHOOT_RADIUS: real := 5.0

  /** Rust's u32 and u64. */
  const U32_LIMIT: int := 0x1_0000_0000
  type U32 = x: int | 0 <= x < U32_LIMIT
  type U64 = x: int | 0 <= x < 0x1_0000_0000_0000_0000

  datatype Vec3 = Vec3(x: real, y: real, z: real)
  datatype Vec2 = Vec2(x: real, y: real)
  datatype Velocity = Velocity(x: real, y: real)

  ////////// Resources

  datatype WindowSizeLimit = WindowSizeLimit(top: real, bottom: real, right: real, left: real)

  /** The constructor takes its edges in the order top, bottom, right, left. */
  function NewWindowSizeLimit(top: real, bottom: real, right: real, left: real): (w: WindowSizeLimit)
    ensures w.top == top && w.bottom == bottom && w.right == right && w.left == left
  {
    WindowSizeLimit(top, bottom, right, left)
  }

  datatype PlayerStatus = PlayerStatus(isSpawn: bool, timer: Timer, score: real)

  datatype EnemySpawn = EnemySpawn(counter: U32, timer: Timer)

  datatype GameTimer = GameTimer(timer: Timer, seconds: U64)

  /** One wave trigger: the game second it fires at, and whether it is still armed. */
  datatype ScheduleEntry = ScheduleEntry(seconds: U64, enable: bool)

  /** The wave triggers, one per spawn pattern. */
  datatype EnemySchedule = EnemySchedule(
    enemyPattern001: ScheduleEntry,
    enemyPattern002: ScheduleEntry,
    enemyPattern003: ScheduleEntry,
    enemyPattern004: ScheduleEntry,
    enemyPattern005: ScheduleEntry,
    enemyPattern006: ScheduleEntry)

  ////////// Components

  datatype ShootType = Normal | Double | Triple

  datatype Player = Player(x: real, y: real, z: real, isEnable: bool, shootType: ShootType)

  /** The player's stored position. */
  function GetPosition(p: Player): (v: Vec3)
    ensures v.x == p.x && v.y == p.y && v.z == p.z
  {
    Vec3(p.x, p.y, p.z)
  }

  /** The player's position with its depth replaced by z; the player itself is a value and is not changed. */
  function SetZPosition(p: Player, z: real): (v: Vec3)
    ensures v == GetPosition(p).(z := z)
  {
    Vec3(p.x, p.y, z)
  }

  /** Replacing the depth by the player's own depth gives back its position. */
  lemma SetOwnZIsPosition(p: Player)
    ensures SetZPosition(p, p.z) == GetPosition(p)
  {
  }

  /**
   * An enemy: its repeating shoot timer and the points it is worth. The
   * point value is absent in the snapshots whose enemy literal has none,
   * and spawnedAt holds the x/y copy that one snapshot keeps in the component.
   */
  datatype Enemy = Enemy(shootInterval: Timer, point: Option<real>, spawnedAt: Option<Vec2>)

  datatype ShowBangPoint = ShowBangPoint(x: real, y: real)

  /** A live explosion marker and its lifetime timer. */
  datatype ShootBang = ShootBang(timer: Timer)
}
