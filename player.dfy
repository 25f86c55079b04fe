/**
 * The player's lifecycle: respawn after a delay, an entry animation that
 * raises the new player into play before enabling it, movement gated on
 * being enabled, and single-shot firing.
 */
module PlayerSystems {
  import opened Clock
  import opened Define
  import opened Ecs

  ////////// player_status_system

  /**
   * A respawned player: centred on the bottom clamp line at depth 10,
   * disabled, carrying the start-position tag. The player literal has no
   * shoot type, so the model gives it Normal.
   */
  function RespawnedPlayer(lim: WindowSizeLimit): (c: Comps)
    ensures c.player == Some(Player(0.0, lim.bottom + PLAYER_RADIUS, 10.0, false, Normal))
    ensures c.transform == Some(Vec3(0.0, lim.bottom + PLAYER_RADIUS, 10.0))
    ensures c.playerStartPosition
    ensures c.(player := None, transform := None, playerStartPosition := false) == NO_COMPONENTS
  {
    var p := Player(0.0, lim.bottom + PLAYER_RADIUS, 10.0, false, Normal);
    NO_COMPONENTS.(transform := Some(Vec3(p.x, p.y, p.z)), player := Some(p), playerStartPosition := true)
  }

  /** The status after one frame, and whether a player is spawned in it. */
  function StatusStep(s: PlayerStatus, delta: Duration): (r: (PlayerStatus, bool))
    ensures r.1 <==> s.isSpawn && JustFinished(Tick(s.timer, delta))
    ensures !s.isSpawn ==> r.0 == s
    ensures s.isSpawn ==> r.0.timer == Tick(s.timer, delta)
    ensures r.0.isSpawn <==> s.isSpawn && !r.1
    ensures r.0.score == s.score
  {
    if s.isSpawn then
      var t := Tick(s.timer, delta);
      if JustFinished(t) then (s.(timer := t, isSpawn := false), true) else (s.(timer := t), false)
    else (s, false)
  }

  /**
   * player_status_system: a pending respawn ticks the respawn timer, and
   * when it just finished a player is spawned and the respawn is no longer
   * pending. Nothing is ticked while no respawn is pending.
   */
  method PlayerStatusSystem(w: World, delta: Duration)
    modifies w`playerStatus, w`spawnQueue
    ensures w.playerStatus == StatusStep(old(w.playerStatus), delta).0
    ensures w.spawnQueue == old(w.spawnQueue) +
              (if StatusStep(old(w.playerStatus), delta).1 then [RespawnedPlayer(w.windowSizeLimit)] else [])
  {
    if w.playerStatus.isSpawn {
      var t := Tick(w.playerStatus.timer, delta);
      w.playerStatus := w.playerStatus.(timer := t);
      if JustFinished(t) {
        var lim := w.windowSizeLimit;
        var player := Player(0.0, lim.bottom + PLAYER_RADIUS, 10.0, false, Normal);
        w.spawnQueue := w.spawnQueue +
          [NO_COMPONENTS.(transform := Some(Vec3(player.x, player.y, player.z)), player := Some(player), playerStartPosition := true)];
        w.playerStatus := w.playerStatus.(isSpawn := false);
      }
    }
  }

  /** The status after a run of frames in which nothing else touches it. */
  function StatusRun(s: PlayerStatus, ds: seq<Duration>): PlayerStatus
  {
    if ds == [] then s else StatusStep(StatusRun(s, ds[..|ds| - 1]), ds[|ds| - 1]).0
  }

  /** How many players that run spawns. */
  function Respawns(s: PlayerStatus, ds: seq<Duration>): nat
  {
    if ds == [] then 0
    else Respawns(s, ds[..|ds| - 1]) + (if StatusStep(StatusRun(s, ds[..|ds| - 1]), ds[|ds| - 1]).1 then 1 else 0)
  }

  /** Each pending respawn creates at most one player; none is created while none is pending. */
  lemma {:induction false} AtMostOneRespawn(s: PlayerStatus, ds: seq<Duration>)
    ensures Respawns(s, ds) <= 1
    ensures Respawns(s, ds) == 1 ==> !StatusRun(s, ds).isSpawn
    ensures !s.isSpawn ==> Respawns(s, ds) == 0 && StatusRun(s, ds) == s
  {
    if ds != [] {
      AtMostOneRespawn(s, ds[..|ds| - 1]);
    }
  }

  /** The respawn delay the collision rules start. */
  const RESPAWN_DELAY: Duration := 3 * SECOND

  /**
   * After a death (respawn pending, timer restarted at three seconds) a
   * player is spawned in a run exactly when the run lasts three seconds.
   */
  lemma {:induction false} RespawnAfterDelay(s: PlayerStatus, ds: seq<Duration>)
    requires s.isSpawn && s.timer == FromSeconds(RESPAWN_DELAY, Once)
    ensures Respawns(s, ds) == 1 <==> ds != [] && Sum(ds) >= RESPAWN_DELAY
    ensures Respawns(s, ds) == 0 ==> StatusRun(s, ds) == s.(timer := TickAll(s.timer, ds))
  {
    FreshOnceRun(RESPAWN_DELAY, ds);
    if ds != [] {
      var pre := ds[..|ds| - 1];
      RespawnAfterDelay(s, pre);
      FreshOnceRun(RESPAWN_DELAY, pre);
      AtMostOneRespawn(s, ds);
      if Respawns(s, pre) == 0 {
        assert StatusRun(s, pre).isSpawn;
      } else {
        AtMostOneRespawn(s, pre);
      }
    }
  }

  ////////// player_move_system

  /** The player moved by step for each held arrow key; opposite keys cancel. */
  function Moved(p: Player, pressed: set<Key>, step: real): (q: Player)
    ensures q.y == p.y + (if Up in pressed then step else 0.0) - (if Down in pressed then step else 0.0)
    ensures q.x == p.x + (if Right in pressed then step else 0.0) - (if Left in pressed then step else 0.0)
    ensures q.(x := p.x, y := p.y) == p
    ensures Up in pressed && Down in pressed ==> q.y == p.y
    ensures Right in pressed && Left in pressed ==> q.x == p.x
  {
    var p1 := if Up in pressed then p.(y := p.y + step) else p;
    var p2 := if Down in pressed then p1.(y := p1.y - step) else p1;
    var p3 := if Right in pressed then p2.(x := p2.x + step) else p2;
    if Left in pressed then p3.(x := p3.x - step) else p3
  }

  /**
   * player_move_system: with exactly one player and that player enabled,
   * move it by PLAYER_VELOCITY times the speed factor per held key and copy
   * its position into the transform; otherwise do nothing.
   */
  method PlayerMoveSystem(w: World, pressed: set<Key>)
    modifies w`entities
    ensures match Single(old(w.entities), IsPlayerQ)
      case None => w.entities == old(w.entities)
      case Some(i) =>
        var e := old(w.entities)[i];
        if e.c.player.value.isEnable then
          var q := Moved(e.c.player.value, pressed, PLAYER_VELOCITY * w.speedControl);
          w.entities == old(w.entities)[i := Entity(e.id, e.c.(player := Some(q), transform := Some(GetPosition(q))))]
        else w.entities == old(w.entities)
  {
    var found := Single(w.entities, IsPlayerQ);
    if found.Some? {
      var i := found.value;
      var e := w.entities[i];
      var p := e.c.player.value;
      if p.isEnable {
        var speed := PLAYER_VELOCITY * w.speedControl;
        if Up in pressed {
          p := p.(y := p.y + speed);
        }
        if Down in pressed {
          p := p.(y := p.y - speed);
        }
        if Right in pressed {
          p := p.(x := p.x + speed);
        }
        if Left in pressed {
          p := p.(x := p.x - speed);
        }
        w.entities := w.entities[i := Entity(e.id, e.c.(player := Some(p), transform := Some(GetPosition(p))))];
      }
    }
  }

  ////////// player_shoot_system

  predicate HasPlayer(c: Comps) {
    c.player.Some?
  }

  /** A player projectile: at the player's x and y on layer 0, moving up at SHOOT_VELOCITY times the speed factor. */
  function PlayerShot(p: Player, speed: real): (c: Comps)
    ensures c.transform == Some(Vec3(p.x, p.y, 0.0))
    ensures c.velocity == Some(Velocity(0.0, SHOOT_VELOCITY * speed))
    ensures c.autoDespawn && c.fromPlayerShoot && !c.fromEnemyShoot
    ensures c.(transform := None, velocity := None, autoDespawn := false, fromPlayerShoot := false) == NO_COMPONENTS
  {
    NO_COMPONENTS.(transform := Some(SetZPosition(p, 0.0)), velocity := Some(Velocity(0.0, SHOOT_VELOCITY * speed)),
                   autoDespawn := true, fromPlayerShoot := true)
  }

  /**
   * player_shoot_system: pressing Space with exactly one player present
   * spawns one projectile from it; the enable flag is not consulted.
   */
  method PlayerShootSystem(w: World, justPressed: set<Key>)
    modifies w`spawnQueue
    ensures w.spawnQueue == old(w.spawnQueue) +
              (if Space in justPressed && Single(w.entities, HasPlayer).Some?
               then [PlayerShot(w.entities[Single(w.entities, HasPlayer).value].c.player.value, w.speedControl)]
               else [])
  {
    if Space in justPressed {
      var found := Single(w.entities, HasPlayer);
      if found.Some? {
        var p := w.entities[found.value].c.player.value;
        w.spawnQueue := w.spawnQueue +
          [NO_COMPONENTS.(transform := Some(SetZPosition(p, 0.0)), velocity := Some(Velocity(0.0, SHOOT_VELOCITY * w.speedControl)),
                          autoDespawn := true, fromPlayerShoot := true)];
      }
    }
  }

  ////////// player_start_position

  /** The line at which the entry animation ends: twelve radii above the bottom edge. */
  function EntryThreshold(lim: WindowSizeLimit): real {
    lim.bottom + PLAYER_RADIUS * 12.0
  }

  /** One frame of the entry animation: below the line rise by 5, at or above it become enabled. */
  function EntryStep(p: Player, lim: WindowSizeLimit): (q: Player)
    ensures p.y >= EntryThreshold(lim) ==> q == p.(isEnable := true)
    ensures p.y < EntryThreshold(lim) ==> q == p.(y := p.y + 5.0)
  {
    if p.y >= EntryThreshold(lim) then p.(isEnable := true) else p.(y := p.y + 5.0)
  }

  predicate IsStartingPlayerQ(c: Comps) {
    c.transform.Some? && c.player.Some? && c.playerStartPosition
  }

  /**
   * player_start_position: for the one player still tagged with its start
   * position, either raise it by 5 or, at the line, enable it and queue the
   * removal of the tag. The transform is not written here.
   */
  method PlayerStartPositionSystem(w: World)
    modifies w`entities, w`startTagRemoved
    ensures match Single(old(w.entities), IsStartingPlayerQ)
      case None => w.entities == old(w.entities) && w.startTagRemoved == old(w.startTagRemoved)
      case Some(i) =>
        var e := old(w.entities)[i];
        var p := e.c.player.value;
        && w.entities == old(w.entities)[i := Entity(e.id, e.c.(player := Some(EntryStep(p, w.windowSizeLimit))))]
        && w.startTagRemoved == old(w.startTagRemoved) + (if p.y >= EntryThreshold(w.windowSizeLimit) then {e.id} else {})
  {
    var startPosition := w.windowSizeLimit.bottom + (PLAYER_RADIUS * 12.0);
    var found := Single(w.entities, IsStartingPlayerQ);
    if found.Some? {
      var i := found.value;
      var e := w.entities[i];
      var p := e.c.player.value;
      if p.y >= startPosition {
        w.startTagRemoved := w.startTagRemoved + {e.id};
        p := p.(isEnable := true);
      } else {
        p := p.(y := p.y + 5.0);
      }
      w.entities := w.entities[i := Entity(e.id, e.c.(player := Some(p)))];
    }
  }

  /** The player after n frames of the entry animation. */
  function EntryRun(p: Player, lim: WindowSizeLimit, n: nat): Player
  {
    if n == 0 then p else EntryStep(EntryRun(p, lim, n - 1), lim)
  }

  /** While below the line, each frame raises the player by exactly 5 and leaves it disabled. */
  lemma {:induction false} EntryClimbs(p: Player, lim: WindowSizeLimit, k: nat)
    requires !p.isEnable
    requires k == 0 || p.y + 5.0 * (k - 1) as real < EntryThreshold(lim)
    ensures EntryRun(p, lim, k) == p.(y := p.y + 5.0 * k as real)
  {
    if k > 0 {
      EntryClimbs(p, lim, k - 1);
    }
  }

  /** Once at or above the line the next frame enables the player, and later frames change nothing more. */
  lemma {:induction false} EntryEnables(p: Player, lim: WindowSizeLimit, k: nat)
    requires p.y >= EntryThreshold(lim)
    ensures EntryRun(p, lim, k + 1) == p.(isEnable := true)
  {
    if k > 0 {
      EntryEnables(p, lim, k - 1);
    }
  }

  /**
   * From the respawn height the animation ends: 31 frames raise the player
   * 155 units to 169 above the bottom edge, still disabled, and the 32nd
   * frame enables it.
   */
  lemma RespawnEntryEnds(lim: WindowSizeLimit)
    ensures var p := RespawnedPlayer(lim).player.value;
      && !EntryRun(p, lim, 31).isEnable
      && EntryRun(p, lim, 31).y == lim.bottom + 169.0
      && EntryRun(p, lim, 32).isEnable
      && EntryRun(p, lim, 32).y == lim.bottom + 169.0
  {
    var p := RespawnedPlayer(lim).player.value;
    EntryClimbs(p, lim, 31);
    var q := EntryRun(p, lim, 31);
    assert q.y >= EntryThreshold(lim);
    EntryEnables(q, lim, 0);
  }
}
