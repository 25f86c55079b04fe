/**
 * The older enemy plugin: a counter-gated random spawner, the same fire
 * rule as the enemy plugin (Enemies.EnemyShootSystem), and a four-enemy
 * wave driven by a timer ticked with the total elapsed time.
 */
module EnemyLegacy {
  import opened Clock
  import opened Define
  import opened Ecs

  ////////// enemy_spawn_system

  /** A randomly placed enemy: no velocity, the enemy keeps a copy of its spawn point. */
  function SpawnedEnemy(x: real, y: real, interval: Duration): (c: Comps)
    ensures c.transform == Some(Vec3(x, y, 9.0)) && c.velocity.None?
    ensures c.enemy == Some(Enemy(FromSeconds(interval, Repeating), None, Some(Vec2(x, y)))) && c.autoDespawn
  {
    NO_COMPONENTS.(transform := Some(Vec3(x, y, 9.0)), enemy := Some(Enemy(FromSeconds(interval, Repeating), None, Some(Vec2(x, y)))),
                   autoDespawn := true)
  }

  /**
   * One frame of the spawner: below the maximum, tick the timer and spawn
   * when it completes; at the maximum, the timer is not ticked at all.
   */
  function SpawnStep(s: EnemySpawn, delta: Duration, max: U32): (r: (EnemySpawn, bool))
    ensures s.counter < max ==> r.0.timer == Tick(s.timer, delta)
    ensures s.counter >= max ==> r.0 == s && !r.1
    ensures r.1 <==> s.counter < max && JustFinished(Tick(s.timer, delta))
    ensures r.0.counter == s.counter + (if r.1 then 1 else 0)
  {
    if s.counter < max then
      var t := Tick(s.timer, delta);
      if JustFinished(t) then (EnemySpawn(s.counter + 1, t), true) else (s.(timer := t), false)
    else (s, false)
  }

  function SpawnRun(s: EnemySpawn, ds: seq<Duration>, max: U32): EnemySpawn {
    if ds == [] then s else SpawnStep(SpawnRun(s, ds[..|ds| - 1], max), ds[|ds| - 1], max).0
  }

  function SpawnCount(s: EnemySpawn, ds: seq<Duration>, max: U32): nat {
    if ds == [] then 0
    else SpawnCount(s, ds[..|ds| - 1], max) + (if SpawnStep(SpawnRun(s, ds[..|ds| - 1], max), ds[|ds| - 1], max).1 then 1 else 0)
  }

  /** The counter counts the spawns and, starting at or below the maximum, never exceeds it. */
  lemma {:induction false} CounterBounded(s: EnemySpawn, ds: seq<Duration>, max: U32)
    ensures SpawnRun(s, ds, max).counter == s.counter + SpawnCount(s, ds, max)
    ensures s.counter <= max ==> SpawnRun(s, ds, max).counter <= max
  {
    if ds != [] {
      CounterBounded(s, ds[..|ds| - 1], max);
    }
  }

  /**
   * enemy_spawn_system: x, y and the shoot interval are this frame's random
   * draws, from [left + R, right - R), [(bottom + R) / 2, top - R) and
   * [1 s, 5 s); the draws panic on an empty range. The upper bound of the
   * counter is a parameter.
   */
  method EnemySpawnSystem(w: World, delta: Duration, max: U32, x: real, y: real, interval: Duration)
    requires w.windowSizeLimit.left + ENEMY_RADIUS <= x < w.windowSizeLimit.right - ENEMY_RADIUS
    requires (w.windowSizeLimit.bottom + ENEMY_RADIUS) / 2.0 <= y < w.windowSizeLimit.top - ENEMY_RADIUS
    requires SECOND <= interval < 5 * SECOND
    modifies w`enemySpawn, w`spawnQueue
    ensures w.enemySpawn == SpawnStep(old(w.enemySpawn), delta, max).0
    ensures w.spawnQueue == old(w.spawnQueue) + (if SpawnStep(old(w.enemySpawn), delta, max).1 then [SpawnedEnemy(x, y, interval)] else [])
  {
    if w.enemySpawn.counter < max {
      var t := Tick(w.enemySpawn.timer, delta);
      w.enemySpawn := w.enemySpawn.(timer := t);
      if JustFinished(t) {
        w.spawnQueue := w.spawnQueue + [NO_COMPONENTS.(transform := Some(Vec3(x, y, 9.0)),
                                                       enemy := Some(Enemy(FromSeconds(interval, Repeating), None, Some(Vec2(x, y)))),
                                                       autoDespawn := true)];
        w.enemySpawn := w.enemySpawn.(counter := w.enemySpawn.counter + 1);
      }
    }
  }

  /** A spawned enemy lies inside the window, clear of the side edges by its radius and in the upper part of the field. */
  lemma SpawnInsideField(lim: WindowSizeLimit, x: real, y: real, interval: Duration)
    requires lim.left + ENEMY_RADIUS <= x < lim.right - ENEMY_RADIUS
    requires (lim.bottom + ENEMY_RADIUS) / 2.0 <= y < lim.top - ENEMY_RADIUS
    ensures var p := SpawnedEnemy(x, y, interval).transform.value;
      lim.left < p.x < lim.right && p.y < lim.top && (lim.bottom < 0.0 ==> lim.bottom < p.y)
  {
  }

  ////////// enemy_spawn_system_001

  /** The wave's four spawn points, 50 above the top edge at x, 2x, -x and -2x for x a third of the right edge. */
  function Positions001(lim: WindowSizeLimit): (ps: seq<Vec2>)
    ensures |ps| == 4
  {
    var y := lim.top + 50.0;
    var x := lim.right / 3.0;
    [Vec2(x, y), Vec2(x * 2.0, y), Vec2(-x, y), Vec2(-x * 2.0, y)]
  }

  /** An enemy of the wave: falling at 1, firing every second, keeping its spawn point. */
  function WaveEnemy001(p: Vec2): (c: Comps)
    ensures c.transform == Some(Vec3(p.x, p.y, 9.0)) && c.velocity == Some(Velocity(0.0, -1.0))
    ensures c.enemy == Some(Enemy(FromSeconds(SECOND, Repeating), None, Some(p))) && c.autoDespawn
  {
    NO_COMPONENTS.(transform := Some(Vec3(p.x, p.y, 9.0)), velocity := Some(Velocity(0.0, -1.0)),
                   enemy := Some(Enemy(FromSeconds(SECOND, Repeating), None, Some(p))), autoDespawn := true)
  }

  function Wave001(ps: seq<Vec2>): (cs: seq<Comps>)
    ensures |cs| == |ps|
  {
    if ps == [] then [] else Wave001(ps[..|ps| - 1]) + [WaveEnemy001(ps[|ps| - 1])]
  }

  /** Enemy k of the wave stands on point k of the table. */
  lemma {:induction false} Wave001At(ps: seq<Vec2>)
    ensures forall k :: 0 <= k < |ps| ==> Wave001(ps)[k] == WaveEnemy001(ps[k])
  {
    if ps != [] {
      Wave001At(ps[..|ps| - 1]);
    }
  }

  /** The wave is four enemies in table order, mirror pairs about x = 0, all 50 above the top edge. */
  lemma Wave001Spec(lim: WindowSizeLimit)
    ensures |Wave001(Positions001(lim))| == 4
    ensures forall k :: 0 <= k < 4 ==> Wave001(Positions001(lim))[k] == WaveEnemy001(Positions001(lim)[k])
    ensures forall k :: 0 <= k < 4 ==> Positions001(lim)[k].y == lim.top + 50.0
    ensures Positions001(lim)[0].x == -Positions001(lim)[2].x && Positions001(lim)[1].x == -Positions001(lim)[3].x
  {
    Wave001At(Positions001(lim));
  }

  /**
   * enemy_spawn_system_001: tick the wave timer by the total elapsed time
   * (not the frame's delta) and spawn the four enemies when it completes.
   */
  method EnemySpawnSystem001(w: World, elapsed: Duration)
    modifies w`enemy001, w`spawnQueue
    ensures w.enemy001 == Tick(old(w.enemy001), elapsed)
    ensures w.spawnQueue == old(w.spawnQueue) + (if JustFinished(w.enemy001) then Wave001(Positions001(w.windowSizeLimit)) else [])
  {
    var y := w.windowSizeLimit.top + 50.0;
    var x := w.windowSizeLimit.right / 3.0;
    var positions := [Vec2(x, y), Vec2(x * 2.0, y), Vec2(-x, y), Vec2(-x * 2.0, y)];
    w.enemy001 := Tick(w.enemy001, elapsed);
    if JustFinished(w.enemy001) {
      var queue := w.spawnQueue;
      var k := 0;
      while k < |positions|
        invariant 0 <= k <= |positions|
        invariant queue == old(w.spawnQueue) + Wave001(positions[..k])
      {
        assert positions[..k + 1][..k] == positions[..k];
        var p := positions[k];
        queue := queue + [NO_COMPONENTS.(transform := Some(Vec3(p.x, p.y, 9.0)), velocity := Some(Velocity(0.0, -1.0)),
                                         enemy := Some(Enemy(FromSeconds(SECOND, Repeating), None, Some(p))), autoDespawn := true)];
        k := k + 1;
      }
      assert positions[..k] == positions;
      w.spawnQueue := queue;
    }
  }
}
