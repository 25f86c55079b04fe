/**
 * Wave 003 of the pattern files: one enemy with a lateral-drift counter,
 * spawned when its entry is ready, which then disarms the entry.
 */
module EnemyPattern003 {
  import opened Clock
  import opened Define
  import opened Ecs
  import opened Enemies
  import opened Formations

  /** The wave's enemy: at (0, top - 30) on layer 9, falling at 1, firing every second, counter 0. */
  function WaveEnemy003(lim: WindowSizeLimit): (c: Comps)
    ensures c.transform == Some(Vec3(0.0, lim.top - 30.0, 9.0)) && c.velocity == Some(Velocity(0.0, -1.0))
    ensures c.enemy == Some(Enemy(FromSeconds(SECOND, Repeating), None, None))
    ensures c.movePattern == Pattern003(0) && InLane(c, PatternLane) && Phase(c, PatternLane) == 0
  {
    WaveEnemy(Vec3(0.0, lim.top - 30.0, 9.0), SECOND, Velocity(0.0, -1.0), None, Pattern003(0))
  }

  /** enemy_spawn_pattern_003: when the entry is ready, spawn the enemy and disarm the entry. */
  method EnemySpawnPattern003(w: World, ready: bool)
    modifies w`spawnQueue, w`enemySchedule
    ensures w.spawnQueue == old(w.spawnQueue) + (if ready then [WaveEnemy003(w.windowSizeLimit)] else [])
    ensures w.enemySchedule == if ready then old(w.enemySchedule).(enemyPattern003 := old(w.enemySchedule).enemyPattern003.(enable := false))
                               else old(w.enemySchedule)
  {
    if ready {
      var y := w.windowSizeLimit.top - 30.0;
      w.spawnQueue := w.spawnQueue + [WaveEnemy(Vec3(0.0, y, 9.0), SECOND, Velocity(0.0, -1.0), None, Pattern003(0))];
      w.enemySchedule := w.enemySchedule.(enemyPattern003 := w.enemySchedule.enemyPattern003.(enable := false));
    }
  }

  /** A freshly spawned enemy sits at phase 0, so its first pass keeps its velocity and turns the sign to +1. */
  lemma FirstPassAtPhaseZero(lim: WindowSizeLimit, m: real)
    ensures Drift(WaveEnemy003(lim), PatternLane, m).velocity == Some(Velocity(0.0, -1.0))
    ensures NextSign(WaveEnemy003(lim), PatternLane, m) == 1.0
  {
    DriftSpec(WaveEnemy003(lim), PatternLane, m);
  }

  /** enemy_move_pattern_003: the lateral-drift pass over this file's tag. */
  method EnemyMovePattern003(w: World)
    modifies w`entities
    ensures w.entities == Drifted(old(w.entities), PatternLane)
  {
    Formations.EnemyMovePattern003(w, PatternLane);
  }
}
