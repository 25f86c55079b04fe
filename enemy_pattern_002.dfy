/**
 * Wave 002 of the pattern files: one enemy that steers its x toward a
 * target swinging along 100 sin(t), by setting its sideways speed to the
 * remaining gap each frame.
 */
module EnemyPattern002 {
  import opened Clock
  import opened Define
  import opened Ecs
  import opened Enemies
  import opened Common

  /** The wave's enemy: at (0, top + 30) on layer 9, drifting down at 0.5, worth 1 point. */
  function WaveEnemy002(lim: WindowSizeLimit, d: Duration): (c: Comps)
    ensures c.transform == Some(Vec3(0.0, lim.top + 30.0, 9.0)) && c.velocity == Some(Velocity(0.0, -0.5))
    ensures c.enemy == Some(Enemy(FromSeconds(d, Repeating), Some(1.0), None)) && c.movePattern == Pattern002
  {
    WaveEnemy(Vec3(0.0, lim.top + 30.0, 9.0), d, Velocity(0.0, -0.5), Some(1.0), Pattern002)
  }

  /** enemy_spawn_pattern_002: when the entry is ready, spawn the enemy; d is a random draw from [1 s, 3 s). */
  method EnemySpawnPattern002(w: World, ready: bool, d: Duration)
    requires SECOND <= d < 3 * SECOND
    modifies w`spawnQueue
    ensures w.spawnQueue == old(w.spawnQueue) + (if ready then [WaveEnemy002(w.windowSizeLimit, d)] else [])
  {
    if ready {
      var y := w.windowSizeLimit.top + 30.0;
      w.spawnQueue := w.spawnQueue + [WaveEnemy(Vec3(0.0, y, 9.0), d, Velocity(0.0, -0.5), Some(1.0), Pattern002)];
    }
  }

  predicate Steered(c: Comps) {
    c.velocity.Some? && c.transform.Some? && c.movePattern == Pattern002
  }

  /** The enemy's sideways speed set to the gap between the target and its x; nothing else changes. */
  function SteerToward(c: Comps, target: real): (r: Comps)
    ensures Steered(c) ==> r.velocity == Some(Velocity(target - c.transform.value.x, c.velocity.value.y))
    ensures r.(velocity := c.velocity) == c
    ensures !Steered(c) ==> r == c
  {
    if Steered(c) then c.(velocity := Some(c.velocity.value.(x := target - c.transform.value.x))) else c
  }

  /** One Euler step after steering lands the enemy exactly on the target column. */
  lemma SteerThenMoveHitsTarget(c: Comps, target: real)
    requires Steered(c)
    ensures AutoMoved(SteerToward(c, target)).transform.value.x == target
    ensures AutoMoved(SteerToward(c, target)).transform.value.y == c.transform.value.y + c.velocity.value.y
  {
  }

  /** The target column never leaves [-100, 100]. */
  lemma TargetBounded(elapsed: real, sin: Trig)
    requires UnitBounded(sin)
    ensures -100.0 <= sin(elapsed) * 100.0 <= 100.0
  {
    assert -1.0 <= sin(elapsed) <= 1.0;
  }

  /** enemy_move_pattern_002: every tagged enemy steers toward 100 sin(elapsed). */
  method EnemyMovePattern002(w: World, elapsed: real, sin: Trig)
    modifies w`entities
    ensures |w.entities| == |old(w.entities)|
    ensures forall i :: 0 <= i < |w.entities| ==>
              w.entities[i] == Entity(old(w.entities)[i].id, SteerToward(old(w.entities)[i].c, sin(elapsed) * 100.0))
  {
    var x := sin(elapsed) * 100.0;
    var es := w.entities;
    var i := 0;
    while i < |es|
      invariant 0 <= i <= |es| == |old(w.entities)|
      invariant forall k :: 0 <= k < i ==> es[k] == Entity(old(w.entities)[k].id, SteerToward(old(w.entities)[k].c, x))
      invariant forall k :: i <= k < |es| ==> es[k] == old(w.entities)[k]
    {
      var e := es[i];
      if e.c.velocity.Some? && e.c.transform.Some? && e.c.movePattern == Pattern002 {
        es := es[i := Entity(e.id, e.c.(velocity := Some(e.c.velocity.value.(x := x - e.c.transform.value.x))))];
      }
      i := i + 1;
    }
    w.entities := es;
  }
}
