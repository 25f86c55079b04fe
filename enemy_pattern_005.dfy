/**
 * Wave 005 of the pattern files: five enemies entering from alternate
 * sides at heights -200 to 200, crossing horizontally while bobbing up to
 * 50 above their spawn height.
 */
module EnemyPattern005 {
  import opened Clock
  import opened Define
  import opened Ecs
  import opened Enemies

  ////////// setup

  /** The spawn table: 50 beyond the left or right edge, heading inward at 0.5, one row per height. */
  function SetupPositions(lim: WindowSizeLimit): (ps: seq<SpawnPosition>)
    ensures |ps| == 5
  {
    [SpawnPosition(lim.left - 50.0, -200.0, 0.5),
     SpawnPosition(lim.right + 50.0, -100.0, -0.5),
     SpawnPosition(lim.left - 50.0, 0.0, 0.5),
     SpawnPosition(lim.right + 50.0, 100.0, -0.5),
     SpawnPosition(lim.left - 50.0, 200.0, 0.5)]
  }

  /**
   * Every row starts outside the window and heads inward: even rows from
   * the left moving right, odd rows from the right moving left; the heights
   * rise by 100 from -200.
   */
  lemma SetupEntersFromAlternateSides(lim: WindowSizeLimit)
    ensures forall k :: 0 <= k < 5 && k % 2 == 0 ==> SetupPositions(lim)[k].x < lim.left && SetupPositions(lim)[k].velocityX > 0.0
    ensures forall k :: 0 <= k < 5 && k % 2 == 1 ==> SetupPositions(lim)[k].x > lim.right && SetupPositions(lim)[k].velocityX < 0.0
    ensures forall k :: 0 <= k < 5 ==> SetupPositions(lim)[k].y == -200.0 + 100.0 * k as real
  {
    var ps := SetupPositions(lim);
    assert ps[0].y == -200.0 && ps[1].y == -100.0 && ps[2].y == 0.0 && ps[3].y == 100.0 && ps[4].y == 200.0;
  }

  /** setup: store the spawn table as a resource. */
  method Setup(w: World)
    modifies w`enemyPositions
    ensures w.enemyPositions == SetupPositions(w.windowSizeLimit)
  {
    var lim := w.windowSizeLimit;
    w.enemyPositions := [
      SpawnPosition(lim.left - 50.0, -200.0, 0.5),
      SpawnPosition(lim.right + 50.0, -100.0, -0.5),
      SpawnPosition(lim.left - 50.0, 0.0, 0.5),
      SpawnPosition(lim.right + 50.0, 100.0, -0.5),
      SpawnPosition(lim.left - 50.0, 200.0, 0.5)];
  }

  ////////// enemy_spawn_pattern_005

  /** The enemy for one table row: horizontal motion only, bobbing around the row's height. */
  function RowEnemy(p: SpawnPosition, d: Duration): (c: Comps)
    ensures c.transform == Some(Vec3(p.x, p.y, 9.0)) && c.velocity == Some(Velocity(p.velocityX, 0.0))
    ensures c.enemy == Some(Enemy(FromSeconds(d, Repeating), Some(1.0), None)) && c.movePattern == Pattern005(p.y)
  {
    WaveEnemy(Vec3(p.x, p.y, 9.0), d, Velocity(p.velocityX, 0.0), Some(1.0), Pattern005(p.y))
  }

  /** One enemy per row, in table order. */
  function Wave(ps: seq<SpawnPosition>, ds: seq<Duration>): (cs: seq<Comps>)
    requires |ds| == |ps|
    ensures |cs| == |ps|
    ensures forall k :: 0 <= k < |ps| ==> cs[k] == RowEnemy(ps[k], ds[k])
  {
    if ps == [] then [] else Wave(ps[..|ps| - 1], ds[..|ds| - 1]) + [RowEnemy(ps[|ps| - 1], ds[|ds| - 1])]
  }

  /**
   * enemy_spawn_pattern_005: when the entry is ready, spawn one enemy per
   * stored row; ds[k] is the shoot period drawn for row k.
   */
  method EnemySpawnPattern005(w: World, ready: bool, ds: seq<Duration>)
    requires |ds| == |w.enemyPositions|
    modifies w`spawnQueue
    ensures w.spawnQueue == old(w.spawnQueue) + (if ready then Wave(w.enemyPositions, ds) else [])
  {
    if ready {
      var ps := w.enemyPositions;
      var queue := w.spawnQueue;
      var k := 0;
      while k < |ps|
        invariant 0 <= k <= |ps| == |ds|
        invariant queue == old(w.spawnQueue) + Wave(ps[..k], ds[..k])
      {
        assert ps[..k + 1][..k] == ps[..k] && ds[..k + 1][..k] == ds[..k];
        var p := ps[k];
        queue := queue + [WaveEnemy(Vec3(p.x, p.y, 9.0), ds[k], Velocity(p.velocityX, 0.0), Some(1.0), Pattern005(p.y))];
        k := k + 1;
      }
      assert ps[..k] == ps && ds[..k] == ds;
      w.spawnQueue := queue;
    }
  }

  ////////// enemy_move_pattern_005

  function Abs(x: real): (r: real)
    ensures r >= 0.0 && (r == x || r == -x)
  {
    if x >= 0.0 then x else -x
  }

  predicate Bobbing(c: Comps) {
    c.transform.Some? && c.movePattern.Pattern005?
  }

  /** The enemy's height set to its base plus |s|; x, depth and all else unchanged. */
  function Bob(c: Comps, s: real): (r: Comps)
    ensures Bobbing(c) ==> r.transform == Some(c.transform.value.(y := c.movePattern.baseY + Abs(s)))
    ensures r.(transform := c.transform) == c
    ensures !Bobbing(c) ==> r == c
  {
    if Bobbing(c) then c.(transform := Some(c.transform.value.(y := c.movePattern.baseY + Abs(s)))) else c
  }

  /** The enemy never dips below its spawn height nor rises more than 50 above it. */
  lemma BobWithinBand(c: Comps, elapsed: real, sin: Trig)
    requires Bobbing(c) && UnitBounded(sin)
    ensures c.movePattern.baseY <= Bob(c, sin(elapsed) * 50.0).transform.value.y <= c.movePattern.baseY + 50.0
  {
    assert -1.0 <= sin(elapsed) <= 1.0;
  }

  /** The vertical placement does not depend on where the enemy was, only on its base and the time. */
  lemma BobForgetsHeight(c: Comps, y: real, s: real)
    requires Bobbing(c)
    ensures Bob(c.(transform := Some(c.transform.value.(y := y))), s) == Bob(c, s)
  {
  }

  /** enemy_move_pattern_005: every bobbing enemy is placed at its base plus |50 sin(elapsed)|. */
  method EnemyMovePattern005(w: World, elapsed: real, sin: Trig)
    modifies w`entities
    ensures |w.entities| == |old(w.entities)|
    ensures forall i :: 0 <= i < |w.entities| ==>
              w.entities[i] == Entity(old(w.entities)[i].id, Bob(old(w.entities)[i].c, sin(elapsed) * 50.0))
  {
    var s := sin(elapsed) * 50.0;
    var es := w.entities;
    var i := 0;
    while i < |es|
      invariant 0 <= i <= |es| == |old(w.entities)|
      invariant forall k :: 0 <= k < i ==> es[k] == Entity(old(w.entities)[k].id, Bob(old(w.entities)[k].c, s))
      invariant forall k :: i <= k < |es| ==> es[k] == old(w.entities)[k]
    {
      var e := es[i];
      if e.c.transform.Some? && e.c.movePattern.Pattern005? {
        es := es[i := Entity(e.id, e.c.(transform := Some(e.c.transform.value.(y := e.c.movePattern.baseY + Abs(s)))))];
      }
      i := i + 1;
    }
    w.entities := es;
  }
}
