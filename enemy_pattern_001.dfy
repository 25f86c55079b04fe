/**
 * Wave 001 of the pattern files: when its entry is ready, five enemies in a
 * row just above the top edge, at x, 2x, 0, -x and -2x for x a third of the
 * right edge, each drifting down at 0.5 with its own random shoot period.
 * The wave's motion tag is not read by any system of this snapshot.
 */
module EnemyPattern001 {
  import opened Clock
  import opened Define
  import opened Ecs
  import opened Enemies

  /** The five spawn points, in the table's order. */
  function Positions(lim: WindowSizeLimit): (ps: seq<Vec3>)
    ensures |ps| == 5
  {
    var y := lim.top + 30.0;
    var x := lim.right / 3.0;
    [Vec3(x, y, 9.0), Vec3(x * 2.0, y, 9.0), Vec3(0.0, y, 9.0), Vec3(-x, y, 9.0), Vec3(-x * 2.0, y, 9.0)]
  }

  /** The index of a spawn point's mirror image about x = 0. */
  function Mirror(k: nat): nat
    requires k < 5
  {
    [3, 4, 2, 0, 1][k]
  }

  /**
   * The row lies 30 above the top edge on layer 9, is mirror-symmetric
   * about x = 0, and (for a positive right edge) has five distinct columns.
   */
  lemma PositionsMirrorRow(lim: WindowSizeLimit)
    ensures forall k :: 0 <= k < 5 ==> Positions(lim)[k].y == lim.top + 30.0 && Positions(lim)[k].z == 9.0
    ensures forall k :: 0 <= k < 5 ==> Positions(lim)[Mirror(k)].x == -Positions(lim)[k].x
    ensures lim.right > 0.0 ==> forall j, k :: 0 <= j < k < 5 ==> Positions(lim)[j].x != Positions(lim)[k].x
  {
    var ps := Positions(lim);
    var x := lim.right / 3.0;
    assert ps[0].x == x && ps[1].x == x * 2.0 && ps[2].x == 0.0 && ps[3].x == -x && ps[4].x == -x * 2.0;
    if lim.right > 0.0 {
      assert x > 0.0;
    }
  }

  /** The enemies of one firing: drifting down at 0.5, worth no points, tagged for pattern 001. */
  function Wave(lim: WindowSizeLimit, ds: seq<Duration>): seq<Comps>
    requires |ds| == 5
  {
    WaveOf(Positions(lim), ds, Velocity(0.0, -0.5), None, Pattern001)
  }

  /**
   * enemy_spawn_pattern_001: when the entry is ready, spawn the row; each
   * enemy's shoot period ds[k] is a random draw from [1 s, 3 s).
   */
  method EnemySpawnPattern001(w: World, ready: bool, ds: seq<Duration>)
    requires |ds| == 5
    requires forall k :: 0 <= k < |ds| ==> SECOND <= ds[k] < 3 * SECOND
    modifies w`spawnQueue
    ensures w.spawnQueue == old(w.spawnQueue) + (if ready then Wave(w.windowSizeLimit, ds) else [])
  {
    if ready {
      var y := w.windowSizeLimit.top + 30.0;
      var x := w.windowSizeLimit.right / 3.0;
      var positions := [Vec3(x, y, 9.0), Vec3(x * 2.0, y, 9.0), Vec3(0.0, y, 9.0), Vec3(-x, y, 9.0), Vec3(-x * 2.0, y, 9.0)];
      var queue := w.spawnQueue;
      var k := 0;
      while k < |positions|
        invariant 0 <= k <= |positions| == |ds|
        invariant queue == old(w.spawnQueue) + WaveOf(positions[..k], ds[..k], Velocity(0.0, -0.5), None, Pattern001)
      {
        WaveOfStep(positions, ds, Velocity(0.0, -0.5), None, Pattern001, k);
        queue := queue + [WaveEnemy(positions[k], ds[k], Velocity(0.0, -0.5), None, Pattern001)];
        k := k + 1;
      }
      assert positions[..k] == positions && ds[..k] == ds;
      w.spawnQueue := queue;
    }
  }
}
