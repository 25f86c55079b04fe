/**
 * Wave 006 of the pattern files: two enemies fall side by side, halt at
 * height -100, wait three seconds, and then leave diagonally upward, each
 * toward its own side.
 */
module EnemyPattern006 {
  import opened Clock
  import opened Define
  import opened Ecs
  import opened Enemies
  import opened Common

  ////////// enemy_spawn_pattern_006

  /** The two spawn points, 30 above the top edge at x = 80 and x = -80. */
  function Positions(lim: WindowSizeLimit): (ps: seq<Vec3>)
    ensures |ps| == 2
  {
    var y := lim.top + 30.0;
    [Vec3(80.0, y, 9.0), Vec3(-80.0, y, 9.0)]
  }

  /** The enemies of one firing: falling at 2, worth 1 point, mirror images of each other. */
  function Wave(lim: WindowSizeLimit, ds: seq<Duration>): seq<Comps>
    requires |ds| == 2
  {
    WaveOf(Positions(lim), ds, Velocity(0.0, -2.0), Some(1.0), Pattern006)
  }

  /** The pair mirror each other about x = 0 at the same height, one on each side. */
  lemma WaveIsMirrorPair(lim: WindowSizeLimit, ds: seq<Duration>)
    requires |ds| == 2
    ensures |Wave(lim, ds)| == 2
    ensures Wave(lim, ds)[0].transform.value.x == -Wave(lim, ds)[1].transform.value.x > 0.0
    ensures Wave(lim, ds)[0].transform.value.y == Wave(lim, ds)[1].transform.value.y == lim.top + 30.0
    ensures forall k :: 0 <= k < 2 ==> Wave(lim, ds)[k].velocity == Some(Velocity(0.0, -2.0)) && Wave(lim, ds)[k].movePattern == Pattern006
  {
  }

  /** enemy_spawn_pattern_006: when the entry is ready, spawn the pair; ds[k] is the shoot period drawn for enemy k. */
  method EnemySpawnPattern006(w: World, ready: bool, ds: seq<Duration>)
    requires |ds| == 2
    modifies w`spawnQueue
    ensures w.spawnQueue == old(w.spawnQueue) + (if ready then Wave(w.windowSizeLimit, ds) else [])
  {
    if ready {
      var y := w.windowSizeLimit.top + 30.0;
      var positions := [Vec3(80.0, y, 9.0), Vec3(-80.0, y, 9.0)];
      var queue := w.spawnQueue;
      var k := 0;
      while k < |positions|
        invariant 0 <= k <= |positions| == |ds|
        invariant queue == old(w.spawnQueue) + WaveOf(positions[..k], ds[..k], Velocity(0.0, -2.0), Some(1.0), Pattern006)
      {
        WaveOfStep(positions, ds, Velocity(0.0, -2.0), Some(1.0), Pattern006, k);
        queue := queue + [WaveEnemy(positions[k], ds[k], Velocity(0.0, -2.0), Some(1.0), Pattern006)];
        k := k + 1;
      }
      assert positions[..k] == positions && ds[..k] == ds;
      w.spawnQueue := queue;
    }
  }

  ////////// enemy_move_pattern_006

  /** The halt height, and the height an enemy is nudged to once halted. */
  const HALT_Y: real := -100.0
  const NUDGED_Y: real := -100.1

  /** The wait before leaving: three seconds, once. */
  const WAIT: Duration := 3 * SECOND

  function WaitTimer(): (t: Timer)
    ensures t.mode == Once && t.duration == WAIT && !t.finished
  {
    FromSeconds(WAIT, Once)
  }

  predicate Tagged(c: Comps) {
    c.velocity.Some? && c.transform.Some? && c.movePattern == Pattern006
  }

  /** The enemy is exactly on the halt line (an exact comparison). */
  predicate AtHalt(c: Comps) {
    Tagged(c) && c.transform.value.y == HALT_Y
  }

  /** An enemy on the halt line stops and is nudged just below it; any other entity is unchanged. */
  function Halt(c: Comps): (r: Comps)
    ensures AtHalt(c) ==> r.velocity == Some(Velocity(0.0, 0.0)) && r.transform == Some(c.transform.value.(y := NUDGED_Y))
    ensures r.(velocity := c.velocity, transform := c.transform) == c
    ensures !AtHalt(c) ==> r == c
  {
    if AtHalt(c) then c.(velocity := Some(Velocity(0.0, 0.0)), transform := Some(c.transform.value.(y := NUDGED_Y))) else c
  }

  /**
   * The nudge keeps the halt from firing again: the halted enemy is off the
   * line, and with zero velocity it stays off it frame after frame.
   */
  lemma HaltFiresOnce(c: Comps)
    requires AtHalt(c)
    ensures !AtHalt(Halt(c))
    ensures AutoMoved(Halt(c)) == Halt(c)
  {
  }

  /** The wait timers one pass queues: a fresh one for each enemy on the halt line. */
  function WaitInserts(es: seq<Entity>): map<EntityId, Timer> {
    map id | id in IdsWhere(es, AtHalt) :: WaitTimer()
  }

  lemma WaitInsertsStep(es: seq<Entity>, i: nat)
    requires i < |es|
    ensures WaitInserts(es[..i + 1]) == if AtHalt(es[i].c) then WaitInserts(es[..i])[es[i].id := WaitTimer()] else WaitInserts(es[..i])
  {
    IdsWhereStep(es, AtHalt, i);
  }

  /**
   * enemy_move_pattern_006: every tagged enemy on the halt line stops, is
   * nudged below it, and gets a wait timer (a deferred insertion).
   */
  method EnemyMovePattern006(w: World)
    modifies w`entities, w`waitTimerInserts
    ensures |w.entities| == |old(w.entities)|
    ensures forall i :: 0 <= i < |w.entities| ==> w.entities[i] == Entity(old(w.entities)[i].id, Halt(old(w.entities)[i].c))
    ensures w.waitTimerInserts == old(w.waitTimerInserts) + WaitInserts(old(w.entities))
  {
    var es := w.entities;
    ghost var src := es;
    var inserts := w.waitTimerInserts;
    var i := 0;
    while i < |es|
      invariant 0 <= i <= |es| == |src|
      invariant forall k :: 0 <= k < i ==> es[k] == Entity(src[k].id, Halt(src[k].c))
      invariant forall k :: i <= k < |es| ==> es[k] == src[k]
      invariant inserts == old(w.waitTimerInserts) + WaitInserts(src[..i])
    {
      WaitInsertsStep(src, i);
      var e := es[i];
      if e.c.velocity.Some? && e.c.transform.Some? && e.c.movePattern == Pattern006 {
        if e.c.transform.value.y == -100.0 {
          inserts := inserts[e.id := FromSeconds(3 * SECOND, Once)];
          es := es[i := Entity(e.id, e.c.(velocity := Some(Velocity(0.0, 0.0)), transform := Some(e.c.transform.value.(y := -100.1))))];
        }
      }
      i := i + 1;
    }
    assert src[..i] == src;
    w.entities := es;
    w.waitTimerInserts := inserts;
  }

  ////////// enemy_wait_and_go

  predicate Waiting(c: Comps) {
    Tagged(c) && c.waitTimer.Some?
  }

  /** The departure velocity: up and away toward the enemy's own side (x = 0 counts as right). */
  function Departure(x: real): (v: Velocity)
    ensures v.y == 3.0 && (x >= 0.0 ==> v.x == 3.0) && (x < 0.0 ==> v.x == -3.0)
  {
    if x >= 0.0 then Velocity(3.0, 3.0) else Velocity(-3.0, 3.0)
  }

  /** Tick the wait timer; once it is finished, set the departure velocity. */
  function WaitAndGo(c: Comps, delta: Duration): (r: Comps)
    ensures Waiting(c) ==> Waiting(r) && r.waitTimer == Some(Tick(c.waitTimer.value, delta))
    ensures Waiting(c) && Finished(Tick(c.waitTimer.value, delta)) ==> r.velocity == Some(Departure(c.transform.value.x))
    ensures Waiting(c) && !Finished(Tick(c.waitTimer.value, delta)) ==> r.velocity == c.velocity
    ensures r.(velocity := c.velocity, waitTimer := c.waitTimer) == c
    ensures !Waiting(c) ==> r == c
  {
    if Waiting(c) then
      var t := Tick(c.waitTimer.value, delta);
      var c1 := c.(waitTimer := Some(t));
      if Finished(t) then c1.(velocity := Some(Departure(c.transform.value.x))) else c1
    else c
  }

  /** A fresh wait timer lets the enemy go only once three seconds have been ticked in total. */
  lemma GoesOnlyAfterWait(ds: seq<Duration>)
    ensures TickAll(WaitTimer(), ds).finished <==> ds != [] && Sum(ds) >= WAIT
  {
    FreshOnceRun(WAIT, ds);
  }

  /**
   * The test is on finished, not just finished: once gone, every later
   * frame sets the departure velocity again, whatever the velocity was
   * changed to in between.
   */
  lemma GoIsReapplied(c: Comps, d1: Duration, d2: Duration, u: Velocity)
    requires Waiting(c) && c.waitTimer.value.mode == Once && Finished(Tick(c.waitTimer.value, d1))
    ensures WaitAndGo(WaitAndGo(c, d1).(velocity := Some(u)), d2).velocity == Some(Departure(c.transform.value.x))
  {
  }

  /** enemy_wait_and_go: every waiting enemy of the pattern ticks its timer and, once finished, departs. */
  method EnemyWaitAndGo(w: World, delta: Duration)
    modifies w`entities
    ensures |w.entities| == |old(w.entities)|
    ensures forall i :: 0 <= i < |w.entities| ==> w.entities[i] == Entity(old(w.entities)[i].id, WaitAndGo(old(w.entities)[i].c, delta))
  {
    var es := w.entities;
    var i := 0;
    while i < |es|
      invariant 0 <= i <= |es| == |old(w.entities)|
      invariant forall k :: 0 <= k < i ==> es[k] == Entity(old(w.entities)[k].id, WaitAndGo(old(w.entities)[k].c, delta))
      invariant forall k :: i <= k < |es| ==> es[k] == old(w.entities)[k]
    {
      var e := es[i];
      if e.c.velocity.Some? && e.c.transform.Some? && e.c.waitTimer.Some? && e.c.movePattern == Pattern006 {
        var t := Tick(e.c.waitTimer.value, delta);
        var c := e.c.(waitTimer := Some(t));
        if Finished(t) {
          if e.c.transform.value.x >= 0.0 {
            c := c.(velocity := Some(Velocity(3.0, 3.0)));
          } else {
            c := c.(velocity := Some(Velocity(-3.0, 3.0)));
          }
        }
        es := es[i := Entity(e.id, c)];
      }
      i := i + 1;
    }
    w.entities := es;
  }
}
