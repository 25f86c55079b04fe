/**
 * Wave 004 of the pattern files: one enemy circling at radius 100 around
 * the column x = 0 and a centre height base_y that itself drifts down by
 * the enemy's vertical speed every frame.
 */
module EnemyPattern004 {
  import opened Clock
  import opened Define
  import opened Ecs
  import opened Enemies

  /** The wave's enemy: at (0, top + 30) on layer 9, worth 1 point, circling around its spawn height. */
  function WaveEnemy004(lim: WindowSizeLimit, d: Duration): (c: Comps)
    ensures c.transform == Some(Vec3(0.0, lim.top + 30.0, 9.0)) && c.velocity == Some(Velocity(0.0, -0.5))
    ensures c.enemy == Some(Enemy(FromSeconds(d, Repeating), Some(1.0), None))
    ensures c.movePattern == Pattern004(lim.top + 30.0)
  {
    WaveEnemy(Vec3(0.0, lim.top + 30.0, 9.0), d, Velocity(0.0, -0.5), Some(1.0), Pattern004(lim.top + 30.0))
  }

  /** enemy_spawn_pattern_004: when the entry is ready, spawn the enemy; d is a random draw from [1 s, 3 s). */
  method EnemySpawnPattern004(w: World, ready: bool, d: Duration)
    requires SECOND <= d < 3 * SECOND
    modifies w`spawnQueue
    ensures w.spawnQueue == old(w.spawnQueue) + (if ready then [WaveEnemy004(w.windowSizeLimit, d)] else [])
  {
    if ready {
      var y := w.windowSizeLimit.top + 30.0;
      w.spawnQueue := w.spawnQueue + [WaveEnemy(Vec3(0.0, y, 9.0), d, Velocity(0.0, -0.5), Some(1.0), Pattern004(y))];
    }
  }

  /** The orbit angle in degrees: 100 degrees per second of elapsed time, modulo a full turn. */
  function Theta(elapsed: real): (r: real)
    ensures elapsed >= 0.0 ==> 0.0 <= r < 360.0
  {
    FMod(elapsed * 100.0, 360.0)
  }

  /**
   * The offset from the orbit's centre at this frame, shared by every
   * orbiting enemy; each coordinate lies within [-100, 100].
   */
  function Offset(elapsed: real, sin: Trig, cos: Trig): (r: Vec2)
    ensures UnitBounded(sin) && UnitBounded(cos) ==> -100.0 <= r.x <= 100.0 && -100.0 <= r.y <= 100.0
  {
    var radian := 2.0 * PI * (Theta(elapsed) / 360.0);
    Vec2(cos(radian) * 100.0, sin(radian) * 100.0)
  }

  /** Every offset lies on the circle of radius 100. */
  lemma OffsetOnCircle(elapsed: real, sin: Trig, cos: Trig)
    requires Pythagorean(sin, cos)
    ensures Offset(elapsed, sin, cos).x * Offset(elapsed, sin, cos).x + Offset(elapsed, sin, cos).y * Offset(elapsed, sin, cos).y == 10000.0
  {
    var radian := 2.0 * PI * (Theta(elapsed) / 360.0);
    var s, c := sin(radian), cos(radian);
    assert s * s + c * c == 1.0;
    assert (c * 100.0) * (c * 100.0) + (s * 100.0) * (s * 100.0) == 10000.0 * (s * s + c * c);
  }

  predicate Orbiting(c: Comps) {
    c.velocity.Some? && c.transform.Some? && c.movePattern.Pattern004?
  }

  /** The enemy placed at the offset from (0, base_y), and base_y moved by the vertical speed. */
  function Orbit(c: Comps, off: Vec2): (r: Comps)
    ensures Orbiting(c) ==> Orbiting(r) && r.transform == Some(Vec3(off.x, c.movePattern.baseY + off.y, c.transform.value.z))
    ensures Orbiting(c) ==> r.movePattern.baseY == c.movePattern.baseY + c.velocity.value.y && r.velocity == c.velocity
    ensures r.(transform := c.transform, movePattern := c.movePattern) == c
    ensures !Orbiting(c) ==> r == c
  {
    if Orbiting(c) then
      var t := c.transform.value;
      c.(transform := Some(t.(x := off.x, y := c.movePattern.baseY + off.y)),
         movePattern := Pattern004(c.movePattern.baseY + c.velocity.value.y))
    else c
  }

  /** The enemy after a run of frames with the given offsets. */
  function OrbitRun(c: Comps, offs: seq<Vec2>): Comps {
    if offs == [] then c else Orbit(OrbitRun(c, offs[..|offs| - 1]), offs[|offs| - 1])
  }

  /** After n frames the centre has drifted by n times the vertical speed, which is never changed. */
  lemma {:induction false} CentreDrifts(c: Comps, offs: seq<Vec2>)
    requires Orbiting(c)
    ensures Orbiting(OrbitRun(c, offs)) && OrbitRun(c, offs).velocity == c.velocity
    ensures OrbitRun(c, offs).movePattern.baseY == c.movePattern.baseY + |offs| as real * c.velocity.value.y
  {
    if offs != [] {
      CentreDrifts(c, offs[..|offs| - 1]);
      var n := |offs| as real;
      assert (n - 1.0) * c.velocity.value.y + c.velocity.value.y == n * c.velocity.value.y;
    }
  }

  /** With sine and cosine, the enemy sits at distance 100 from the centre it had before the frame. */
  lemma OrbitRadius(c: Comps, elapsed: real, sin: Trig, cos: Trig)
    requires Orbiting(c) && Pythagorean(sin, cos)
    ensures var p := Orbit(c, Offset(elapsed, sin, cos)).transform.value;
      p.x * p.x + (p.y - c.movePattern.baseY) * (p.y - c.movePattern.baseY) == 10000.0
  {
    OffsetOnCircle(elapsed, sin, cos);
  }

  /** enemy_move_pattern_004: every orbiting enemy is placed on its circle and its centre drifts. */
  method EnemyMovePattern004(w: World, elapsed: real, sin: Trig, cos: Trig)
    modifies w`entities
    ensures |w.entities| == |old(w.entities)|
    ensures forall i :: 0 <= i < |w.entities| ==>
              w.entities[i] == Entity(old(w.entities)[i].id, Orbit(old(w.entities)[i].c, Offset(elapsed, sin, cos)))
  {
    var theta := FMod(elapsed * 100.0, 360.0);
    var radian := 2.0 * PI * (theta / 360.0);
    var x := cos(radian) * 100.0;
    var y := sin(radian) * 100.0;
    var es := w.entities;
    var i := 0;
    while i < |es|
      invariant 0 <= i <= |es| == |old(w.entities)|
      invariant forall k :: 0 <= k < i ==> es[k] == Entity(old(w.entities)[k].id, Orbit(old(w.entities)[k].c, Vec2(x, y)))
      invariant forall k :: i <= k < |es| ==> es[k] == old(w.entities)[k]
    {
      var e := es[i];
      if e.c.velocity.Some? && e.c.transform.Some? && e.c.movePattern.Pattern004? {
        var t := e.c.transform.value;
        var baseY := e.c.movePattern.baseY;
        es := es[i := Entity(e.id, e.c.(transform := Some(t.(x := x, y := baseY + y)),
                                        movePattern := Pattern004(baseY + e.c.velocity.value.y)))];
      }
      i := i + 1;
    }
    w.entities := es;
  }
}
