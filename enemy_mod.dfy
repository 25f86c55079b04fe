/**
 * What the enemy systems share: the fire rule every enemy follows, the
 * shape of a wave enemy, the trigonometric and floating-point helpers the
 * motion patterns use, and the schedule the plugin starts with.
 */
module Enemies {
  import opened Clock
  import opened Define
  import opened Ecs

  ////////// numeric helpers

  /** The single-precision value of pi. */
  const PI: real := 3.14159274

  /** A trigonometric function of the engine, supplied by the caller. */
  type Trig = real -> real

  /** Every value of f lies in [-1, 1], as for sine and cosine. */
  ghost predicate UnitBounded(f: Trig) {
    forall a :: -1.0 <= f(a) <= 1.0
  }

  /** sin and cos satisfy the Pythagorean identity. */
  ghost predicate Pythagorean(sin: Trig, cos: Trig) {
    forall a :: sin(a) * sin(a) + cos(a) * cos(a) == 1.0
  }

  /** The integer part of x, rounded toward zero. */
  function Trunc(x: real): (n: int)
    ensures x >= 0.0 ==> n as real <= x < n as real + 1.0
    ensures x < 0.0 ==> n as real - 1.0 < x <= n as real
  {
    if x >= 0.0 then x.Floor else -((-x).Floor)
  }

  /** Multiplying by a positive factor keeps the order. */
  lemma ScaleMonotone(a: real, b: real, m: real)
    requires m > 0.0 && a <= b
    ensures a * m <= b * m && (a < b ==> a * m < b * m)
  {
  }

  /** A quotient bracketed by lo and hi brackets x between lo m and hi m. */
  lemma ScaleBracket(x: real, m: real, lo: real, hi: real)
    requires m > 0.0 && lo <= x / m <= hi
    ensures lo * m <= x <= hi * m
    ensures lo < x / m ==> lo * m < x
    ensures x / m < hi ==> x < hi * m
  {
    var q := x / m;
    ScaleMonotone(lo, q, m);
    ScaleMonotone(q, hi, m);
    assert q * m == x;
  }

  /** The truncated quotient n of x by m brackets x between n m and (n ± 1) m. */
  lemma TruncBracket(x: real, m: real)
    requires m > 0.0
    ensures var n := Trunc(x / m) as real;
      && (x >= 0.0 ==> n * m <= x < n * m + m)
      && (x < 0.0 ==> n * m - m < x <= n * m)
  {
    var n := Trunc(x / m) as real;
    if x >= 0.0 {
      assert x / m >= 0.0;
      ScaleBracket(x, m, n, n + 1.0);
      assert (n + 1.0) * m == n * m + m;
    } else {
      assert x / m < 0.0;
      ScaleBracket(x, m, n - 1.0, n);
      assert (n - 1.0) * m == n * m - m;
    }
  }

  /**
   * The floating-point remainder of x by m: the quotient is truncated, so
   * the result has the sign of x (Rust's % on floats).
   */
  function FMod(x: real, m: real): (r: real)
    requires m > 0.0
    ensures x >= 0.0 ==> 0.0 <= r < m
    ensures x < 0.0 ==> -m < r <= 0.0
    ensures ((x - r) / m).Floor as real == (x - r) / m
  {
    var n := Trunc(x / m) as real;
    TruncBracket(x, m);
    assert x - (x - n * m) == n * m;
    assert (n * m) / m == n;
    assert n.Floor as real == n;
    x - n * m
  }

  ////////// wave enemies

  /** An enemy of some wave: its position, velocity, repeating shoot timer, points and motion tag. */
  function WaveEnemy(p: Vec3, shoot: Duration, v: Velocity, point: Option<real>, tag: MoveTag): (c: Comps)
    ensures c.transform == Some(p) && c.velocity == Some(v)
    ensures c.enemy == Some(Enemy(FromSeconds(shoot, Repeating), point, None))
    ensures c.autoDespawn && c.movePattern == tag
    ensures c.(transform := None, velocity := None, enemy := None, autoDespawn := false, movePattern := NoMove) == NO_COMPONENTS
  {
    NO_COMPONENTS.(transform := Some(p), velocity := Some(v), enemy := Some(Enemy(FromSeconds(shoot, Repeating), point, None)),
                   autoDespawn := true, movePattern := tag)
  }

  /** One wave enemy per spawn point, each with its own shoot period, in table order. */
  function WaveOf(ps: seq<Vec3>, ds: seq<Duration>, v: Velocity, point: Option<real>, tag: MoveTag): (cs: seq<Comps>)
    requires |ds| == |ps|
    ensures |cs| == |ps|
    ensures forall k :: 0 <= k < |ps| ==> cs[k] == WaveEnemy(ps[k], ds[k], v, point, tag)
  {
    seq(|ps|, k requires 0 <= k < |ps| => WaveEnemy(ps[k], ds[k], v, point, tag))
  }

  /** Spawning one more point of the table extends the wave by its enemy. */
  lemma WaveOfStep(ps: seq<Vec3>, ds: seq<Duration>, v: Velocity, point: Option<real>, tag: MoveTag, k: nat)
    requires |ds| == |ps| && k < |ps|
    ensures WaveOf(ps[..k + 1], ds[..k + 1], v, point, tag) == WaveOf(ps[..k], ds[..k], v, point, tag) + [WaveEnemy(ps[k], ds[k], v, point, tag)]
  {
    assert WaveOf(ps[..k + 1], ds[..k + 1], v, point, tag)[..k] == WaveOf(ps[..k], ds[..k], v, point, tag);
  }

  ////////// the initial schedule

  /** The schedule as this snapshot of the plugin declares it: one trigger second per pattern. */
  datatype InitialTriggers = InitialTriggers(enemyPattern001: U64, enemyPattern002: U64, enemyPattern003: U64)

  /** The waves come five seconds apart, in pattern order. */
  function InitialSchedule(): (s: InitialTriggers)
    ensures s.enemyPattern001 < s.enemyPattern002 < s.enemyPattern003
    ensures s.enemyPattern002 - s.enemyPattern001 == s.enemyPattern003 - s.enemyPattern002 == 5
  {
    InitialTriggers(5, 10, 15)
  }

  ////////// enemy_shoot_system

  /** The enemy's shoot timer ticked by delta; nothing else about the entity changes. */
  function ShootTicked(c: Comps, delta: Duration): (r: Comps)
    ensures IsEnemyQ(c) ==> r.enemy == Some(c.enemy.value.(shootInterval := Tick(c.enemy.value.shootInterval, delta)))
    ensures r.(enemy := c.enemy) == c
    ensures !IsEnemyQ(c) ==> r == c
  {
    if IsEnemyQ(c) then c.(enemy := Some(c.enemy.value.(shootInterval := Tick(c.enemy.value.shootInterval, delta)))) else c
  }

  /** The enemy's shoot timer completes a period in this frame. */
  predicate FiresThisFrame(c: Comps, delta: Duration) {
    IsEnemyQ(c) && JustFinished(Tick(c.enemy.value.shootInterval, delta))
  }

  /** An enemy projectile: at the enemy's x and y on layer 0, falling at SHOOT_VELOCITY times the speed factor. */
  function EnemyShot(t: Vec3, speed: real): (c: Comps)
    ensures c.transform == Some(Vec3(t.x, t.y, 0.0))
    ensures c.velocity == Some(Velocity(0.0, -SHOOT_VELOCITY * speed))
    ensures speed > 0.0 ==> c.velocity.value.y < 0.0
    ensures c.autoDespawn && c.fromEnemyShoot && !c.fromPlayerShoot
    ensures c.(transform := None, velocity := None, autoDespawn := false, fromEnemyShoot := false) == NO_COMPONENTS
  {
    NO_COMPONENTS.(transform := Some(Vec3(t.x, t.y, 0.0)), velocity := Some(Velocity(0.0, -SHOOT_VELOCITY * speed)),
                   autoDespawn := true, fromEnemyShoot := true)
  }

  /** The projectiles of one pass, in query order. */
  function EnemyShots(es: seq<Entity>, delta: Duration, speed: real): seq<Comps>
  {
    if es == [] then []
    else
      var e := es[|es| - 1];
      EnemyShots(es[..|es| - 1], delta, speed) + (if FiresThisFrame(e.c, delta) then [EnemyShot(e.c.transform.value, speed)] else [])
  }

  /** Exactly the enemies whose timer completes fire, one projectile each, from their own position. */
  lemma {:induction false} OneShotPerFiringEnemy(es: seq<Entity>, delta: Duration, speed: real)
    ensures |EnemyShots(es, delta, speed)| == |Select(es, c => FiresThisFrame(c, delta))|
    ensures forall k :: 0 <= k < |EnemyShots(es, delta, speed)| ==>
              IsEnemyQ(Select(es, c => FiresThisFrame(c, delta))[k].c) &&
              EnemyShots(es, delta, speed)[k] == EnemyShot(Select(es, c => FiresThisFrame(c, delta))[k].c.transform.value, speed)
  {
    if es != [] {
      OneShotPerFiringEnemy(es[..|es| - 1], delta, speed);
    }
  }

  /** A pass in which no enemy's timer completes spawns nothing. */
  lemma {:induction false} QuietFrameNoShots(es: seq<Entity>, delta: Duration, speed: real)
    requires forall i :: 0 <= i < |es| ==> !FiresThisFrame(es[i].c, delta)
    ensures EnemyShots(es, delta, speed) == []
  {
    if es != [] {
      QuietFrameNoShots(es[..|es| - 1], delta, speed);
    }
  }

  /**
   * enemy_shoot_system: tick every enemy's shoot timer and spawn one
   * projectile from each enemy whose timer just finished; positions are
   * not touched.
   */
  method EnemyShootSystem(w: World, delta: Duration)
    modifies w`entities, w`spawnQueue
    ensures |w.entities| == |old(w.entities)|
    ensures forall i :: 0 <= i < |w.entities| ==>
              w.entities[i] == Entity(old(w.entities)[i].id, ShootTicked(old(w.entities)[i].c, delta))
    ensures w.spawnQueue == old(w.spawnQueue) + EnemyShots(old(w.entities), delta, w.speedControl)
  {
    var es := w.entities;
    var queue := w.spawnQueue;
    var speed := w.speedControl;
    var i := 0;
    while i < |es|
      invariant 0 <= i <= |es| == |old(w.entities)|
      invariant forall k :: 0 <= k < i ==> es[k] == Entity(old(w.entities)[k].id, ShootTicked(old(w.entities)[k].c, delta))
      invariant forall k :: i <= k < |es| ==> es[k] == old(w.entities)[k]
      invariant queue == old(w.spawnQueue) + EnemyShots(old(w.entities)[..i], delta, speed)
    {
      assert old(w.entities)[..i + 1][..i] == old(w.entities)[..i];
      var e := es[i];
      if e.c.transform.Some? && e.c.enemy.Some? {
        var enemy := e.c.enemy.value;
        var t := Tick(enemy.shootInterval, delta);
        es := es[i := Entity(e.id, e.c.(enemy := Some(enemy.(shootInterval := t))))];
        if JustFinished(t) {
          var p := e.c.transform.value;
          queue := queue + [NO_COMPONENTS.(transform := Some(Vec3(p.x, p.y, 0.0)), velocity := Some(Velocity(0.0, -SHOOT_VELOCITY * speed)),
                                           autoDespawn := true, fromEnemyShoot := true)];
        }
      }
      i := i + 1;
    }
    assert old(w.entities)[..|es|] == old(w.entities);
    w.entities := es;
    w.spawnQueue := queue;
  }
}
