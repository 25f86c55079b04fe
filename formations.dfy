/**
 * The three fire-once formation waves and their motion patterns: a wave
 * entry fires in the frame whose game second equals its trigger while it
 * is armed, spawns one enemy and disarms; tagged enemies then steer
 * sideways by a shared sine, a shared random draw, or a counter-driven
 * lateral drift.
 */
module Formations {
  import opened Clock
  import opened Define
  import opened Ecs
  import opened Enemies

  ////////// the fire-once gate

  /** The entry fires in a frame at game second `seconds`. */
  predicate Fires(e: ScheduleEntry, seconds: U64) {
    e.seconds == seconds && e.enable
  }

  /** The entry after one frame: firing disarms it; its trigger second never changes. */
  function Gate(e: ScheduleEntry, seconds: U64): (r: ScheduleEntry)
    ensures r.seconds == e.seconds
    ensures r.enable <==> e.enable && e.seconds != seconds
  {
    if Fires(e, seconds) then e.(enable := false) else e
  }

  /** The entry after a run of frames with the given game seconds. */
  function GateRun(e: ScheduleEntry, secs: seq<U64>): ScheduleEntry
  {
    if secs == [] then e else Gate(GateRun(e, secs[..|secs| - 1]), secs[|secs| - 1])
  }

  /** How many frames of the run fire the entry. */
  function Firings(e: ScheduleEntry, secs: seq<U64>): nat
  {
    if secs == [] then 0
    else Firings(e, secs[..|secs| - 1]) + (if Fires(GateRun(e, secs[..|secs| - 1]), secs[|secs| - 1]) then 1 else 0)
  }

  /** Along a run, each firing spends the one arming: an entry is fired at most as often as it was armed. */
  lemma {:induction false} FiringSpendsArming(e: ScheduleEntry, secs: seq<U64>)
    ensures GateRun(e, secs).seconds == e.seconds
    ensures Firings(e, secs) + (if GateRun(e, secs).enable then 1 else 0) == (if e.enable then 1 else 0)
  {
    if secs != [] {
      FiringSpendsArming(e, secs[..|secs| - 1]);
    }
  }

  /** An entry fires at most once in any run, and never once disarmed. */
  lemma FiresAtMostOnce(e: ScheduleEntry, secs: seq<U64>)
    ensures Firings(e, secs) <= 1
    ensures !e.enable ==> Firings(e, secs) == 0
  {
    FiringSpendsArming(e, secs);
  }

  /** A run whose game seconds skip the trigger never fires the entry: the test is equality. */
  lemma {:induction false} SkippedTriggerNeverFires(e: ScheduleEntry, secs: seq<U64>)
    requires forall k :: 0 <= k < |secs| ==> secs[k] != e.seconds
    ensures Firings(e, secs) == 0
  {
    if secs != [] {
      SkippedTriggerNeverFires(e, secs[..|secs| - 1]);
      FiringSpendsArming(e, secs[..|secs| - 1]);
    }
  }

  /** An armed entry whose trigger second occurs in the run fires exactly once. */
  lemma {:induction false} ReachedTriggerFiresOnce(e: ScheduleEntry, secs: seq<U64>)
    requires e.enable && e.seconds in secs
    ensures Firings(e, secs) == 1
  {
    var pre := secs[..|secs| - 1];
    FiringSpendsArming(e, pre);
    if e.seconds in pre {
      ReachedTriggerFiresOnce(e, pre);
    } else {
      assert secs == pre + [secs[|secs| - 1]];
      assert forall k :: 0 <= k < |pre| ==> pre[k] != e.seconds;
      SkippedTriggerNeverFires(e, pre);
    }
  }

  ////////// enemy_spawn_pattern_001/002/003

  /** A formation enemy: at (0, top - 30) on layer 9, falling at 1, firing every second, worth no points. */
  function FormationEnemy(lim: WindowSizeLimit, tag: MoveTag): (c: Comps)
    ensures c.transform == Some(Vec3(0.0, lim.top - 30.0, 9.0)) && c.velocity == Some(Velocity(0.0, -1.0))
    ensures c.enemy == Some(Enemy(FromSeconds(SECOND, Repeating), None, None)) && c.autoDespawn && c.movePattern == tag
  {
    WaveEnemy(Vec3(0.0, lim.top - 30.0, 9.0), SECOND, Velocity(0.0, -1.0), None, tag)
  }

  /** The enemies one frame of a formation spawner queues: one when the entry fires, none otherwise. */
  function Spawns(e: ScheduleEntry, seconds: U64, lim: WindowSizeLimit, tag: MoveTag): (cs: seq<Comps>)
    ensures |cs| == (if Fires(e, seconds) then 1 else 0)
    ensures forall c :: c in cs ==> c == FormationEnemy(lim, tag)
  {
    if Fires(e, seconds) then [FormationEnemy(lim, tag)] else []
  }

  /** enemy_spawn_pattern_001: the first formation wave. */
  method EnemySpawnPattern001(w: World)
    modifies w`spawnQueue, w`enemySchedule
    ensures w.enemySchedule == old(w.enemySchedule).(enemyPattern001 := Gate(old(w.enemySchedule).enemyPattern001, w.gameTimer.seconds))
    ensures w.spawnQueue == old(w.spawnQueue) + Spawns(old(w.enemySchedule).enemyPattern001, w.gameTimer.seconds, w.windowSizeLimit, Formation001)
  {
    var entry := w.enemySchedule.enemyPattern001;
    if entry.seconds == w.gameTimer.seconds && entry.enable {
      var y := w.windowSizeLimit.top - 30.0;
      w.spawnQueue := w.spawnQueue + [WaveEnemy(Vec3(0.0, y, 9.0), SECOND, Velocity(0.0, -1.0), None, Formation001)];
      w.enemySchedule := w.enemySchedule.(enemyPattern001 := entry.(enable := false));
    }
  }

  /** enemy_spawn_pattern_002: the second formation wave. */
  method EnemySpawnPattern002(w: World)
    modifies w`spawnQueue, w`enemySchedule
    ensures w.enemySchedule == old(w.enemySchedule).(enemyPattern002 := Gate(old(w.enemySchedule).enemyPattern002, w.gameTimer.seconds))
    ensures w.spawnQueue == old(w.spawnQueue) + Spawns(old(w.enemySchedule).enemyPattern002, w.gameTimer.seconds, w.windowSizeLimit, Formation002)
  {
    var entry := w.enemySchedule.enemyPattern002;
    if entry.seconds == w.gameTimer.seconds && entry.enable {
      var y := w.windowSizeLimit.top - 30.0;
      w.spawnQueue := w.spawnQueue + [WaveEnemy(Vec3(0.0, y, 9.0), SECOND, Velocity(0.0, -1.0), None, Formation002)];
      w.enemySchedule := w.enemySchedule.(enemyPattern002 := entry.(enable := false));
    }
  }

  /** enemy_spawn_pattern_003: the third formation wave, whose enemy starts its lateral counter at 0. */
  method EnemySpawnPattern003(w: World)
    modifies w`spawnQueue, w`enemySchedule
    ensures w.enemySchedule == old(w.enemySchedule).(enemyPattern003 := Gate(old(w.enemySchedule).enemyPattern003, w.gameTimer.seconds))
    ensures w.spawnQueue == old(w.spawnQueue) + Spawns(old(w.enemySchedule).enemyPattern003, w.gameTimer.seconds, w.windowSizeLimit, Formation003(0))
  {
    var entry := w.enemySchedule.enemyPattern003;
    if entry.seconds == w.gameTimer.seconds && entry.enable {
      var y := w.windowSizeLimit.top - 30.0;
      w.spawnQueue := w.spawnQueue + [WaveEnemy(Vec3(0.0, y, 9.0), SECOND, Velocity(0.0, -1.0), None, Formation003(0))];
      w.enemySchedule := w.enemySchedule.(enemyPattern003 := entry.(enable := false));
    }
  }

  ////////// enemy_move_pattern_001/002

  /** The entity's horizontal velocity set to x when it has a velocity and the tag; nothing else changes. */
  function SteerX(c: Comps, tag: MoveTag, x: real): (r: Comps)
    ensures c.velocity.Some? && c.movePattern == tag ==> r.velocity == Some(Velocity(x, c.velocity.value.y))
    ensures r.(velocity := c.velocity) == c
    ensures !(c.velocity.Some? && c.movePattern == tag) ==> r == c
  {
    if c.velocity.Some? && c.movePattern == tag then c.(velocity := Some(c.velocity.value.(x := x))) else c
  }

  /**
   * The shared sideways speed of pattern 001: pi times the sine of the
   * elapsed seconds modulo 60, so never more than pi in magnitude.
   */
  function Sway001(elapsed: real, sin: Trig): (r: real)
    ensures UnitBounded(sin) ==> -PI <= r <= PI
  {
    PI * sin(FMod(elapsed, 60.0))
  }

  /** The sine's argument stays within one minute. */
  lemma SwayArgumentInMinute(elapsed: real)
    requires elapsed >= 0.0
    ensures 0.0 <= FMod(elapsed, 60.0) < 60.0
  {
  }

  /** Steers every tagged enemy of the store to x, in place. */
  method SteerAll(w: World, tag: MoveTag, x: real)
    modifies w`entities
    ensures |w.entities| == |old(w.entities)|
    ensures forall i :: 0 <= i < |w.entities| ==> w.entities[i] == Entity(old(w.entities)[i].id, SteerX(old(w.entities)[i].c, tag, x))
  {
    var es := w.entities;
    var i := 0;
    while i < |es|
      invariant 0 <= i <= |es| == |old(w.entities)|
      invariant forall k :: 0 <= k < i ==> es[k] == Entity(old(w.entities)[k].id, SteerX(old(w.entities)[k].c, tag, x))
      invariant forall k :: i <= k < |es| ==> es[k] == old(w.entities)[k]
    {
      var e := es[i];
      if e.c.velocity.Some? && e.c.movePattern == tag {
        es := es[i := Entity(e.id, e.c.(velocity := Some(e.c.velocity.value.(x := x))))];
      }
      i := i + 1;
    }
    w.entities := es;
  }

  /** enemy_move_pattern_001: every pattern-001 enemy gets the same sideways speed, from the elapsed time. */
  method EnemyMovePattern001(w: World, elapsed: real, sin: Trig)
    modifies w`entities
    ensures |w.entities| == |old(w.entities)|
    ensures forall i :: 0 <= i < |w.entities| ==>
              w.entities[i] == Entity(old(w.entities)[i].id, SteerX(old(w.entities)[i].c, Formation001, Sway001(elapsed, sin)))
  {
    var x := PI * sin(FMod(elapsed, 60.0));
    SteerAll(w, Formation001, x);
  }

  /**
   * enemy_move_pattern_002: every pattern-002 enemy gets the same sideways
   * speed x, one random draw from [-10, 10) per frame.
   */
  method EnemyMovePattern002(w: World, x: real)
    requires -10.0 <= x < 10.0
    modifies w`entities
    ensures |w.entities| == |old(w.entities)|
    ensures forall i :: 0 <= i < |w.entities| ==>
              w.entities[i] == Entity(old(w.entities)[i].id, SteerX(old(w.entities)[i].c, Formation002, x))
    ensures forall i :: 0 <= i < |w.entities| && w.entities[i].c.velocity.Some? && w.entities[i].c.movePattern == Formation002 ==>
              -10.0 <= w.entities[i].c.velocity.value.x < 10.0
  {
    SteerAll(w, Formation002, x);
  }

  ////////// enemy_move_pattern_003

  /** Which of the two lateral-drift tags a pass runs over: the formations' own or the pattern file's. */
  datatype Lane = FormationLane | PatternLane

  /** The entity is in the pass: it has a velocity and the lane's counter tag. */
  predicate InLane(c: Comps, lane: Lane) {
    c.velocity.Some? && (if lane == FormationLane then c.movePattern.Formation003? else c.movePattern.Pattern003?)
  }

  /** Where the entity is in its 200-frame cycle. */
  function Phase(c: Comps, lane: Lane): nat
    requires InLane(c, lane)
  {
    c.movePattern.counter % 200
  }

  /** The carried sign after the loop has visited c: phase 0 sets it to +1, phase 100 to -1. */
  function NextSign(c: Comps, lane: Lane, m: real): real {
    if InLane(c, lane) && Phase(c, lane) == 0 then 1.0
    else if InLane(c, lane) && Phase(c, lane) == 100 then -1.0
    else m
  }

  /** The carried sign when the loop reaches the entity after es; it starts at -1 in every pass. */
  function SignBefore(es: seq<Entity>, lane: Lane): real {
    if es == [] then -1.0 else NextSign(es[|es| - 1].c, lane, SignBefore(es[..|es| - 1], lane))
  }

  /** One entity of the pass with carried sign m. */
  function Drift(c: Comps, lane: Lane, m: real): (r: Comps)
    ensures r.(velocity := c.velocity, movePattern := c.movePattern) == c
    ensures !InLane(c, lane) ==> r == c
  {
    if InLane(c, lane) then
      var a := Phase(c, lane);
      var v := c.velocity.value;
      var v1 := if a == 0 || a == 100 then v else v.(x := v.x + m);
      c.(velocity := Some(v1), movePattern := c.movePattern.(counter := c.movePattern.counter + 1))
    else c
  }

  /**
   * The counter advances by one; on the phase frames the velocity is kept,
   * on the others its x moves by m; velocity.y and all other components
   * are never touched; entities outside the lane are unchanged.
   */
  lemma DriftSpec(c: Comps, lane: Lane, m: real)
    ensures var r := Drift(c, lane, m);
      && (InLane(c, lane) ==> InLane(r, lane) && r.movePattern.counter == c.movePattern.counter + 1)
      && (InLane(c, lane) ==> r.velocity.value.y == c.velocity.value.y)
      && (InLane(c, lane) && (Phase(c, lane) == 0 || Phase(c, lane) == 100) ==> r.velocity == c.velocity)
      && (InLane(c, lane) && Phase(c, lane) != 0 && Phase(c, lane) != 100 ==> r.velocity.value.x == c.velocity.value.x + m)
      && r.(velocity := c.velocity, movePattern := c.movePattern) == c
      && (!InLane(c, lane) ==> r == c)
  {
  }

  /** The carried sign is always +1 or -1, so every drift step is one unit. */
  lemma {:induction false} SignIsUnit(es: seq<Entity>, lane: Lane)
    ensures SignBefore(es, lane) == 1.0 || SignBefore(es, lane) == -1.0
  {
    if es != [] {
      SignIsUnit(es[..|es| - 1], lane);
    }
  }

  /** The sign is +1 only after some earlier entity of the pass sat at phase 0. */
  lemma {:induction false} PlusNeedsPhaseZero(es: seq<Entity>, lane: Lane)
    requires SignBefore(es, lane) == 1.0
    ensures exists k :: 0 <= k < |es| && InLane(es[k].c, lane) && Phase(es[k].c, lane) == 0
  {
    var pre := es[..|es| - 1];
    var last := es[|es| - 1];
    if !(InLane(last.c, lane) && Phase(last.c, lane) == 0) {
      PlusNeedsPhaseZero(pre, lane);
      var k :| 0 <= k < |pre| && InLane(pre[k].c, lane) && Phase(pre[k].c, lane) == 0;
      assert es[k] == pre[k];
    }
  }

  /** With no entity of the lane before it in the pass, the sign is still -1. */
  lemma {:induction false} FirstInLaneSeesMinus(es: seq<Entity>, lane: Lane)
    requires forall k :: 0 <= k < |es| ==> !InLane(es[k].c, lane)
    ensures SignBefore(es, lane) == -1.0
  {
    if es != [] {
      FirstInLaneSeesMinus(es[..|es| - 1], lane);
    }
  }

  /** The first (in particular, a lone) enemy of the lane slows by exactly 1 on every non-phase frame. */
  lemma LoneEnemyDecelerates(es: seq<Entity>, lane: Lane, i: nat)
    requires i < |es| && InLane(es[i].c, lane) && Phase(es[i].c, lane) != 0 && Phase(es[i].c, lane) != 100
    requires forall k :: 0 <= k < i ==> !InLane(es[k].c, lane)
    ensures Drift(es[i].c, lane, SignBefore(es[..i], lane)).velocity.value.x == es[i].c.velocity.value.x - 1.0
  {
    FirstInLaneSeesMinus(es[..i], lane);
    DriftSpec(es[i].c, lane, -1.0);
  }

  /** The whole pass, entity by entity, with the sign carried along. */
  function Drifted(es: seq<Entity>, lane: Lane): (r: seq<Entity>)
    ensures |r| == |es|
  {
    if es == [] then []
    else
      var pre := es[..|es| - 1];
      Drifted(pre, lane) + [Entity(es[|es| - 1].id, Drift(es[|es| - 1].c, lane, SignBefore(pre, lane)))]
  }

  /** Entity i of the pass is drifted with the sign its predecessors left. */
  lemma {:induction false} DriftedAt(es: seq<Entity>, lane: Lane, i: nat)
    requires i < |es|
    ensures Drifted(es, lane)[i] == Entity(es[i].id, Drift(es[i].c, lane, SignBefore(es[..i], lane)))
  {
    var pre := es[..|es| - 1];
    if i < |pre| {
      DriftedAt(pre, lane, i);
      assert pre[..i] == es[..i];
    }
  }

  lemma DriftedStep(es: seq<Entity>, lane: Lane, i: nat)
    requires i < |es|
    ensures SignBefore(es[..i + 1], lane) == NextSign(es[i].c, lane, SignBefore(es[..i], lane))
    ensures Drifted(es[..i + 1], lane) == Drifted(es[..i], lane) + [Entity(es[i].id, Drift(es[i].c, lane, SignBefore(es[..i], lane)))]
  {
    assert es[..i + 1][..i] == es[..i];
  }

  /** enemy_move_pattern_003: one pass over the lane with the sign carried from entity to entity. */
  method EnemyMovePattern003(w: World, lane: Lane)
    modifies w`entities
    ensures w.entities == Drifted(old(w.entities), lane)
  {
    var es := w.entities;
    ghost var src := es;
    var m := -1.0;
    var i := 0;
    while i < |es|
      invariant 0 <= i <= |es| == |src|
      invariant m == SignBefore(src[..i], lane)
      invariant es[..i] == Drifted(src[..i], lane)
      invariant es[i..] == src[i..]
    {
      DriftedStep(src, lane, i);
      var e := es[i];
      assert e == src[i] by {
        assert es[i..][0] == src[i..][0];
      }
      ghost var m0 := m;
      ghost var before := es;
      if InLane(e.c, lane) {
        var a := e.c.movePattern.counter % 200;
        var v := e.c.velocity.value;
        if a == 0 {
          m := 1.0;
        } else if a == 100 {
          m := -1.0;
        } else {
          v := v.(x := v.x + 1.0 * m);
        }
        es := es[i := Entity(e.id, e.c.(velocity := Some(v), movePattern := e.c.movePattern.(counter := e.c.movePattern.counter + 1)))];
      }
      assert es == before[i := Entity(src[i].id, Drift(src[i].c, lane, m0))];
      assert m == NextSign(src[i].c, lane, m0);
      assert es[..i + 1] == before[..i] + [es[i]];
      assert es[i + 1..] == before[i + 1..];
      assert before[i + 1..] == before[i..][1..];
      assert src[i + 1..] == src[i..][1..];
      i := i + 1;
    }
    assert es == es[..i];
    assert src == src[..i];
    w.entities := es;
  }

  /** After the pass, entity i has been drifted with the sign carried from the entities before it. */
  lemma PassSpec(es: seq<Entity>, lane: Lane, i: nat)
    requires i < |es|
    ensures Drifted(es, lane)[i].id == es[i].id
    ensures var m := SignBefore(es[..i], lane);
      && (m == 1.0 || m == -1.0)
      && Drifted(es, lane)[i].c == Drift(es[i].c, lane, m)
  {
    DriftedAt(es, lane, i);
    SignIsUnit(es[..i], lane);
  }
}
