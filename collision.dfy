/**
 * The three pairwise collision rules. Each runs over query snapshots taken
 * before any removal; despawns and bang markers are queued commands, so
 * every pair is judged against the same snapshot.
 */
module Collision {
  import opened Clock
  import opened Define
  import opened Ecs
  import opened PlayerSystems

  /** The engine's box-overlap test: collide(a_position, a_size, b_position, b_size) is not None. */
  type Collide = (Vec3, Vec2, Vec3, Vec2) -> bool

  /** a, sized ra, overlaps b, sized rb. */
  predicate Hits(collide: Collide, a: Entity, ra: real, b: Entity, rb: real) {
    a.c.transform.Some? && b.c.transform.Some? &&
    collide(a.c.transform.value, Vec2(ra, ra), b.c.transform.value, Vec2(rb, rb))
  }

  datatype Hit = Hit(first: Entity, second: Entity)

  /** The hits of a against the entities of bs, in the inner loop's order. */
  function PairsFor(collide: Collide, a: Entity, ra: real, bs: seq<Entity>, rb: real): seq<Hit>
  {
    if bs == [] then []
    else
      var b := bs[|bs| - 1];
      PairsFor(collide, a, ra, bs[..|bs| - 1], rb) + (if Hits(collide, a, ra, b, rb) then [Hit(a, b)] else [])
  }

  /** The hits of every a of xs against every b of bs, outer loop over xs. */
  function AllHits(collide: Collide, xs: seq<Entity>, ra: real, bs: seq<Entity>, rb: real): seq<Hit>
  {
    if xs == [] then []
    else AllHits(collide, xs[..|xs| - 1], ra, bs, rb) + PairsFor(collide, xs[|xs| - 1], ra, bs, rb)
  }

  lemma {:induction false} PairsForIff(collide: Collide, a: Entity, ra: real, bs: seq<Entity>, rb: real, h: Hit)
    ensures h in PairsFor(collide, a, ra, bs, rb) <==> h.first == a && h.second in bs && Hits(collide, a, ra, h.second, rb)
  {
    if bs != [] {
      PairsForIff(collide, a, ra, bs[..|bs| - 1], rb, h);
      assert forall b :: b in bs <==> b in bs[..|bs| - 1] || b == bs[|bs| - 1];
    }
  }

  /** A pair is a hit exactly when it is an overlapping pair of the two snapshots. */
  lemma {:induction false} AllHitsIff(collide: Collide, xs: seq<Entity>, ra: real, bs: seq<Entity>, rb: real, h: Hit)
    ensures h in AllHits(collide, xs, ra, bs, rb) <==> h.first in xs && h.second in bs && Hits(collide, h.first, ra, h.second, rb)
  {
    if xs != [] {
      AllHitsIff(collide, xs[..|xs| - 1], ra, bs, rb, h);
      PairsForIff(collide, xs[|xs| - 1], ra, bs, rb, h);
      assert forall a :: a in xs <==> a in xs[..|xs| - 1] || a == xs[|xs| - 1];
    }
  }

  /** Pairs that do not overlap cause no hit, so no change at all. */
  lemma NoOverlapNoHits(collide: Collide, xs: seq<Entity>, ra: real, bs: seq<Entity>, rb: real)
    requires forall a, b :: a in xs && b in bs ==> !Hits(collide, a, ra, b, rb)
    ensures AllHits(collide, xs, ra, bs, rb) == []
  {
    var hs := AllHits(collide, xs, ra, bs, rb);
    if hs != [] {
      AllHitsIff(collide, xs, ra, bs, rb, hs[0]);
      assert false;
    }
  }

  /** Extending the inner loop's scanned prefix by one entity. */
  lemma PairsForStep(collide: Collide, a: Entity, ra: real, bs: seq<Entity>, rb: real, j: nat)
    requires j < |bs|
    ensures PairsFor(collide, a, ra, bs[..j + 1], rb) ==
              PairsFor(collide, a, ra, bs[..j], rb) + (if Hits(collide, a, ra, bs[j], rb) then [Hit(a, bs[j])] else [])
  {
    assert bs[..j + 1][..j] == bs[..j];
  }

  /** Extending the outer loop's scanned prefix by one entity. */
  lemma AllHitsStep(collide: Collide, xs: seq<Entity>, ra: real, bs: seq<Entity>, rb: real, i: nat)
    requires i < |xs|
    ensures AllHits(collide, xs[..i + 1], ra, bs, rb) ==
              AllHits(collide, xs[..i], ra, bs, rb) + PairsFor(collide, xs[i], ra, bs, rb)
  {
    assert xs[..i + 1][..i] == xs[..i];
  }

  /** Both entities of every hit. */
  function HitIds(hs: seq<Hit>): set<EntityId>
  {
    if hs == [] then {} else HitIds(hs[..|hs| - 1]) + {hs[|hs| - 1].first.id, hs[|hs| - 1].second.id}
  }

  lemma {:induction false} HitIdsIff(hs: seq<Hit>, id: EntityId)
    ensures id in HitIds(hs) <==> exists k :: 0 <= k < |hs| && (hs[k].first.id == id || hs[k].second.id == id)
  {
    if hs != [] {
      var pre := hs[..|hs| - 1];
      HitIdsIff(pre, id);
      if exists k :: 0 <= k < |pre| && (pre[k].first.id == id || pre[k].second.id == id) {
        var k :| 0 <= k < |pre| && (pre[k].first.id == id || pre[k].second.id == id);
        assert hs[k] == pre[k];
      }
      if exists k :: 0 <= k < |hs| && (hs[k].first.id == id || hs[k].second.id == id) {
        var k :| 0 <= k < |hs| && (hs[k].first.id == id || hs[k].second.id == id);
        if k < |pre| {
          assert pre[k] == hs[k];
        }
      }
    }
  }

  lemma HitIdsSnoc(hs: seq<Hit>, h: Hit)
    ensures HitIds(hs + [h]) == HitIds(hs) + {h.first.id, h.second.id}
  {
    assert (hs + [h])[..|hs|] == hs;
  }

  /** A bang point at the x and y of a position. */
  function BangPointAt(t: Vec3): (c: Comps)
    ensures c.showBangPoint == Some(ShowBangPoint(t.x, t.y))
    ensures c.(showBangPoint := None) == NO_COMPONENTS
  {
    NO_COMPONENTS.(showBangPoint := Some(ShowBangPoint(t.x, t.y)))
  }

  function PositionOf(e: Entity): Vec3 {
    if e.c.transform.Some? then e.c.transform.value else Vec3(0.0, 0.0, 0.0)
  }

  /** One bang point per hit, at the first entity's position. */
  function FirstBangs(hs: seq<Hit>): seq<Comps>
  {
    if hs == [] then [] else FirstBangs(hs[..|hs| - 1]) + [BangPointAt(PositionOf(hs[|hs| - 1].first))]
  }

  /** The k-th bang point belongs to the k-th hit. */
  lemma {:induction false} FirstBangsAt(hs: seq<Hit>)
    ensures |FirstBangs(hs)| == |hs|
    ensures forall k :: 0 <= k < |hs| ==> FirstBangs(hs)[k] == BangPointAt(PositionOf(hs[k].first))
  {
    if hs != [] {
      FirstBangsAt(hs[..|hs| - 1]);
    }
  }

  lemma FirstBangsSnoc(hs: seq<Hit>, h: Hit)
    ensures FirstBangs(hs + [h]) == FirstBangs(hs) + [BangPointAt(PositionOf(h.first))]
  {
    assert (hs + [h])[..|hs|] == hs;
  }

  lemma {:induction false} FirstBangsAppend(h1: seq<Hit>, h2: seq<Hit>)
    ensures FirstBangs(h1 + h2) == FirstBangs(h1) + FirstBangs(h2)
  {
    if h2 == [] {
      assert h1 + h2 == h1;
    } else {
      FirstBangsAppend(h1, h2[..|h2| - 1]);
      assert (h1 + h2)[..|h1 + h2| - 1] == h1 + h2[..|h2| - 1];
    }
  }

  /** Two bang points per hit: the first entity's position, then the second's. */
  function BothBangs(hs: seq<Hit>): seq<Comps>
  {
    if hs == [] then []
    else BothBangs(hs[..|hs| - 1]) + [BangPointAt(PositionOf(hs[|hs| - 1].first)), BangPointAt(PositionOf(hs[|hs| - 1].second))]
  }

  /** Bang points 2k and 2k+1 belong to the k-th hit, first entity first. */
  lemma {:induction false} BothBangsAt(hs: seq<Hit>)
    ensures |BothBangs(hs)| == 2 * |hs|
    ensures forall k :: 0 <= k < |hs| ==>
              BothBangs(hs)[2 * k] == BangPointAt(PositionOf(hs[k].first)) &&
              BothBangs(hs)[2 * k + 1] == BangPointAt(PositionOf(hs[k].second))
  {
    if hs != [] {
      BothBangsAt(hs[..|hs| - 1]);
    }
  }

  lemma BothBangsSnoc(hs: seq<Hit>, h: Hit)
    ensures BothBangs(hs + [h]) == BothBangs(hs) + [BangPointAt(PositionOf(h.first)), BangPointAt(PositionOf(h.second))]
  {
    assert (hs + [h])[..|hs|] == hs;
  }

  predicate IsPlayerShotQ(c: Comps) {
    c.transform.Some? && c.fromPlayerShoot
  }

  predicate IsEnemyShotQ(c: Comps) {
    c.transform.Some? && c.fromEnemyShoot
  }

  ////////// player_shoot_collision_system

  /** Enemy boxes are ENEMY_RADIUS wide, player-shot boxes PLAYER_RADIUS (not SHOOT_RADIUS). */
  function PlayerShotHits(collide: Collide, es: seq<Entity>): seq<Hit>
  {
    AllHits(collide, Select(es, IsEnemyQ), ENEMY_RADIUS, Select(es, IsPlayerShotQ), PLAYER_RADIUS)
  }

  /**
   * An enemy hit by two shots in one pass yields two hits, hence two bang
   * points at its position: removal is deferred, so the enemy is still in
   * the snapshot for the second shot.
   */
  lemma TwoShotsTwoBangs(collide: Collide, es: seq<Entity>, e: Entity, s1: Entity, s2: Entity)
    requires e in es && IsEnemyQ(e.c)
    requires s1 in es && s2 in es && s1 != s2 && IsPlayerShotQ(s1.c) && IsPlayerShotQ(s2.c)
    requires Hits(collide, e, ENEMY_RADIUS, s1, PLAYER_RADIUS) && Hits(collide, e, ENEMY_RADIUS, s2, PLAYER_RADIUS)
    ensures exists k1, k2 :: 0 <= k1 < k2 < |FirstBangs(PlayerShotHits(collide, es))| &&
              FirstBangs(PlayerShotHits(collide, es))[k1] == BangPointAt(e.c.transform.value) &&
              FirstBangs(PlayerShotHits(collide, es))[k2] == BangPointAt(e.c.transform.value)
  {
    var hs := PlayerShotHits(collide, es);
    var enemies, shots := Select(es, IsEnemyQ), Select(es, IsPlayerShotQ);
    assert forall i :: 0 <= i < |es| && IsEnemyQ(es[i].c) ==> es[i] in enemies;
    assert forall i :: 0 <= i < |es| && IsPlayerShotQ(es[i].c) ==> es[i] in shots;
    AllHitsIff(collide, enemies, ENEMY_RADIUS, shots, PLAYER_RADIUS, Hit(e, s1));
    AllHitsIff(collide, enemies, ENEMY_RADIUS, shots, PLAYER_RADIUS, Hit(e, s2));
    var k1 :| 0 <= k1 < |hs| && hs[k1] == Hit(e, s1);
    var k2 :| 0 <= k2 < |hs| && hs[k2] == Hit(e, s2);
    FirstBangsAt(hs);
    if k1 < k2 {
      assert FirstBangs(hs)[k1] == BangPointAt(e.c.transform.value);
    } else {
      assert k2 < k1;
      assert FirstBangs(hs)[k2] == BangPointAt(e.c.transform.value);
    }
  }



  ////////// enemy_shoot_collision_system

  /** The player's status after a death: respawn pending and a fresh three-second Once timer. */
  function Died(s: PlayerStatus): (r: PlayerStatus)
    ensures r.isSpawn && r.timer == FromSeconds(RESPAWN_DELAY, Once) && r.score == s.score
  {
    s.(isSpawn := true, timer := FromSeconds(RESPAWN_DELAY, Once))
  }



  ////////// player_enemy_collision_system

  /** u32 subtraction of one, wrapping as a release build does. */
  function WrappingDec(c: U32): (r: U32)
    ensures c >= 1 ==> r == c - 1
    ensures c == 0 ==> r == U32_LIMIT - 1
  {
    if c == 0 then U32_LIMIT - 1 else c - 1
  }

  /** n decrements in turn. */
  function DecTimes(c: U32, n: nat): U32
  {
    if n == 0 then c else WrappingDec(DecTimes(c, n - 1))
  }

  /** With enough live enemies counted, n collisions lower the counter by exactly n. */
  lemma {:induction false} DecTimesExact(c: U32, n: nat)
    requires n <= c
    ensures DecTimes(c, n) == c - n
  {
    if n > 0 {
      DecTimesExact(c, n - 1);
    }
  }

  /** A collision with the counter at zero wraps it to the top of the u32 range. */
  lemma DecFromZeroWraps()
    ensures DecTimes(0, 1) == U32_LIMIT - 1
  {
  }

  ////////// the scans

  /**
   * The inner loop shared by the rules: scan bs against a, collecting both
   * identifiers of every hit and a bang point at a for each hit.
   */
  method ScanFirst(collide: Collide, a: Entity, ra: real, bs: seq<Entity>, rb: real)
    returns (gone: set<EntityId>, bangs: seq<Comps>)
    ensures gone == HitIds(PairsFor(collide, a, ra, bs, rb))
    ensures bangs == FirstBangs(PairsFor(collide, a, ra, bs, rb))
  {
    gone, bangs := {}, [];
    ghost var hs: seq<Hit> := [];
    var j := 0;
    while j < |bs|
      invariant 0 <= j <= |bs|
      invariant hs == PairsFor(collide, a, ra, bs[..j], rb)
      invariant gone == HitIds(hs)
      invariant bangs == FirstBangs(hs)
    {
      var b := bs[j];
      PairsForStep(collide, a, ra, bs, rb, j);
      if Hits(collide, a, ra, b, rb) {
        gone := gone + {a.id, b.id};
        bangs := bangs + [BangPointAt(PositionOf(a))];
        HitIdsSnoc(hs, Hit(a, b));
        FirstBangsSnoc(hs, Hit(a, b));
        hs := hs + [Hit(a, b)];
      }
      j := j + 1;
    }
    assert bs[..|bs|] == bs;
  }

  /**
   * As ScanFirst, with a bang point at a and then at b for each hit, and the
   * spawn counter lowered once per hit.
   */
  method ScanBoth(collide: Collide, a: Entity, ra: real, bs: seq<Entity>, rb: real, counter0: U32)
    returns (gone: set<EntityId>, bangs: seq<Comps>, counter: U32)
    ensures gone == HitIds(PairsFor(collide, a, ra, bs, rb))
    ensures bangs == BothBangs(PairsFor(collide, a, ra, bs, rb))
    ensures counter == DecTimes(counter0, |PairsFor(collide, a, ra, bs, rb)|)
  {
    gone, bangs, counter := {}, [], counter0;
    ghost var hs: seq<Hit> := [];
    var j := 0;
    while j < |bs|
      invariant 0 <= j <= |bs|
      invariant hs == PairsFor(collide, a, ra, bs[..j], rb)
      invariant gone == HitIds(hs)
      invariant bangs == BothBangs(hs)
      invariant counter == DecTimes(counter0, |hs|)
    {
      var b := bs[j];
      PairsForStep(collide, a, ra, bs, rb, j);
      if Hits(collide, a, ra, b, rb) {
        gone := gone + {a.id, b.id};
        bangs := bangs + [BangPointAt(PositionOf(a)), BangPointAt(PositionOf(b))];
        counter := WrappingDec(counter);
        HitIdsSnoc(hs, Hit(a, b));
        BothBangsSnoc(hs, Hit(a, b));
        hs := hs + [Hit(a, b)];
      }
      j := j + 1;
    }
    assert bs[..|bs|] == bs;
  }

  lemma {:induction false} HitIdsAppend(h1: seq<Hit>, h2: seq<Hit>)
    ensures HitIds(h1 + h2) == HitIds(h1) + HitIds(h2)
  {
    if h2 == [] {
      assert h1 + h2 == h1;
    } else {
      HitIdsAppend(h1, h2[..|h2| - 1]);
      assert (h1 + h2)[..|h1 + h2| - 1] == h1 + h2[..|h2| - 1];
    }
  }

  /** The outer loop of the player-shot rule: every enemy of xs scanned against the shots bs. */
  method ScanAll(collide: Collide, xs: seq<Entity>, ra: real, bs: seq<Entity>, rb: real)
    returns (gone: set<EntityId>, bangs: seq<Comps>)
    ensures gone == HitIds(AllHits(collide, xs, ra, bs, rb))
    ensures bangs == FirstBangs(AllHits(collide, xs, ra, bs, rb))
  {
    gone, bangs := {}, [];
    var i := 0;
    while i < |xs|
      invariant 0 <= i <= |xs|
      invariant gone == HitIds(AllHits(collide, xs[..i], ra, bs, rb))
      invariant bangs == FirstBangs(AllHits(collide, xs[..i], ra, bs, rb))
    {
      var g, b := ScanFirst(collide, xs[i], ra, bs, rb);
      AllHitsStep(collide, xs, ra, bs, rb, i);
      HitIdsAppend(AllHits(collide, xs[..i], ra, bs, rb), PairsFor(collide, xs[i], ra, bs, rb));
      FirstBangsAppend(AllHits(collide, xs[..i], ra, bs, rb), PairsFor(collide, xs[i], ra, bs, rb));
      gone := gone + g;
      bangs := bangs + b;
      i := i + 1;
    }
    assert xs[..|xs|] == xs;
  }

  ////////// player_shoot_collision_system

  /**
   * player_shoot_collision_system: for every (enemy, player shot) pair that
   * overlaps, despawn both and queue a bang point at the enemy. The spawn
   * counter is not touched.
   */
  method PlayerShootCollisionSystem(w: World, collide: Collide)
    modifies w`despawned, w`spawnQueue
    ensures w.despawned == old(w.despawned) + HitIds(PlayerShotHits(collide, w.entities))
    ensures w.spawnQueue == old(w.spawnQueue) + FirstBangs(PlayerShotHits(collide, w.entities))
  {
    var enemies := Select(w.entities, IsEnemyQ);
    var shots := Select(w.entities, IsPlayerShotQ);
    var gone, bangs := ScanAll(collide, enemies, ENEMY_RADIUS, shots, PLAYER_RADIUS);
    w.despawned := w.despawned + gone;
    w.spawnQueue := w.spawnQueue + bangs;
  }

  ////////// enemy_shoot_collision_system

  /**
   * enemy_shoot_collision_system: only when exactly one player exists (its
   * enable flag is not consulted), every enemy shot overlapping it despawns
   * the player and the shot, makes a respawn pending with a fresh timer and
   * queues a bang point at the player.
   */
  method EnemyShootCollisionSystem(w: World, collide: Collide)
    modifies w`despawned, w`spawnQueue, w`playerStatus
    ensures match Single(w.entities, IsPlayerQ)
      case None =>
        w.despawned == old(w.despawned) && w.spawnQueue == old(w.spawnQueue) && w.playerStatus == old(w.playerStatus)
      case Some(p) =>
        var hs := PairsFor(collide, w.entities[p], PLAYER_RADIUS, Select(w.entities, IsEnemyShotQ), SHOOT_RADIUS);
        && w.despawned == old(w.despawned) + HitIds(hs)
        && w.spawnQueue == old(w.spawnQueue) + FirstBangs(hs)
        && w.playerStatus == if hs == [] then old(w.playerStatus) else Died(old(w.playerStatus))
  {
    var found := Single(w.entities, IsPlayerQ);
    if found.Some? {
      var player := w.entities[found.value];
      var shots := Select(w.entities, IsEnemyShotQ);
      var gone, bangs := ScanFirst(collide, player, PLAYER_RADIUS, shots, SHOOT_RADIUS);
      if bangs != [] {
        w.playerStatus := w.playerStatus.(isSpawn := true, timer := FromSeconds(RESPAWN_DELAY, Once));
      }
      w.despawned := w.despawned + gone;
      w.spawnQueue := w.spawnQueue + bangs;
    }
  }

  ////////// player_enemy_collision_system

  /**
   * player_enemy_collision_system: only when exactly one player exists,
   * every enemy overlapping it despawns the player and the enemy, makes a
   * respawn pending with a fresh timer, queues bang points at the player
   * and then at the enemy, and lowers the spawn counter by one.
   */
  method PlayerEnemyCollisionSystem(w: World, collide: Collide)
    modifies w`despawned, w`spawnQueue, w`playerStatus, w`enemySpawn
    ensures match Single(w.entities, IsPlayerQ)
      case None =>
        && w.despawned == old(w.despawned) && w.spawnQueue == old(w.spawnQueue)
        && w.playerStatus == old(w.playerStatus) && w.enemySpawn == old(w.enemySpawn)
      case Some(p) =>
        var hs := PairsFor(collide, w.entities[p], PLAYER_RADIUS, Select(w.entities, IsEnemyQ), ENEMY_RADIUS);
        && w.despawned == old(w.despawned) + HitIds(hs)
        && w.spawnQueue == old(w.spawnQueue) + BothBangs(hs)
        && w.playerStatus == (if hs == [] then old(w.playerStatus) else Died(old(w.playerStatus)))
        && w.enemySpawn == old(w.enemySpawn).(counter := DecTimes(old(w.enemySpawn).counter, |hs|))
  {
    var found := Single(w.entities, IsPlayerQ);
    if found.Some? {
      var player := w.entities[found.value];
      var enemies := Select(w.entities, IsEnemyQ);
      var gone, bangs, counter := ScanBoth(collide, player, PLAYER_RADIUS, enemies, ENEMY_RADIUS, w.enemySpawn.counter);
      if bangs != [] {
        w.playerStatus := w.playerStatus.(isSpawn := true, timer := FromSeconds(RESPAWN_DELAY, Once));
      }
      w.enemySpawn := w.enemySpawn.(counter := counter);
      w.despawned := w.despawned + gone;
      w.spawnQueue := w.spawnQueue + bangs;
    }
  }
}
