/**
 * The entity store the systems run over, in the engine's terms: entities
 * are identifiers carrying optional components and marker tags; systems
 * read query snapshots, write components in place and queue commands
 * (spawn, despawn, insert, remove) that take effect only when the command
 * buffer is flushed at the end of the frame.
 */
module Ecs {
  import opened Clock
  import opened Define

  type EntityId = nat

  /**
   * The motion-pattern tag an enemy carries, at most one per entity. The
   * formation tags and the per-file pattern tags are distinct component
   * types in the game, so they are distinct variants here.
   */
  datatype MoveTag =
    | NoMove
    | Formation001
    | Formation002
    | Formation003(counter: nat)
    | Pattern001
    | Pattern002
    | Pattern003(counter: nat)
    | Pattern004(baseY: real)
    | Pattern005(baseY: real)
    | Pattern006

  /** The keys the systems poll. */
  datatype Key = Up | Down | Left | Right | Space

  /** The components and marker tags one entity can carry. */
  datatype Comps = Comps(
    transform: Option<Vec3>,
    velocity: Option<Velocity>,
    player: Option<Player>,
    playerStartPosition: bool,
    enemy: Option<Enemy>,
    autoDespawn: bool,
    fromPlayerShoot: bool,
    fromEnemyShoot: bool,
    shootBang: Option<ShootBang>,
    showBangPoint: Option<ShowBangPoint>,
    movePattern: MoveTag,
    waitTimer: Option<Timer>)

  const NO_COMPONENTS: Comps :=
    Comps(None, None, None, false, None, false, false, false, None, None, NoMove, None)

  datatype Entity = Entity(id: EntityId, c: Comps)

  /** One row of the side-entry formation table. */
  datatype SpawnPosition = SpawnPosition(x: real, y: real, velocityX: real)

  ////////// Queries

  /** Indices of the entities matching q, in iteration order. */
  function Matching(es: seq<Entity>, q: Comps -> bool): (r: seq<nat>)
    ensures forall k :: 0 <= k < |r| ==> r[k] < |es| && q(es[r[k]].c)
    ensures forall i :: 0 <= i < |es| && q(es[i].c) ==> i in r
    ensures forall k, l :: 0 <= k < l < |r| ==> r[k] < r[l]
  {
    if es == [] then []
    else
      var rest := Matching(es[..|es| - 1], q);
      if q(es[|es| - 1].c) then rest + [|es| - 1] else rest
  }

  /** The one entity matching q, when there is exactly one; otherwise none (get_single). */
  function Single(es: seq<Entity>, q: Comps -> bool): (r: Option<nat>)
    ensures r.Some? ==> r.value < |es| && q(es[r.value].c)
    ensures r.Some? ==> forall j :: 0 <= j < |es| && j != r.value ==> !q(es[j].c)
    ensures r.None? ==> |Matching(es, q)| != 1
  {
    var m := Matching(es, q);
    if |m| == 1 then Some(m[0]) else None
  }

  /** The player query: an entity with a transform and a player component. */
  predicate IsPlayerQ(c: Comps) {
    c.transform.Some? && c.player.Some?
  }

  /** The enemy query: an entity with a transform and an enemy component. */
  predicate IsEnemyQ(c: Comps) {
    c.transform.Some? && c.enemy.Some?
  }

  /** The snapshot of the entities matching q, in iteration order. */
  function Select(es: seq<Entity>, q: Comps -> bool): (r: seq<Entity>)
    ensures |r| <= |es|
    ensures forall e :: e in r ==> e in es && q(e.c)
    ensures forall i :: 0 <= i < |es| && q(es[i].c) ==> es[i] in r
  {
    if es == [] then []
    else
      var rest := Select(es[..|es| - 1], q);
      if q(es[|es| - 1].c) then rest + [es[|es| - 1]] else rest
  }

  /** The snapshot lists the entities at the matching indices, in store order. */
  lemma {:induction false} SelectInOrder(es: seq<Entity>, q: Comps -> bool)
    ensures |Select(es, q)| == |Matching(es, q)|
    ensures forall k :: 0 <= k < |Select(es, q)| ==> Select(es, q)[k] == es[Matching(es, q)[k]]
  {
    if es != [] {
      var init := es[..|es| - 1];
      SelectInOrder(init, q);
      var m, s := Matching(init, q), Select(init, q);
      forall k | 0 <= k < |s|
        ensures s[k] == es[m[k]]
      {
        assert m[k] < |init|;
      }
      if q(es[|es| - 1].c) {
        assert Select(es, q) == s + [es[|es| - 1]];
        assert Matching(es, q) == m + [|es| - 1];
      } else {
        assert Select(es, q) == s;
        assert Matching(es, q) == m;
      }
    }
  }

  /** The identifiers of the entities matching q. */
  function IdsWhere(es: seq<Entity>, q: Comps -> bool): (r: set<EntityId>)
  {
    if es == [] then {}
    else IdsWhere(es[..|es| - 1], q) + (if q(es[|es| - 1].c) then {es[|es| - 1].id} else {})
  }

  lemma {:induction false} IdsWhereIff(es: seq<Entity>, q: Comps -> bool, id: EntityId)
    ensures id in IdsWhere(es, q) <==> exists i :: 0 <= i < |es| && es[i].id == id && q(es[i].c)
  {
    if es != [] {
      var pre := es[..|es| - 1];
      IdsWhereIff(pre, q, id);
      if exists i :: 0 <= i < |pre| && pre[i].id == id && q(pre[i].c) {
        var i :| 0 <= i < |pre| && pre[i].id == id && q(pre[i].c);
        assert es[i] == pre[i];
      }
      if exists i :: 0 <= i < |es| && es[i].id == id && q(es[i].c) {
        var i :| 0 <= i < |es| && es[i].id == id && q(es[i].c);
        if i < |pre| {
          assert pre[i] == es[i];
        }
      }
    }
  }

  /** Extending the scanned prefix by one entity. */
  lemma IdsWhereStep(es: seq<Entity>, q: Comps -> bool, i: nat)
    requires i < |es|
    ensures IdsWhere(es[..i + 1], q) == IdsWhere(es[..i], q) + (if q(es[i].c) then {es[i].id} else {})
  {
    assert es[..i + 1][..i] == es[..i];
  }

  ////////// Command application

  /** The entities whose identifier is not marked for despawn, in order. */
  function Survivors(es: seq<Entity>, gone: set<EntityId>): (r: seq<Entity>)
    ensures |r| <= |es|
    ensures forall e :: e in r <==> e in es && e.id !in gone
  {
    if es == [] then []
    else
      var rest := Survivors(es[..|es| - 1], gone);
      assert forall e :: e in es <==> e in es[..|es| - 1] || e == es[|es| - 1];
      if es[|es| - 1].id in gone then rest else rest + [es[|es| - 1]]
  }

  /** Despawning is idempotent: applying the same despawn set twice removes nothing more. */
  lemma {:induction false} SurvivorsIdempotent(es: seq<Entity>, gone: set<EntityId>)
    ensures Survivors(Survivors(es, gone), gone) == Survivors(es, gone)
  {
    if es != [] {
      var pre := es[..|es| - 1];
      SurvivorsIdempotent(pre, gone);
      var rest := Survivors(pre, gone);
      if es[|es| - 1].id !in gone {
        assert (rest + [es[|es| - 1]])[..|rest|] == rest;
      }
    }
  }

  /** Despawning two sets in turn is despawning their union. */
  lemma {:induction false} SurvivorsUnion(es: seq<Entity>, g1: set<EntityId>, g2: set<EntityId>)
    ensures Survivors(Survivors(es, g1), g2) == Survivors(es, g1 + g2)
  {
    if es != [] {
      var pre := es[..|es| - 1];
      SurvivorsUnion(pre, g1, g2);
      var rest := Survivors(pre, g1);
      if es[|es| - 1].id !in g1 {
        assert (rest + [es[|es| - 1]])[..|rest|] == rest;
      }
    }
  }

  /** The entity after its queued tag removal and component insertion. */
  function Edited(e: Entity, startTagRemoved: set<EntityId>, inserts: map<EntityId, Timer>): (r: Entity)
    ensures r.id == e.id
    ensures r.c.playerStartPosition <==> e.c.playerStartPosition && e.id !in startTagRemoved
    ensures r.c.waitTimer == if e.id in inserts then Some(inserts[e.id]) else e.c.waitTimer
    ensures r.c.(playerStartPosition := e.c.playerStartPosition, waitTimer := e.c.waitTimer) == e.c
  {
    var c := e.c.(playerStartPosition := e.c.playerStartPosition && e.id !in startTagRemoved);
    Entity(e.id, if e.id in inserts then c.(waitTimer := Some(inserts[e.id])) else c)
  }

  function EditedAll(es: seq<Entity>, startTagRemoved: set<EntityId>, inserts: map<EntityId, Timer>): (r: seq<Entity>)
    ensures |r| == |es|
    ensures forall i :: 0 <= i < |es| ==> r[i] == Edited(es[i], startTagRemoved, inserts)
  {
    if es == [] then []
    else EditedAll(es[..|es| - 1], startTagRemoved, inserts) + [Edited(es[|es| - 1], startTagRemoved, inserts)]
  }

  /** The queued spawns as entities with consecutive fresh identifiers from first on. */
  function Spawned(cs: seq<Comps>, first: nat): (r: seq<Entity>)
    ensures |r| == |cs|
    ensures forall k :: 0 <= k < |cs| ==> r[k] == Entity(first + k, cs[k])
  {
    if cs == [] then []
    else Spawned(cs[..|cs| - 1], first) + [Entity(first + |cs| - 1, cs[|cs| - 1])]
  }

  /** Identifiers strictly increase along the store and are all below next. */
  ghost predicate IdsOrdered(es: seq<Entity>, next: nat) {
    (forall i, j :: 0 <= i < j < |es| ==> es[i].id < es[j].id) &&
    (forall i :: 0 <= i < |es| ==> es[i].id < next)
  }

  lemma {:induction false} SurvivorsOrdered(es: seq<Entity>, gone: set<EntityId>, next: nat)
    requires IdsOrdered(es, next)
    ensures IdsOrdered(Survivors(es, gone), next)
  {
    if es != [] {
      var pre := es[..|es| - 1];
      assert IdsOrdered(pre, es[|es| - 1].id);
      SurvivorsOrdered(pre, gone, es[|es| - 1].id);
    }
  }

  /** Editing the survivors and appending the spawns keeps identifiers ordered, the spawns above the survivors. */
  lemma FlushOrdered(kept: seq<Entity>, removed: set<EntityId>, inserts: map<EntityId, Timer>, queue: seq<Comps>, next: nat)
    requires IdsOrdered(kept, next)
    ensures IdsOrdered(EditedAll(kept, removed, inserts) + Spawned(queue, next), next + |queue|)
  {
    var edited := EditedAll(kept, removed, inserts);
    var joined := Spawned(queue, next);
    assert forall i :: 0 <= i < |edited| ==> edited[i].id == kept[i].id;
    assert forall k :: 0 <= k < |joined| ==> joined[k].id == next + k;
    var all := edited + joined;
    forall i, j | 0 <= i < j < |all|
      ensures all[i].id < all[j].id
    {
      if j < |edited| {
        assert all[i].id == kept[i].id && all[j].id == kept[j].id;
      } else if i < |edited| {
        assert all[i].id == kept[i].id < next;
        assert all[j].id == next + (j - |edited|);
      } else {
        assert all[i].id == next + (i - |edited|) && all[j].id == next + (j - |edited|);
      }
    }
    forall i | 0 <= i < |all|
      ensures all[i].id < next + |queue|
    {
      if i < |edited| {
        assert all[i].id == kept[i].id;
      } else {
        assert all[i].id == next + (i - |edited|);
      }
    }
  }

  /** The store after a flush is ordered again, with the spawns above every survivor. */
  lemma FlushKeepsOrder(es: seq<Entity>, gone: set<EntityId>, removed: set<EntityId>, inserts: map<EntityId, Timer>,
                        queue: seq<Comps>, next: nat)
    requires IdsOrdered(es, next)
    ensures IdsOrdered(EditedAll(Survivors(es, gone), removed, inserts) + Spawned(queue, next), next + |queue|)
  {
    SurvivorsOrdered(es, gone, next);
    FlushOrdered(Survivors(es, gone), removed, inserts, queue, next);
  }

  class World {
    var entities: seq<Entity>
    var nextId: nat

    // the deferred command buffer
    var despawned: set<EntityId>
    var spawnQueue: seq<Comps>
    var startTagRemoved: set<EntityId>
    var waitTimerInserts: map<EntityId, Timer>

    // resources
    var windowSizeLimit: WindowSizeLimit
    var playerStatus: PlayerStatus
    var enemySpawn: EnemySpawn
    var speedControl: real
    var gameTimer: GameTimer
    var enemySchedule: EnemySchedule
    var enemy001: Timer
    var enemyPositions: seq<SpawnPosition>

    ghost predicate Valid()
      reads this
    {
      IdsOrdered(entities, nextId)
    }

    /** An empty world over the given resources, with nothing queued. */
    constructor (lim: WindowSizeLimit, status: PlayerStatus, spawn: EnemySpawn, speed: real,
                 clock: GameTimer, schedule: EnemySchedule, wave001: Timer)
      ensures Valid()
      ensures entities == [] && nextId == 0
      ensures despawned == {} && spawnQueue == [] && startTagRemoved == {} && waitTimerInserts == map[]
      ensures windowSizeLimit == lim && playerStatus == status && enemySpawn == spawn
      ensures speedControl == speed && gameTimer == clock && enemySchedule == schedule
      ensures enemy001 == wave001 && enemyPositions == []
    {
      entities, nextId := [], 0;
      despawned, spawnQueue, startTagRemoved, waitTimerInserts := {}, [], {}, map[];
      windowSizeLimit, playerStatus, enemySpawn := lim, status, spawn;
      speedControl, gameTimer, enemySchedule := speed, clock, schedule;
      enemy001, enemyPositions := wave001, [];
    }

    /**
     * Applies the frame's queued commands: despawned entities leave, tag
     * removals and insertions reach the survivors, queued spawns join with
     * fresh identifiers, and the buffer is emptied.
     */
    method Flush()
      requires Valid()
      modifies this`entities, this`nextId, this`despawned, this`spawnQueue,
               this`startTagRemoved, this`waitTimerInserts
      ensures Valid()
      ensures entities ==
                EditedAll(Survivors(old(entities), old(despawned)), old(startTagRemoved), old(waitTimerInserts))
                + Spawned(old(spawnQueue), old(nextId))
      ensures nextId == old(nextId) + |old(spawnQueue)|
      ensures despawned == {} && spawnQueue == [] && startTagRemoved == {} && waitTimerInserts == map[]
    {
      FlushKeepsOrder(entities, despawned, startTagRemoved, waitTimerInserts, spawnQueue, nextId);
      entities := EditedAll(Survivors(entities, despawned), startTagRemoved, waitTimerInserts) + Spawned(spawnQueue, nextId);
      nextId := nextId + |spawnQueue|;
      despawned, spawnQueue, startTagRemoved, waitTimerInserts := {}, [], {}, map[];
    }
  }
}
