/**
 * Field and motion rules shared by every entity: the player is kept inside
 * the window, everything with a velocity moves by it each frame, entities
 * that drift past the margin are despawned, and explosion markers appear
 * for a short time.
 */
module Common {
  import opened Clock
  import opened Define
  import opened Ecs

  ////////// player_in_window_system

  /** A vertical coordinate clamped below top - r, then above bottom + r (the bottom clamp wins). */
  function ClampY(y: real, lim: WindowSizeLimit, r: real): (c: real)
    ensures lim.bottom + r <= lim.top - r ==> lim.bottom + r <= c <= lim.top - r
    ensures lim.bottom + r > lim.top - r ==> c == lim.bottom + r
    ensures lim.bottom + r <= y <= lim.top - r ==> c == y
  {
    var topLimit := lim.top - r;
    var y1 := if y > topLimit then topLimit else y;
    var bottomLimit := lim.bottom + r;
    if y1 < bottomLimit then bottomLimit else y1
  }

  /** A horizontal coordinate clamped left of right - r, then right of left + r (the left clamp wins). */
  function ClampX(x: real, lim: WindowSizeLimit, r: real): (c: real)
    ensures lim.left + r <= lim.right - r ==> lim.left + r <= c <= lim.right - r
    ensures lim.left + r > lim.right - r ==> c == lim.left + r
    ensures lim.left + r <= x <= lim.right - r ==> c == x
  {
    var rightLimit := lim.right - r;
    var x1 := if x > rightLimit then rightLimit else x;
    var leftLimit := lim.left + r;
    if x1 < leftLimit then leftLimit else x1
  }

  /** Clamping twice is clamping once. */
  lemma ClampIdempotent(x: real, y: real, lim: WindowSizeLimit, r: real)
    ensures ClampX(ClampX(x, lim, r), lim, r) == ClampX(x, lim, r)
    ensures ClampY(ClampY(y, lim, r), lim, r) == ClampY(y, lim, r)
  {
  }

  /** The player entity's components once clamped into the window, with the transform copied from it. */
  function InWindow(c: Comps, lim: WindowSizeLimit): (r: Comps)
    requires c.player.Some?
    ensures r.player.Some? && r.transform == Some(GetPosition(r.player.value))
    ensures r.player.value.(x := c.player.value.x, y := c.player.value.y) == c.player.value
    ensures r.(player := c.player, transform := c.transform) == c
  {
    var p := c.player.value;
    var q := p.(x := ClampX(p.x, lim, PLAYER_RADIUS), y := ClampY(p.y, lim, PLAYER_RADIUS));
    c.(player := Some(q), transform := Some(GetPosition(q)))
  }

  /**
   * After clamping, a non-empty band holds the player, the transform equals
   * the player's position, nothing else about the entity changed, and a
   * second clamp changes nothing.
   */
  lemma InWindowSpec(c: Comps, lim: WindowSizeLimit)
    requires c.player.Some?
    ensures var p := InWindow(c, lim).player.value;
      && (lim.left + PLAYER_RADIUS <= lim.right - PLAYER_RADIUS ==>
            lim.left + PLAYER_RADIUS <= p.x <= lim.right - PLAYER_RADIUS)
      && (lim.bottom + PLAYER_RADIUS <= lim.top - PLAYER_RADIUS ==>
            lim.bottom + PLAYER_RADIUS <= p.y <= lim.top - PLAYER_RADIUS)
      && p.z == c.player.value.z && p.isEnable == c.player.value.isEnable
      && InWindow(c, lim).transform == Some(Vec3(p.x, p.y, p.z))
      && InWindow(InWindow(c, lim), lim) == InWindow(c, lim)
  {
    var p := c.player.value;
    ClampIdempotent(p.x, p.y, lim, PLAYER_RADIUS);
  }

  /** A player already inside the band, whose transform already shows it, is left as it is. */
  lemma InWindowKeepsInside(c: Comps, lim: WindowSizeLimit)
    requires c.player.Some?
    requires var p := c.player.value;
      lim.left + PLAYER_RADIUS <= p.x <= lim.right - PLAYER_RADIUS &&
      lim.bottom + PLAYER_RADIUS <= p.y <= lim.top - PLAYER_RADIUS &&
      c.transform == Some(GetPosition(p))
    ensures InWindow(c, lim) == c
  {
  }

  /**
   * player_in_window_system: with exactly one player, clamp it into the
   * window and copy its position into the transform; with zero or several
   * players, do nothing.
   */
  method PlayerInWindowSystem(w: World)
    modifies w`entities
    ensures match Single(old(w.entities), IsPlayerQ)
      case None => w.entities == old(w.entities)
      case Some(i) =>
        w.entities == old(w.entities)[i := Entity(old(w.entities)[i].id, InWindow(old(w.entities)[i].c, w.windowSizeLimit))]
  {
    var found := Single(w.entities, IsPlayerQ);
    if found.Some? {
      var i := found.value;
      var e := w.entities[i];
      var p := e.c.player.value;
      var lim := w.windowSizeLimit;

      var topLimit := lim.top - PLAYER_RADIUS;
      if p.y > topLimit {
        p := p.(y := topLimit);
      }
      var bottomLimit := lim.bottom + PLAYER_RADIUS;
      if p.y < bottomLimit {
        p := p.(y := bottomLimit);
      }
      var rightLimit := lim.right - PLAYER_RADIUS;
      if p.x > rightLimit {
        p := p.(x := rightLimit);
      }
      var leftLimit := lim.left + PLAYER_RADIUS;
      if p.x < leftLimit {
        p := p.(x := leftLimit);
      }

      w.entities := w.entities[i := Entity(e.id, e.c.(player := Some(p), transform := Some(GetPosition(p))))];
    }
  }

  ////////// auto_move_system

  /** One Euler step: an entity with a transform and a velocity moves by the velocity; depth, velocity and all else stay. */
  function AutoMoved(c: Comps): (r: Comps)
    ensures c.transform.Some? && c.velocity.Some? ==>
              r.transform == Some(Vec3(c.transform.value.x + c.velocity.value.x,
                                       c.transform.value.y + c.velocity.value.y,
                                       c.transform.value.z))
    ensures r.(transform := c.transform) == c
    ensures !(c.transform.Some? && c.velocity.Some?) ==> r == c
  {
    if c.transform.Some? && c.velocity.Some? then
      var t := c.transform.value;
      var v := c.velocity.value;
      c.(transform := Some(Vec3(t.x + v.x, t.y + v.y, t.z)))
    else c
  }

  /** auto_move_system: every entity is moved by AutoMoved; the store keeps its order and identifiers. */
  method AutoMoveSystem(w: World)
    modifies w`entities
    ensures |w.entities| == |old(w.entities)|
    ensures forall i :: 0 <= i < |w.entities| ==>
              w.entities[i] == Entity(old(w.entities)[i].id, AutoMoved(old(w.entities)[i].c))
  {
    var es := w.entities;
    var i := 0;
    while i < |es|
      invariant 0 <= i <= |es| == |old(w.entities)|
      invariant forall k :: 0 <= k < i ==> es[k] == Entity(old(w.entities)[k].id, AutoMoved(old(w.entities)[k].c))
      invariant forall k :: i <= k < |es| ==> es[k] == old(w.entities)[k]
    {
      var e := es[i];
      if e.c.transform.Some? && e.c.velocity.Some? {
        var t := e.c.transform.value;
        var v := e.c.velocity.value;
        var x := t.x + v.x;
        var y := t.y + v.y;
        es := es[i := Entity(e.id, e.c.(transform := Some(Vec3(x, y, t.z))))];
      }
      i := i + 1;
    }
    w.entities := es;
  }

  ////////// auto_despawn_system

  /** Beyond the margin on some side; the comparisons are strict. */
  predicate OutOfField(p: Vec3, lim: WindowSizeLimit): (b: bool)
    ensures b <==> !(lim.left - WINDOW_SIZE_MARGIN <= p.x <= lim.right + WINDOW_SIZE_MARGIN &&
                     lim.bottom - WINDOW_SIZE_MARGIN <= p.y <= lim.top + WINDOW_SIZE_MARGIN)
  {
    p.x > lim.right + WINDOW_SIZE_MARGIN || p.x < lim.left - WINDOW_SIZE_MARGIN ||
    p.y > lim.top + WINDOW_SIZE_MARGIN || p.y < lim.bottom - WINDOW_SIZE_MARGIN
  }

  predicate LeavesField(c: Comps, lim: WindowSizeLimit) {
    c.autoDespawn && c.transform.Some? && OutOfField(c.transform.value, lim)
  }

  /** An entity exactly on the margin line is not out of the field. */
  lemma OnMarginStays(p: Vec3, lim: WindowSizeLimit)
    requires p.x == lim.right + WINDOW_SIZE_MARGIN
    requires lim.bottom - WINDOW_SIZE_MARGIN <= p.y <= lim.top + WINDOW_SIZE_MARGIN
    requires lim.left - WINDOW_SIZE_MARGIN <= lim.right + WINDOW_SIZE_MARGIN
    ensures !OutOfField(p, lim)
  {
  }

  /** Identifiers of the auto-despawn entities that left the field. */
  function OutOfFieldIds(es: seq<Entity>, lim: WindowSizeLimit): set<EntityId>
  {
    if es == [] then {}
    else OutOfFieldIds(es[..|es| - 1], lim) + (if LeavesField(es[|es| - 1].c, lim) then {es[|es| - 1].id} else {})
  }

  /** An entity is marked exactly when it is auto-despawn, has a transform, and is beyond the margin. */
  lemma {:induction false} OutOfFieldIdsIff(es: seq<Entity>, lim: WindowSizeLimit, id: EntityId)
    ensures id in OutOfFieldIds(es, lim) <==> exists i :: 0 <= i < |es| && es[i].id == id && LeavesField(es[i].c, lim)
  {
    if es != [] {
      var pre := es[..|es| - 1];
      OutOfFieldIdsIff(pre, lim, id);
      if exists i :: 0 <= i < |pre| && pre[i].id == id && LeavesField(pre[i].c, lim) {
        var i :| 0 <= i < |pre| && pre[i].id == id && LeavesField(pre[i].c, lim);
        assert es[i] == pre[i];
      }
      if exists i :: 0 <= i < |es| && es[i].id == id && LeavesField(es[i].c, lim) {
        var i :| 0 <= i < |es| && es[i].id == id && LeavesField(es[i].c, lim);
        if i < |pre| {
          assert pre[i] == es[i];
        }
      }
    }
  }

  /** auto_despawn_system: queue a despawn for every auto-despawn entity beyond the margin. */
  method AutoDespawnSystem(w: World)
    modifies w`despawned
    ensures w.despawned == old(w.despawned) + OutOfFieldIds(w.entities, w.windowSizeLimit)
  {
    var es := w.entities;
    var lim := w.windowSizeLimit;
    var margin := WINDOW_SIZE_MARGIN;
    var gone := w.despawned;
    var i := 0;
    while i < |es|
      invariant 0 <= i <= |es|
      invariant gone == old(w.despawned) + OutOfFieldIds(es[..i], lim)
    {
      assert es[..i + 1][..i] == es[..i];
      var e := es[i];
      if e.c.autoDespawn && e.c.transform.Some? {
        var t := e.c.transform.value;
        if t.x > lim.right + margin || t.x < lim.left - margin || t.y > lim.top + margin || t.y < lim.bottom - margin {
          gone := gone + {e.id};
        }
      }
      i := i + 1;
    }
    assert es[..|es|] == es;
    w.despawned := gone;
  }

  ////////// shoot_bang_system

  /** An explosion marker lives for half a second. */
  const BANG_LIFETIME: Duration := SECOND / 2

  function BangTimer(): (t: Timer)
    ensures t.mode == Once && t.duration == BANG_LIFETIME && !t.finished
  {
    FromSeconds(BANG_LIFETIME, Once)
  }

  /** The marker's timer ticked by this frame's delta; entities without a marker are not touched. */
  function TickedBang(c: Comps, delta: Duration): (r: Comps)
    ensures c.shootBang.Some? ==> r == c.(shootBang := Some(ShootBang(Tick(c.shootBang.value.timer, delta))))
    ensures c.shootBang.None? ==> r == c
  {
    if c.shootBang.Some? then c.(shootBang := Some(ShootBang(Tick(c.shootBang.value.timer, delta)))) else c
  }

  predicate BangExpired(c: Comps) {
    c.shootBang.Some? && JustFinished(c.shootBang.value.timer)
  }

  /** A fresh marker is never despawned before it has been ticked for its whole lifetime. */
  lemma BangNeverEarly(ds: seq<Duration>)
    requires JustFinished(TickAll(BangTimer(), ds))
    ensures Sum(ds) >= BANG_LIFETIME
  {
    OnceNotEarly(BANG_LIFETIME, ds);
  }

  /** A fresh marker expires in at most one frame of any run, and in one once its lifetime is reached. */
  lemma BangExpiresOnce(ds: seq<Duration>)
    ensures Completions(BangTimer(), ds) <= 1
    ensures TickAll(BangTimer(), ds).finished <==> ds != [] && Sum(ds) >= BANG_LIFETIME
  {
    OnceCompletesAtMostOnce(BangTimer(), ds);
    FreshOnceRun(BANG_LIFETIME, ds);
  }

  /**
   * shoot_bang_system: tick every marker's timer and despawn (with its
   * child quad, which the model folds into the marker) each marker whose
   * timer just finished.
   */
  method ShootBangSystem(w: World, delta: Duration)
    modifies w`entities, w`despawned
    ensures |w.entities| == |old(w.entities)|
    ensures forall i :: 0 <= i < |w.entities| ==>
              w.entities[i] == Entity(old(w.entities)[i].id, TickedBang(old(w.entities)[i].c, delta))
    ensures w.despawned == old(w.despawned) + IdsWhere(w.entities, BangExpired)
  {
    var es := w.entities;
    var gone := w.despawned;
    var i := 0;
    while i < |es|
      invariant 0 <= i <= |es| == |old(w.entities)|
      invariant forall k :: 0 <= k < i ==> es[k] == Entity(old(w.entities)[k].id, TickedBang(old(w.entities)[k].c, delta))
      invariant forall k :: i <= k < |es| ==> es[k] == old(w.entities)[k]
      invariant gone == old(w.despawned) + IdsWhere(es[..i], BangExpired)
    {
      var e := es[i];
      if e.c.shootBang.Some? {
        var t := Tick(e.c.shootBang.value.timer, delta);
        es := es[i := Entity(e.id, e.c.(shootBang := Some(ShootBang(t))))];
        if JustFinished(t) {
          gone := gone + {e.id};
        }
      }
      IdsWhereStep(es, BangExpired, i);
      i := i + 1;
    }
    assert es[..|es|] == es;
    w.entities := es;
    w.despawned := gone;
  }

  ////////// show_bang_system

  /** A marker at (x, y) on layer 1 with a fresh half-second Once timer. */
  function BangAt(p: ShowBangPoint): (c: Comps)
    ensures c.transform == Some(Vec3(p.x, p.y, 1.0))
    ensures c.shootBang == Some(ShootBang(BangTimer()))
    ensures c.(transform := None, shootBang := None) == NO_COMPONENTS
  {
    NO_COMPONENTS.(transform := Some(Vec3(p.x, p.y, 1.0)), shootBang := Some(ShootBang(BangTimer())))
  }

  predicate IsShowBangPoint(c: Comps) {
    c.showBangPoint.Some?
  }

  /** The markers spawned for the bang points of es, in order. */
  function Bangs(es: seq<Entity>): seq<Comps>
  {
    if es == [] then []
    else
      var e := es[|es| - 1];
      Bangs(es[..|es| - 1]) + (if e.c.showBangPoint.Some? then [BangAt(e.c.showBangPoint.value)] else [])
  }

  /** Every bang point yields exactly one marker, at its own position, in query order. */
  lemma {:induction false} BangsReplacePoints(es: seq<Entity>)
    ensures |Bangs(es)| == |Select(es, IsShowBangPoint)|
    ensures forall k :: 0 <= k < |Bangs(es)| ==>
              Select(es, IsShowBangPoint)[k].c.showBangPoint.Some? &&
              Bangs(es)[k] == BangAt(Select(es, IsShowBangPoint)[k].c.showBangPoint.value)
  {
    if es != [] {
      BangsReplacePoints(es[..|es| - 1]);
    }
  }

  /** show_bang_system: replace every bang point by a marker at its position. */
  method ShowBangSystem(w: World)
    modifies w`spawnQueue, w`despawned
    ensures w.spawnQueue == old(w.spawnQueue) + Bangs(w.entities)
    ensures w.despawned == old(w.despawned) + IdsWhere(w.entities, IsShowBangPoint)
  {
    var es := w.entities;
    var queue := w.spawnQueue;
    var gone := w.despawned;
    var i := 0;
    while i < |es|
      invariant 0 <= i <= |es|
      invariant queue == old(w.spawnQueue) + Bangs(es[..i])
      invariant gone == old(w.despawned) + IdsWhere(es[..i], IsShowBangPoint)
    {
      assert es[..i + 1][..i] == es[..i];
      var e := es[i];
      if e.c.showBangPoint.Some? {
        var p := e.c.showBangPoint.value;
        queue := queue + [NO_COMPONENTS.(transform := Some(Vec3(p.x, p.y, 1.0)), shootBang := Some(ShootBang(FromSeconds(BANG_LIFETIME, Once))))];
        gone := gone + {e.id};
      }
      i := i + 1;
    }
    assert es[..|es|] == es;
    w.spawnQueue := queue;
    w.despawned := gone;
  }
}
