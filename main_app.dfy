/**
 * The early single-file version of the game: a window of 500 by 610, one
 * player of radius 20 moved by the arrow keys without any enable gate or
 * speed factor, and kept inside the window. Its player has only a
 * position.
 */
module MainApp {
  import D = Define
  import C = Common
  import Ecs

  const WINDOW_SIZE_WIDTH: real := 500.0
  const WINDOW_SIZE_HEIGHT: real := 610.0
  const PLAYER_RADIUS: real := 20.0
  const PLAYER_VELOCITY: real := 3.0

  datatype Player = Player(x: real, y: real, z: real)

  function GetPosition(p: Player): (v: D.Vec3)
    ensures v.x == p.x && v.y == p.y && v.z == p.z
  {
    D.Vec3(p.x, p.y, p.z)
  }

  /** The player entity: its transform and its position component. */
  datatype PlayerEntity = PlayerEntity(transform: D.Vec3, player: Player)

  ////////// setup_system

  /** The bounds for a window of the given resolution, centred on the origin. */
  function SetupLimit(width: real, height: real): (lim: D.WindowSizeLimit)
    ensures lim == D.NewWindowSizeLimit(height / 2.0, -(height / 2.0), width / 2.0, -(width / 2.0))
    ensures lim.top == -lim.bottom && lim.right == -lim.left
  {
    D.NewWindowSizeLimit(height / 2.0, -(height / 2.0), width / 2.0, -(width / 2.0))
  }

  /** The initial player: centred, one radius above the bottom edge, on layer 10. */
  function InitialPlayer(height: real): Player
  {
    Player(0.0, -(height / 2.0) + PLAYER_RADIUS, 10.0)
  }

  /** The initial player stands exactly on the lower clamp line, so the clamp leaves it where it is. */
  lemma InitialPlayerOnClampLine(width: real, height: real)
    requires PLAYER_RADIUS <= width / 2.0 && PLAYER_RADIUS <= height / 2.0
    ensures var lim := SetupLimit(width, height);
      var p := InitialPlayer(height);
      && p.y == lim.bottom + PLAYER_RADIUS
      && C.ClampX(p.x, lim, PLAYER_RADIUS) == p.x && C.ClampY(p.y, lim, PLAYER_RADIUS) == p.y
  {
  }

  /** The game's own window is wide and tall enough for that. */
  lemma GameWindowFitsPlayer()
    ensures PLAYER_RADIUS <= WINDOW_SIZE_WIDTH / 2.0 && PLAYER_RADIUS <= WINDOW_SIZE_HEIGHT / 2.0
    ensures SetupLimit(WINDOW_SIZE_WIDTH, WINDOW_SIZE_HEIGHT) == D.NewWindowSizeLimit(305.0, -305.0, 250.0, -250.0)
  {
  }

  ////////// player_move_system and player_in_window_system

  /** The player shifted by PLAYER_VELOCITY for each held arrow key; opposite keys cancel. */
  function Shifted(p: Player, pressed: set<Ecs.Key>): (q: Player)
    ensures q.y == p.y + (if Ecs.Up in pressed then PLAYER_VELOCITY else 0.0) - (if Ecs.Down in pressed then PLAYER_VELOCITY else 0.0)
    ensures q.x == p.x + (if Ecs.Right in pressed then PLAYER_VELOCITY else 0.0) - (if Ecs.Left in pressed then PLAYER_VELOCITY else 0.0)
    ensures q.z == p.z
  {
    var p1 := if Ecs.Up in pressed then p.(y := p.y + PLAYER_VELOCITY) else p;
    var p2 := if Ecs.Down in pressed then p1.(y := p1.y - PLAYER_VELOCITY) else p1;
    var p3 := if Ecs.Right in pressed then p2.(x := p2.x + PLAYER_VELOCITY) else p2;
    if Ecs.Left in pressed then p3.(x := p3.x - PLAYER_VELOCITY) else p3
  }

  /** The player clamped into the window, the bottom and left clamps winning. */
  function Clamped(p: Player, lim: D.WindowSizeLimit): (q: Player)
    ensures lim.left + PLAYER_RADIUS <= lim.right - PLAYER_RADIUS ==> lim.left + PLAYER_RADIUS <= q.x <= lim.right - PLAYER_RADIUS
    ensures lim.bottom + PLAYER_RADIUS <= lim.top - PLAYER_RADIUS ==> lim.bottom + PLAYER_RADIUS <= q.y <= lim.top - PLAYER_RADIUS
    ensures q.z == p.z
  {
    Player(C.ClampX(p.x, lim, PLAYER_RADIUS), C.ClampY(p.y, lim, PLAYER_RADIUS), p.z)
  }

  /** Clamping an already clamped player changes nothing. */
  lemma ClampedIdempotent(p: Player, lim: D.WindowSizeLimit)
    ensures Clamped(Clamped(p, lim), lim) == Clamped(p, lim)
  {
    C.ClampIdempotent(p.x, p.y, lim, PLAYER_RADIUS);
  }

  /** Holding all four keys leaves the player where it is. */
  lemma AllKeysCancel(p: Player)
    ensures Shifted(p, {Ecs.Up, Ecs.Down, Ecs.Left, Ecs.Right}) == p
  {
  }

  class App {
    var limit: D.WindowSizeLimit
    var players: seq<PlayerEntity>

    /** setup_system: the bounds from the window's resolution and one player, its transform showing its position. */
    constructor Setup(width: real, height: real)
      ensures limit == SetupLimit(width, height)
      ensures players == [PlayerEntity(GetPosition(InitialPlayer(height)), InitialPlayer(height))]
    {
      var w := width / 2.0;
      var h := height / 2.0;
      limit := D.NewWindowSizeLimit(h, -h, w, -w);
      var player := Player(0.0, -h + PLAYER_RADIUS, 10.0);
      players := [PlayerEntity(D.Vec3(player.x, player.y, player.z), player)];
    }

    /** player_move_system: shift the one player and copy its position into the transform. */
    method PlayerMoveSystem(pressed: set<Ecs.Key>)
      requires |players| == 1
      modifies this`players
      ensures players == [PlayerEntity(GetPosition(Shifted(old(players)[0].player, pressed)), Shifted(old(players)[0].player, pressed))]
    {
      var p := players[0].player;
      if Ecs.Up in pressed {
        p := p.(y := p.y + PLAYER_VELOCITY);
      }
      if Ecs.Down in pressed {
        p := p.(y := p.y - PLAYER_VELOCITY);
      }
      if Ecs.Right in pressed {
        p := p.(x := p.x + PLAYER_VELOCITY);
      }
      if Ecs.Left in pressed {
        p := p.(x := p.x - PLAYER_VELOCITY);
      }
      players := [PlayerEntity(GetPosition(p), p)];
    }

    /** player_in_window_system: clamp the one player into the window and copy its position into the transform. */
    method PlayerInWindowSystem()
      requires |players| == 1
      modifies this`players
      ensures players == [PlayerEntity(GetPosition(Clamped(old(players)[0].player, limit)), Clamped(old(players)[0].player, limit))]
    {
      var p := players[0].player;
      var topLimit := limit.top - PLAYER_RADIUS;
      if p.y > topLimit {
        p := p.(y := topLimit);
      }
      var bottomLimit := limit.bottom + PLAYER_RADIUS;
      if p.y < bottomLimit {
        p := p.(y := bottomLimit);
      }
      var rightLimit := limit.right - PLAYER_RADIUS;
      if p.x > rightLimit {
        p := p.(x := rightLimit);
      }
      var leftLimit := limit.left + PLAYER_RADIUS;
      if p.x < leftLimit {
        p := p.(x := leftLimit);
      }
      players := [PlayerEntity(GetPosition(p), p)];
    }
  }
}
