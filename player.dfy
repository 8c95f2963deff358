/**
 * Player intent resolution (src/player.rs): a key becomes a direction; the mover
 * refuses destinations off the map, attacks the first fighter on the destination
 * tile, and otherwise steps onto an unblocked tile and marks its viewshed dirty.
 */
module PlayerMove {

  import opened Wrappers
  import opened Components
  import opened Grid
  import opened Ecs

  /** The part of the world the mover may change. */
  datatype MoveState = MoveState(
    positions: map<Entity, Position>,
    viewsheds: map<Entity, Viewshed>,
    playerPos: Point,
    wantsToMelee: map<Entity, WantsToMelee>)

  /** What the mover reads without changing: tags, who can fight, and the map. */
  datatype Surroundings = Surroundings(
    players: set<Entity>,
    fighters: set<Entity>,
    width: int,
    height: int,
    tileContent: seq<seq<Entity>>,
    blocked: seq<bool>)

  predicate WellFormed(env: Surroundings)
  {
    && env.width > 0 && env.height > 0
    && |env.tileContent| == env.width * env.height
    && |env.blocked| == env.width * env.height
  }

  /** Every position is on the map. */
  predicate OnMap(s: MoveState, env: Surroundings)
  {
    forall e :: e in s.positions ==> InGrid(s.positions[e], env.width, env.height)
  }

  /** The mover's bounds check: column 0 and row 0 are refused, the last column and row are not. */
  predicate DestinationInBounds(x: int, y: int, width: int, height: int)
  {
    1 <= x <= width - 1 && 1 <= y <= height - 1
  }

  /** A mover step either lets the join go on or ends the whole call (the source's `return`). */
  datatype Step = Continue(state: MoveState) | Stop(state: MoveState)

  /** The first entity on the tile, in tile order, that has combat stats. */
  function FirstTarget(occupants: seq<Entity>, fighters: set<Entity>): (r: Option<Entity>)
    ensures r.None? <==> forall k :: 0 <= k < |occupants| ==> occupants[k] !in fighters
    ensures r.Some? ==> r.value in fighters && r.value in occupants
    ensures r.Some? ==> exists k :: 0 <= k < |occupants| && occupants[k] == r.value
                                    && forall j :: 0 <= j < k ==> occupants[j] !in fighters
    decreases |occupants|
  {
    if occupants == [] then None
    else if occupants[0] in fighters then Some(occupants[0])
    else
      var r := FirstTarget(occupants[1..], fighters);
      assert r.Some? ==> exists k :: 0 <= k < |occupants| && occupants[k] == r.value
                                     && forall j :: 0 <= j < k ==> occupants[j] !in fighters by {
        if r.Some? {
          var k :| 0 <= k < |occupants[1..]| && occupants[1..][k] == r.value
                   && forall j :: 0 <= j < k ==> occupants[1..][j] !in fighters;
          assert occupants[k + 1] == r.value;
          forall j | 0 <= j < k + 1 ensures occupants[j] !in fighters {
            if j > 0 { assert occupants[j] == occupants[1..][j - 1]; }
          }
        }
      }
      r
  }

  /** What the mover does for one player entity `e` moving by (dx, dy). */
  function PlayerStep(s: MoveState, e: Entity, dx: int, dy: int, env: Surroundings): (r: Step)
    requires WellFormed(env) && OnMap(s, env) && e in s.positions && e in s.viewsheds
    ensures OnMap(r.state, env)
    ensures r.state.positions.Keys == s.positions.Keys && r.state.viewsheds.Keys == s.viewsheds.Keys
  {
    var pos := s.positions[e];
    var x, y := pos.x + dx, pos.y + dy;
    if !DestinationInBounds(x, y, env.width, env.height) then Stop(s)
    else
      XyIdxInRange(env.width, env.height, Point(x, y));
      var destination := XyIdx(env.width, x, y);
      match FirstTarget(env.tileContent[destination], env.fighters)
      case Some(target) =>
        Stop(s.(wantsToMelee := s.wantsToMelee[e := WantsToMelee(target)]))
      case None =>
        if env.blocked[destination] then Continue(s)
        else
          var moved := Point(ClampToScreen(x), ClampToScreen(y));
          Continue(MoveState(s.positions[e := moved], s.viewsheds[e := s.viewsheds[e].(dirty := true)],
                             moved, s.wantsToMelee))
  }

  /** The step when the destination holds a fighter: the first one becomes the melee target. */
  lemma StepAgainstTarget(s: MoveState, e: Entity, dx: int, dy: int, env: Surroundings, t: Entity)
    requires WellFormed(env) && OnMap(s, env) && e in s.positions && e in s.viewsheds
    requires DestinationInBounds(s.positions[e].x + dx, s.positions[e].y + dy, env.width, env.height)
    requires var d := XyIdx(env.width, s.positions[e].x + dx, s.positions[e].y + dy);
      0 <= d < |env.tileContent| && FirstTarget(env.tileContent[d], env.fighters) == Some(t)
    ensures PlayerStep(s, e, dx, dy, env) == Stop(s.(wantsToMelee := s.wantsToMelee[e := WantsToMelee(t)]))
  {
  }

  /** The step when the destination holds no fighter: move unless the tile is blocked. */
  lemma StepWithoutTarget(s: MoveState, e: Entity, dx: int, dy: int, env: Surroundings)
    requires WellFormed(env) && OnMap(s, env) && e in s.positions && e in s.viewsheds
    requires DestinationInBounds(s.positions[e].x + dx, s.positions[e].y + dy, env.width, env.height)
    requires var d := XyIdx(env.width, s.positions[e].x + dx, s.positions[e].y + dy);
      0 <= d < |env.tileContent| && FirstTarget(env.tileContent[d], env.fighters) == None
    ensures var d := XyIdx(env.width, s.positions[e].x + dx, s.positions[e].y + dy);
      var moved := Point(ClampToScreen(s.positions[e].x + dx), ClampToScreen(s.positions[e].y + dy));
      PlayerStep(s, e, dx, dy, env) ==
        if env.blocked[d] then Continue(s)
        else Continue(MoveState(s.positions[e := moved], s.viewsheds[e := s.viewsheds[e].(dirty := true)],
                                moved, s.wantsToMelee))
  {
  }

  /** The mover's join over `es`: each player entity with a position and a viewshed takes a step. */
  function MoveAll(s: MoveState, es: seq<Entity>, dx: int, dy: int, env: Surroundings): (r: MoveState)
    requires WellFormed(env) && OnMap(s, env)
    ensures OnMap(r, env)
    ensures r.positions.Keys == s.positions.Keys && r.viewsheds.Keys == s.viewsheds.Keys
    decreases |es|
  {
    if es == [] then s
    else
      var e := es[0];
      if e in env.players && e in s.positions && e in s.viewsheds then
        match PlayerStep(s, e, dx, dy, env)
        case Stop(s') => s'
        case Continue(s') => MoveAll(s', es[1..], dx, dy, env)
      else MoveAll(s, es[1..], dx, dy, env)
  }

  /** A destination that fails the bounds check ends the call with nothing changed. */
  lemma RejectedDestination(s: MoveState, e: Entity, dx: int, dy: int, env: Surroundings)
    requires WellFormed(env) && OnMap(s, env) && e in s.positions && e in s.viewsheds
    requires !DestinationInBounds(s.positions[e].x + dx, s.positions[e].y + dy, env.width, env.height)
    ensures PlayerStep(s, e, dx, dy, env) == Stop(s)
  {
  }

  /**
   * A fighter on the destination turns the move into a melee intent against the first
   * such fighter; position, viewshed and the player-position resource stay as they were.
   */
  lemma MeleeInsteadOfMove(s: MoveState, e: Entity, dx: int, dy: int, env: Surroundings)
    requires WellFormed(env) && OnMap(s, env) && e in s.positions && e in s.viewsheds
    requires DestinationInBounds(s.positions[e].x + dx, s.positions[e].y + dy, env.width, env.height)
    requires var d := XyIdx(env.width, s.positions[e].x + dx, s.positions[e].y + dy);
      0 <= d < |env.tileContent| && exists t :: t in env.fighters && t in env.tileContent[d]
    ensures var r := PlayerStep(s, e, dx, dy, env);
      && r.Stop?
      && r.state.positions == s.positions && r.state.viewsheds == s.viewsheds
      && r.state.playerPos == s.playerPos
      && e in r.state.wantsToMelee && r.state.wantsToMelee[e].target in env.fighters
      && r.state.wantsToMelee == s.wantsToMelee[e := r.state.wantsToMelee[e]]
  {
    var x, y := s.positions[e].x + dx, s.positions[e].y + dy;
    XyIdxInRange(env.width, env.height, Point(x, y));
    var occupants := env.tileContent[XyIdx(env.width, x, y)];
    var t :| t in env.fighters && t in occupants;
    var k :| 0 <= k < |occupants| && occupants[k] == t;
    var first := FirstTarget(occupants, env.fighters);
    assert first.Some?;
    StepAgainstTarget(s, e, dx, dy, env, first.value);
  }

  /** With no fighter there, a blocked destination changes nothing and the join goes on. */
  lemma BlockedDestination(s: MoveState, e: Entity, dx: int, dy: int, env: Surroundings)
    requires WellFormed(env) && OnMap(s, env) && e in s.positions && e in s.viewsheds
    requires DestinationInBounds(s.positions[e].x + dx, s.positions[e].y + dy, env.width, env.height)
    requires var d := XyIdx(env.width, s.positions[e].x + dx, s.positions[e].y + dy);
      0 <= d < |env.blocked| && env.blocked[d]
      && forall t :: t in env.tileContent[d] ==> t !in env.fighters
    ensures PlayerStep(s, e, dx, dy, env) == Continue(s)
  {
  }

  /**
   * A move onto a free tile puts the player at the destination (the screen clamp never
   * alters a destination that passed the bounds check on a map at most 80 by 80), marks
   * its viewshed dirty and copies the new position into the player-position resource.
   */
  lemma SuccessfulMove(s: MoveState, e: Entity, dx: int, dy: int, env: Surroundings)
    requires WellFormed(env) && OnMap(s, env) && e in s.positions && e in s.viewsheds
    requires env.width <= 80 && env.height <= 80
    requires DestinationInBounds(s.positions[e].x + dx, s.positions[e].y + dy, env.width, env.height)
    requires var d := XyIdx(env.width, s.positions[e].x + dx, s.positions[e].y + dy);
      0 <= d < |env.blocked| && !env.blocked[d]
      && forall t :: t in env.tileContent[d] ==> t !in env.fighters
    ensures var r := PlayerStep(s, e, dx, dy, env);
      && r.Continue?
      && r.state.positions == s.positions[e := Point(s.positions[e].x + dx, s.positions[e].y + dy)]
      && r.state.viewsheds == s.viewsheds[e := s.viewsheds[e].(dirty := true)]
      && r.state.playerPos == r.state.positions[e]
      && r.state.wantsToMelee == s.wantsToMelee
  {
  }

  /** Entities without the player tag keep their positions through the whole join. */
  lemma {:induction false} MoveAllKeepsOthers(s: MoveState, es: seq<Entity>, dx: int, dy: int,
                                              env: Surroundings, o: Entity)
    requires WellFormed(env) && OnMap(s, env) && o !in env.players && o in s.positions
    ensures MoveAll(s, es, dx, dy, env).positions[o] == s.positions[o]
    decreases |es|
  {
    if es != [] {
      var e := es[0];
      if e in env.players && e in s.positions && e in s.viewsheds {
        match PlayerStep(s, e, dx, dy, env)
        case Stop(s') =>
        case Continue(s') => MoveAllKeepsOthers(s', es[1..], dx, dy, env, o);
      } else {
        MoveAllKeepsOthers(s, es[1..], dx, dy, env, o);
      }
    }
  }

  /** The direction each mapped key stands for; unmapped keys have none. */
  function KeyDelta(key: VirtualKeyCode): (d: Option<(int, int)>)
    ensures d.None? <==> key.Other?
    ensures d.Some? ==> -1 <= d.value.0 <= 1 && -1 <= d.value.1 <= 1 && d.value != (0, 0)
  {
    match key
    case Down | Numpad2 | J => Some((0, 1))
    case H | Numpad4 | Left => Some((-1, 0))
    case Numpad6 | L | Right => Some((1, 0))
    case Numpad8 | K | Up => Some((0, -1))
    case Numpad9 | Y => Some((1, -1))
    case Numpad7 | U => Some((-1, -1))
    case Numpad1 | B => Some((-1, 1))
    case Numpad3 | N => Some((1, 1))
    case Other(_) => None
  }

  /** Each of the eight compass directions has a key. */
  lemma KeyDeltaCoversCompass(dx: int, dy: int)
    requires -1 <= dx <= 1 && -1 <= dy <= 1 && (dx, dy) != (0, 0)
    ensures exists k :: KeyDelta(k) == Some((dx, dy))
  {
    if dx == 0 && dy == 1 { assert KeyDelta(Down) == Some((dx, dy)); }
    else if dx == -1 && dy == 0 { assert KeyDelta(Left) == Some((dx, dy)); }
    else if dx == 1 && dy == 0 { assert KeyDelta(Right) == Some((dx, dy)); }
    else if dx == 0 && dy == -1 { assert KeyDelta(Up) == Some((dx, dy)); }
    else if dx == 1 && dy == -1 { assert KeyDelta(Y) == Some((dx, dy)); }
    else if dx == -1 && dy == -1 { assert KeyDelta(U) == Some((dx, dy)); }
    else if dx == -1 && dy == 1 { assert KeyDelta(B) == Some((dx, dy)); }
    else { assert KeyDelta(N) == Some((dx, dy)); }
  }

  /** The direction a frame's input asks for: none when no key or an unmapped key was pressed. */
  function Intent(key: Option<VirtualKeyCode>): Option<(int, int)>
  {
    match key
    case None => None
    case Some(k) => KeyDelta(k)
  }

  function MoveView(w: World): MoveState
    reads w
  {
    MoveState(w.positions, w.viewsheds, w.playerPos, w.wantsToMelee)
  }

  function SurroundingsOf(w: World): Surroundings
    reads w, w.level
  {
    Surroundings(w.players, w.combatStats.Keys, w.level.width, w.level.height, w.level.tileContent, w.level.blocked)
  }

  /** The search over the destination's occupants for the first one with combat stats. */
  method FindTarget(occupants: seq<Entity>, fighters: set<Entity>) returns (target: Option<Entity>)
    ensures target == FirstTarget(occupants, fighters)
  {
    var j := 0;
    while j < |occupants|
      invariant 0 <= j <= |occupants|
      invariant FirstTarget(occupants[j..], fighters) == FirstTarget(occupants, fighters)
    {
      assert occupants[j..][0] == occupants[j] && occupants[j..][1..] == occupants[j + 1..];
      if occupants[j] in fighters {
        return Some(occupants[j]);
      }
      j := j + 1;
    }
    return None;
  }

  /** One player entity's turn in `try_move_player`; `stop` is the source's early `return`. */
  method StepPlayer(w: World, e: Entity, dx: int, dy: int, ghost env: Surroundings) returns (stop: bool)
    requires env == SurroundingsOf(w) && WellFormed(env) && OnMap(MoveView(w), env)
    requires e in w.positions && e in w.viewsheds
    modifies w`positions, w`viewsheds, w`playerPos, w`wantsToMelee
    ensures env == SurroundingsOf(w)
    ensures var r := PlayerStep(old(MoveView(w)), e, dx, dy, env);
      MoveView(w) == r.state && stop == r.Stop?
  {
    ghost var before := MoveView(w);
    var pos := w.positions[e];
    var x, y := pos.x + dx, pos.y + dy;
    if x < 1 || x > w.level.width - 1 || y < 1 || y > w.level.height - 1 {
      RejectedDestination(before, e, dx, dy, env);
      return true;
    }
    XyIdxInRange(env.width, env.height, Point(x, y));
    var destination := XyIdx(w.level.width, x, y);
    var target := FindTarget(w.level.tileContent[destination], w.combatStats.Keys);
    if target.Some? {
      StepAgainstTarget(before, e, dx, dy, env, target.value);
      w.wantsToMelee := w.wantsToMelee[e := WantsToMelee(target.value)];
      return true;
    }
    StepWithoutTarget(before, e, dx, dy, env);
    if !w.level.blocked[destination] {
      var moved := Point(ClampToScreen(x), ClampToScreen(y));
      w.positions := w.positions[e := moved];
      w.viewsheds := w.viewsheds[e := w.viewsheds[e].(dirty := true)];
      w.playerPos := moved;
    }
    return false;
  }

  /** `try_move_player`: the join over player entities, stopping at the first refusal or attack. */
  method TryMovePlayer(w: World, dx: int, dy: int)
    requires w.Valid()
    modifies w`positions, w`viewsheds, w`playerPos, w`wantsToMelee
    ensures w.Valid()
    ensures MoveView(w) == MoveAll(old(MoveView(w)), w.entities, dx, dy, SurroundingsOf(w))
  {
    ghost var env := SurroundingsOf(w);
    ghost var goal := MoveAll(MoveView(w), w.entities, dx, dy, env);
    var i := 0;
    while i < |w.entities|
      invariant 0 <= i <= |w.entities|
      invariant env == SurroundingsOf(w) && WellFormed(env)
      invariant OnMap(MoveView(w), env)
      invariant w.positions.Keys == old(w.positions.Keys) && w.viewsheds.Keys == old(w.viewsheds.Keys)
      invariant MoveAll(MoveView(w), w.entities[i..], dx, dy, env) == goal
    {
      var e := w.entities[i];
      assert w.entities[i..][0] == e && w.entities[i..][1..] == w.entities[i + 1..];
      if e in w.players && e in w.positions && e in w.viewsheds {
        var stop := StepPlayer(w, e, dx, dy, env);
        if stop {
          return;
        }
      }
      i := i + 1;
    }
  }

  /**
   * `player_input`: no key or an unmapped key leaves the world alone and keeps waiting
   * for input; a mapped key runs the mover with its direction and hands the turn on,
   * whether or not the move was carried out.
   */
  method PlayerInput(w: World, key: Option<VirtualKeyCode>) returns (rs: RunState)
    requires w.Valid()
    modifies w`positions, w`viewsheds, w`playerPos, w`wantsToMelee
    ensures w.Valid()
    ensures rs == if Intent(key).Some? then PlayerTurn else AwaitingInput
    ensures Intent(key).None? ==> MoveView(w) == old(MoveView(w))
    ensures Intent(key).Some? ==>
      MoveView(w) == MoveAll(old(MoveView(w)), w.entities, Intent(key).value.0, Intent(key).value.1, SurroundingsOf(w))
  {
    var direction := Intent(key);
    if direction.None? {
      return AwaitingInput;
    }
    TryMovePlayer(w, direction.value.0, direction.value.1);
    rs := PlayerTurn;
  }
}
