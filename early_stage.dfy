/**
 * The early-stage crate root (src/lib.rs). Arrow keys move every player entity by one
 * tile, clamped to the 80-column screen on both axes. The left walker moves every
 * left-mover one column left, wrapping from column 0 to column 79.
 */
module EarlyStage {

  import opened Wrappers
  import opened Components
  import PlayerMove

  /** The direction each arrow key stands for; any other key has none. */
  function ArrowDelta(key: VirtualKeyCode): (d: Option<(int, int)>)
    ensures d.Some? <==> key.Down? || key.Left? || key.Right? || key.Up?
    ensures d.Some? ==> d.value in {(0, 1), (-1, 0), (1, 0), (0, -1)}
  {
    match key
    case Down => Some((0, 1))
    case Left => Some((-1, 0))
    case Right => Some((1, 0))
    case Up => Some((0, -1))
    case _ => None
  }

  /** The four arrow keys keep the directions the later input handler gives them. */
  lemma ArrowsAgreeWithLaterStage(key: VirtualKeyCode)
    requires ArrowDelta(key).Some?
    ensures PlayerMove.KeyDelta(key) == ArrowDelta(key)
  {
  }

  /** A player's new position: `min(79, max(0, v + delta))` on each axis. */
  function ClampedStep(p: Point, dx: int, dy: int): (r: Point)
    ensures 0 <= r.x <= 79 && 0 <= r.y <= 79
    ensures 0 <= p.x + dx <= 79 && 0 <= p.y + dy <= 79 ==> r == Point(p.x + dx, p.y + dy)
  {
    Point(ClampToScreen(p.x + dx), ClampToScreen(p.y + dy))
  }

  /** A left-mover's new column: one to the left, or column 79 when that would be negative. */
  function WalkLeft(x: int): (r: int)
    ensures x >= 1 ==> r == x - 1
    ensures x < 1 ==> r == 79
  {
    if x - 1 < 0 then 79 else x - 1
  }

  /** On the screen, the walk is a rotation of the 80 columns by one. */
  lemma WalkLeftRotates(x: int)
    requires 0 <= x <= 79
    ensures WalkLeft(x) == (x + 79) % 80
    ensures 0 <= WalkLeft(x) <= 79
  {
  }

  /** Positions after the early `try_move_player`: each player clamped, everyone else unchanged. */
  function AfterMove(positions: map<Entity, Position>, players: set<Entity>, dx: int, dy: int): map<Entity, Position>
  {
    map e | e in positions :: if e in players then ClampedStep(positions[e], dx, dy) else positions[e]
  }

  /** Whatever the start and the delta, every player ends on the screen and nobody else moves. */
  lemma MoveKeepsPlayersOnScreen(positions: map<Entity, Position>, players: set<Entity>, dx: int, dy: int)
    ensures var r := AfterMove(positions, players, dx, dy);
      && r.Keys == positions.Keys
      && (forall e :: e in r && e in players ==> 0 <= r[e].x <= 79 && 0 <= r[e].y <= 79)
      && (forall e :: e in r && e !in players ==> r[e] == positions[e])
  {
  }

  /** Positions after `LeftWalker::run`: each left-mover walks left, everyone else unchanged. */
  function AfterWalk(positions: map<Entity, Position>, leftMovers: set<Entity>): map<Entity, Position>
  {
    map e | e in positions :: if e in leftMovers then positions[e].(x := WalkLeft(positions[e].x)) else positions[e]
  }

  /**
   * The walk keeps rows, keeps left-movers that start on the screen on it, and moves
   * nobody else.
   */
  lemma WalkKeepsRowsAndScreen(positions: map<Entity, Position>, leftMovers: set<Entity>)
    ensures var r := AfterWalk(positions, leftMovers);
      && r.Keys == positions.Keys
      && (forall e :: e in r ==> r[e].y == positions[e].y)
      && (forall e :: e in r && e in leftMovers && 0 <= positions[e].x <= 79 ==> 0 <= r[e].x <= 79)
      && (forall e :: e in r && e !in leftMovers ==> r[e] == positions[e])
  {
  }

  /** The early stage's world: entities in creation order, positions and the two tags. */
  class Stage {
    var entities: seq<Entity>
    var positions: map<Entity, Position>
    var players: set<Entity>
    var leftMovers: set<Entity>

    ghost predicate Valid()
      reads this
    {
      Distinct(entities) && forall e :: e in positions ==> e in entities
    }

    constructor ()
      ensures Valid() && entities == [] && positions == map[] && players == {} && leftMovers == {}
    {
      entities := [];
      positions := map[];
      players := {};
      leftMovers := {};
    }

    /** `try_move_player`: the join over players with positions. */
    method TryMovePlayer(dx: int, dy: int)
      requires Valid()
      modifies this`positions
      ensures Valid()
      ensures positions == AfterMove(old(positions), players, dx, dy)
    {
      var i := 0;
      while i < |entities|
        invariant 0 <= i <= |entities|
        invariant positions.Keys == old(positions).Keys
        invariant forall e :: e in positions ==>
          positions[e] == if e in players && e in entities[..i] then ClampedStep(old(positions)[e], dx, dy)
                          else old(positions)[e]
      {
        var e := entities[i];
        assert forall k :: 0 <= k < i ==> entities[k] != e;
        if e in players && e in positions {
          positions := positions[e := ClampedStep(positions[e], dx, dy)];
        }
        assert entities[..i + 1] == entities[..i] + [e];
        i := i + 1;
      }
      assert entities[..i] == entities;
    }

    /** `LeftWalker::run`: the join over left-movers with positions. */
    method RunLeftWalker()
      requires Valid()
      modifies this`positions
      ensures Valid()
      ensures positions == AfterWalk(old(positions), leftMovers)
    {
      var i := 0;
      while i < |entities|
        invariant 0 <= i <= |entities|
        invariant positions.Keys == old(positions).Keys
        invariant forall e :: e in positions ==>
          positions[e] == if e in leftMovers && e in entities[..i] then old(positions)[e].(x := WalkLeft(old(positions)[e].x))
                          else old(positions)[e]
      {
        var e := entities[i];
        assert forall k :: 0 <= k < i ==> entities[k] != e;
        if e in leftMovers && e in positions {
          var pos := positions[e];
          pos := pos.(x := pos.x - 1);
          if pos.x < 0 {
            pos := pos.(x := 79);
          }
          positions := positions[e := pos];
        }
        assert entities[..i + 1] == entities[..i] + [e];
        i := i + 1;
      }
      assert entities[..i] == entities;
    }

    /** `player_input`: an arrow key moves the players; no key or any other key changes nothing. */
    method PlayerInput(key: Option<VirtualKeyCode>)
      requires Valid()
      modifies this`positions
      ensures Valid()
      ensures key.None? || ArrowDelta(key.value).None? ==> positions == old(positions)
      ensures key.Some? && ArrowDelta(key.value).Some? ==>
        positions == AfterMove(old(positions), players, ArrowDelta(key.value).value.0, ArrowDelta(key.value).value.1)
    {
      match key
      case None =>
      case Some(k) =>
        match k
        case Down => TryMovePlayer(0, 1);
        case Left => TryMovePlayer(-1, 0);
        case Right => TryMovePlayer(1, 0);
        case Up => TryMovePlayer(0, -1);
        case _ =>
    }

    /** `tick`: the left walker runs first, then the frame's input is handled. */
    method Tick(key: Option<VirtualKeyCode>)
      requires Valid()
      modifies this`positions
      ensures Valid()
      ensures var walked := AfterWalk(old(positions), leftMovers);
        positions == if key.Some? && ArrowDelta(key.value).Some?
                     then AfterMove(walked, players, ArrowDelta(key.value).value.0, ArrowDelta(key.value).value.1)
                     else walked
    {
      RunLeftWalker();
      PlayerInput(key);
    }
  }
}
