/**
 * The turn scheduler (src/state.rs). A tick in the running phase runs the visibility
 * system and then the monster AI, and pauses. Any other tick takes its next phase from
 * player input. Afterwards the entities standing on visible tiles are drawn.
 */
module GameState {

  import opened Wrappers
  import opened Components
  import opened Grid
  import opened Ecs
  import PlayerMove
  import MonsterAi
  import Visibility

  /** The entities of `es` to draw: those with a position and a glyph whose tile is visible. */
  function Drawn(es: seq<Entity>, positions: map<Entity, Position>, renderables: map<Entity, Renderable>,
                 visible: seq<bool>, width: int, height: int): (r: seq<Entity>)
    requires |visible| == width * height
    requires forall e :: e in positions ==> InGrid(positions[e], width, height)
    ensures |r| <= |es|
    ensures forall x :: x in r ==> x in es
    ensures Distinct(es) ==> Distinct(r)
    decreases |es|
  {
    if es == [] then []
    else
      var rest := Drawn(es[1..], positions, renderables, visible, width, height);
      var e := es[0];
      assert Distinct(es) ==> e !in es[1..];
      if e in positions && e in renderables then
        XyIdxInRange(width, height, positions[e]);
        if visible[XyIdx(width, positions[e].x, positions[e].y)] then [e] + rest else rest
      else rest
  }

  /** An entity is drawn exactly when it has a position and a glyph and its tile is visible. */
  lemma {:induction false} DrawnExactlyVisible(es: seq<Entity>, positions: map<Entity, Position>,
                                               renderables: map<Entity, Renderable>,
                                               visible: seq<bool>, width: int, height: int, e: Entity)
    requires |visible| == width * height
    requires forall e :: e in positions ==> InGrid(positions[e], width, height)
    ensures e in Drawn(es, positions, renderables, visible, width, height) <==>
      && e in es && e in positions && e in renderables
      && 0 <= XyIdx(width, positions[e].x, positions[e].y) < |visible|
      && visible[XyIdx(width, positions[e].x, positions[e].y)]
    decreases |es|
  {
    if es != [] {
      DrawnExactlyVisible(es[1..], positions, renderables, visible, width, height, e);
      assert es == [es[0]] + es[1..];
      if e in positions {
        XyIdxInRange(width, height, positions[e]);
      }
    }
  }

  class State {
    const ecs: World
    /** The scheduler's own phase; the monster AI reads the world's run-state resource instead. */
    var runstate: RunState

    ghost predicate Valid()
      reads this, ecs, ecs.level
    {
      ecs.Valid()
    }

    constructor (ecs: World, runstate: RunState)
      requires ecs.Valid()
      ensures Valid() && this.ecs == ecs && this.runstate == runstate
    {
      this.ecs := ecs;
      this.runstate := runstate;
    }

    /**
     * `run_systems`: the visibility system and then the monster AI, the AI seeing the
     * viewsheds the visibility system left behind.
     */
    method RunSystems(fov: Visibility.FieldOfView, aStar: MonsterAi.PathSearch)
      requires Valid() && MonsterAi.PathsOnGrid(aStar, ecs.level.width * ecs.level.height)
      modifies ecs`viewsheds, ecs`positions, ecs`wantsToMelee
      modifies ecs.level`visibleTiles, ecs.level`revealedTiles, ecs.level`blocked
      ensures Valid()
      ensures var mid := Visibility.VisibilityPass(old(Visibility.SightOf(ecs)), ecs.entities,
                                                   old(Visibility.SceneOf(ecs)), fov);
        var start := old(MonsterAi.PursuitOf(ecs)).(viewsheds := mid.viewsheds);
        && ecs.level.visibleTiles == mid.visible && ecs.level.revealedTiles == mid.revealed
        && MonsterAi.PursuitOf(ecs) ==
             if ecs.runState == MonsterTurn then MonsterAi.MonsterPass(start, ecs.entities, old(MonsterAi.HuntOf(ecs)), aStar)
             else start
    {
      Visibility.RunVisibility(ecs, fov);
      MonsterAi.RunMonsterAi(ecs, aStar);
    }

    /** The entities drawn at the end of a tick, in entity order. */
    method VisibleEntities() returns (drawn: seq<Entity>)
      requires Valid()
      ensures drawn == Drawn(ecs.entities, ecs.positions, ecs.renderables, ecs.level.visibleTiles,
                             ecs.level.width, ecs.level.height)
    {
      drawn := [];
      var i := |ecs.entities|;
      while i > 0
        invariant 0 <= i <= |ecs.entities|
        invariant drawn == Drawn(ecs.entities[i..], ecs.positions, ecs.renderables, ecs.level.visibleTiles,
                                 ecs.level.width, ecs.level.height)
      {
        i := i - 1;
        var e := ecs.entities[i];
        assert ecs.entities[i..][0] == e && ecs.entities[i..][1..] == ecs.entities[i + 1..];
        if e in ecs.positions && e in ecs.renderables {
          var pos := ecs.positions[e];
          XyIdxInRange(ecs.level.width, ecs.level.height, pos);
          if ecs.level.visibleTiles[XyIdx(ecs.level.width, pos.x, pos.y)] {
            drawn := [e] + drawn;
          }
        }
      }
    }

    /**
     * `tick`: in the running phase the systems run and the phase becomes paused; in any
     * other phase the next phase is what player input returns. The entities on visible
     * tiles are drawn last.
     */
    method Tick(key: Option<VirtualKeyCode>, fov: Visibility.FieldOfView, aStar: MonsterAi.PathSearch)
      returns (drawn: seq<Entity>)
      requires Valid() && MonsterAi.PathsOnGrid(aStar, ecs.level.width * ecs.level.height)
      modifies this`runstate, ecs`viewsheds, ecs`positions, ecs`wantsToMelee, ecs`playerPos
      modifies ecs.level`visibleTiles, ecs.level`revealedTiles, ecs.level`blocked
      ensures Valid()
      ensures old(runstate) == Running ==> runstate == Paused
      ensures old(runstate) == Running ==>
        var mid := Visibility.VisibilityPass(old(Visibility.SightOf(ecs)), ecs.entities, old(Visibility.SceneOf(ecs)), fov);
        var start := old(MonsterAi.PursuitOf(ecs)).(viewsheds := mid.viewsheds);
        && ecs.level.visibleTiles == mid.visible && ecs.level.revealedTiles == mid.revealed
        && ecs.playerPos == old(ecs.playerPos)
        && MonsterAi.PursuitOf(ecs) ==
             if ecs.runState == MonsterTurn then MonsterAi.MonsterPass(start, ecs.entities, old(MonsterAi.HuntOf(ecs)), aStar)
             else start
      ensures old(runstate) != Running ==>
        && runstate == (if PlayerMove.Intent(key).Some? then PlayerTurn else AwaitingInput)
        && ecs.level.visibleTiles == old(ecs.level.visibleTiles)
        && ecs.level.revealedTiles == old(ecs.level.revealedTiles)
        && ecs.level.blocked == old(ecs.level.blocked)
      ensures old(runstate) != Running && PlayerMove.Intent(key).None? ==>
        PlayerMove.MoveView(ecs) == old(PlayerMove.MoveView(ecs))
      ensures old(runstate) != Running && PlayerMove.Intent(key).Some? ==>
        PlayerMove.MoveView(ecs) == PlayerMove.MoveAll(old(PlayerMove.MoveView(ecs)), ecs.entities,
                                                       PlayerMove.Intent(key).value.0, PlayerMove.Intent(key).value.1,
                                                       PlayerMove.SurroundingsOf(ecs))
      ensures drawn == Drawn(ecs.entities, ecs.positions, ecs.renderables, ecs.level.visibleTiles,
                             ecs.level.width, ecs.level.height)
    {
      if runstate == Running {
        RunSystems(fov, aStar);
        runstate := Paused;
      } else {
        runstate := PlayerMove.PlayerInput(ecs, key);
      }
      drawn := VisibleEntities();
    }
  }
}
