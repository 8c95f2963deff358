/**
 * The entity-component world the systems run over: one map per component type, a set
 * per tag component, the resources the systems fetch, and the shared tile map.
 * Joins visit `entities` in creation order.
 */
module Ecs {

  import opened Components
  import opened Grid

  class World {
    /** The live entities, in creation order. */
    var entities: seq<Entity>
    var positions: map<Entity, Position>
    var renderables: map<Entity, Renderable>
    var viewsheds: map<Entity, Viewshed>
    var combatStats: map<Entity, CombatStats>
    var wantsToMelee: map<Entity, WantsToMelee>
    var players: set<Entity>
    var monsters: set<Entity>
    /** The `Point` resource: where the player stands. */
    var playerPos: Point
    /** The `Entity` resource: the player's entity. */
    var playerEntity: Entity
    /** The `RunState` resource the monster AI consults. */
    var runState: RunState
    /** The `Map` resource. */
    const level: Map

    /**
     * Every entity is listed once, every component belongs to a listed entity and
     * every position is on the map.
     */
    ghost predicate Valid()
      reads this, level
    {
      && level.Valid()
      && Distinct(entities)
      && (forall e :: e in positions ==> e in entities && InGrid(positions[e], level.width, level.height))
      && (forall e :: e in viewsheds ==> e in entities)
    }

    /** An empty world on `level`, in the start-up run state. */
    constructor (level: Map, playerEntity: Entity, playerPos: Point)
      requires level.Valid()
      ensures Valid() && this.level == level
      ensures entities == [] && positions == map[] && viewsheds == map[] && wantsToMelee == map[]
      ensures this.playerEntity == playerEntity && this.playerPos == playerPos && runState == PreRun
    {
      entities := [];
      positions := map[];
      renderables := map[];
      viewsheds := map[];
      combatStats := map[];
      wantsToMelee := map[];
      players := {};
      monsters := {};
      this.playerPos := playerPos;
      this.playerEntity := playerEntity;
      runState := PreRun;
      this.level := level;
    }
  }
}
