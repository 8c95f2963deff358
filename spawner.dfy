/**
 * The component records the spawner attaches to a new entity (src/spawner.rs).
 * Allocating the entity in the world is not part of this model: each builder
 * returns the record it would attach.
 */
module Spawner {

  import opened Components
  import opened Grid

  const VIEW_RANGE := 8

  /** What one `create_entity` chain attaches; the tag components are flags. */
  datatype SpawnRecord = SpawnRecord(
    position: Position,
    renderable: Renderable,
    name: string,
    viewshed: Viewshed,
    stats: CombatStats,
    isPlayer: bool,
    isMonster: bool,
    blocksTile: bool)

  /** Hit points lie between zero and the maximum. */
  predicate SoundStats(c: CombatStats)
  {
    0 <= c.hp <= c.maxHp
  }

  /** A viewshed that has seen nothing yet and must be computed on the next pass. */
  predicate FreshViewshed(v: Viewshed)
  {
    v.visibleTiles == [] && v.range == VIEW_RANGE && v.dirty
  }

  /** The player: '@' at (x, y), 30 of 30 hit points, defence 2, power 5, no monster tags. */
  function Player(x: int, y: int): (r: SpawnRecord)
    ensures r.position == Point(x, y) && r.name == "Player" && r.renderable.glyph == '@'
    ensures r.isPlayer && !r.isMonster && !r.blocksTile
    ensures FreshViewshed(r.viewshed) && SoundStats(r.stats)
    ensures r.stats.maxHp == r.stats.hp == 30 && r.stats.defense == 2 && r.stats.power == 5
  {
    SpawnRecord(Point(x, y), Renderable('@'), "Player", Viewshed([], VIEW_RANGE, true),
                CombatStats(30, 30, 2, 5), true, false, false)
  }

  /** A monster with the given glyph and name: 16 of 16 hit points, defence 1, power 4, blocking. */
  function Monster(x: int, y: int, glyph: char, name: string): (r: SpawnRecord)
    ensures r.position == Point(x, y) && r.name == name && r.renderable.glyph == glyph
    ensures r.isMonster && r.blocksTile && !r.isPlayer
    ensures FreshViewshed(r.viewshed) && SoundStats(r.stats)
    ensures r.stats.maxHp == r.stats.hp == 16 && r.stats.defense == 1 && r.stats.power == 4
  {
    SpawnRecord(Point(x, y), Renderable(glyph), name, Viewshed([], VIEW_RANGE, true),
                CombatStats(16, 16, 1, 4), false, true, true)
  }

  /** An orc: glyph 'o', named "Orc", with the monster stats. */
  function Orc(x: int, y: int): (r: SpawnRecord)
    ensures r.renderable.glyph == 'o' && r.name == "Orc"
    ensures r.isMonster && r.blocksTile && !r.isPlayer && r.position == Point(x, y)
    ensures r.stats == CombatStats(16, 16, 1, 4) && FreshViewshed(r.viewshed)
  {
    Monster(x, y, 'o', "Orc")
  }

  /** A goblin: glyph 'g', named "Goblin", with the monster stats. */
  function Goblin(x: int, y: int): (r: SpawnRecord)
    ensures r.renderable.glyph == 'g' && r.name == "Goblin"
    ensures r.isMonster && r.blocksTile && !r.isPlayer && r.position == Point(x, y)
    ensures r.stats == CombatStats(16, 16, 1, 4) && FreshViewshed(r.viewshed)
  {
    Monster(x, y, 'g', "Goblin")
  }

  /**
   * `random_monster`: a roll of one die with two sides picks an orc on 1 and a goblin
   * otherwise. `raw` is the generator's draw.
   */
  function RandomMonster(raw: nat, x: int, y: int): (r: SpawnRecord)
    ensures r.isMonster && r.position == Point(x, y) && SoundStats(r.stats)
    ensures r.renderable.glyph == 'o' <==> DiceRoll(2, raw) == 1
    ensures r == Orc(x, y) || r == Goblin(x, y)
  {
    match DiceRoll(2, raw)
    case 1 => Orc(x, y)
    case _ => Goblin(x, y)
  }
}
