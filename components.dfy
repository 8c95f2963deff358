/**
 * The component records of the entity-component store, as plain values.
 * Rendering colours are left out; a renderable keeps only its glyph.
 */
module Components {

  /** An opaque entity identifier. */
  type Entity = nat

  /** A grid coordinate; the source's `Position` component and the library's `Point` have the same shape. */
  datatype Point = Point(x: int, y: int)

  type Position = Point

  datatype Renderable = Renderable(glyph: char)

  /** The tiles an actor can see, how far it can see and whether the set must be recomputed. */
  datatype Viewshed = Viewshed(visibleTiles: seq<Point>, range: int, dirty: bool)

  datatype CombatStats = CombatStats(maxHp: int, hp: int, defense: int, power: int)

  /** The one-turn intent to attack `target`. */
  datatype WantsToMelee = WantsToMelee(target: Entity)

  /**
   * The phase of the turn scheduler. The source's stages disagree on the variants
   * (`Paused`/`Running` in the scheduler, `AwaitingInput`/`PlayerTurn`/`MonsterTurn`
   * in input handling and the monster AI, `PreRun` at start-up); this is their union.
   */
  datatype RunState = PreRun | AwaitingInput | PlayerTurn | MonsterTurn | Paused | Running

  /** A point lies on a `width` by `height` grid. */
  predicate InGrid(p: Point, width: int, height: int)
  {
    0 <= p.x < width && 0 <= p.y < height
  }

  /** All elements of `s` are different. */
  predicate Distinct<T(==)>(s: seq<T>)
  {
    forall i, j :: 0 <= i < j < |s| ==> s[i] != s[j]
  }

  /** The keys the input handlers look at; every other key is `Other`. */
  datatype VirtualKeyCode =
    | Left | Right | Up | Down
    | H | J | K | L | Y | U | B | N
    | Numpad1 | Numpad2 | Numpad3 | Numpad4 | Numpad6 | Numpad7 | Numpad8 | Numpad9
    | Other(code: nat)

  /**
   * `min(79, max(0, v))`, the screen clamp both movers apply to each coordinate: the
   * result is on the 80-column screen and equals `v` whenever `v` already is.
   */
  function ClampToScreen(v: int): (r: int)
    ensures 0 <= r <= 79
    ensures 0 <= v <= 79 ==> r == v
    ensures v < 0 ==> r == 0
    ensures v > 79 ==> r == 79
  {
    if v < 0 then 0 else if v > 79 then 79 else v
  }
}
