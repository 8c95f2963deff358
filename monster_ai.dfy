/**
 * The monster AI system (src/monster_ai_system.rs). On the monsters' turn, each monster
 * next to the player asks to attack it. A monster that can see the player instead takes
 * the second tile of the path search's route towards it, and the tile's blocked bit
 * moves with it.
 */
module MonsterAi {

  import opened Components
  import opened Grid
  import opened Ecs

  /** The path search's answer: whether it reached the goal, and the tile indices it visits, start first. */
  datatype NavigationPath = NavigationPath(success: bool, steps: seq<int>)

  /** The A* search: start index, goal index, and the map it walks (tiles and blocked bits). */
  type PathSearch = (int, int, seq<TileType>, seq<bool>) -> NavigationPath

  /** The search only names tiles of a map with `count` tiles. */
  ghost predicate PathsOnGrid(aStar: PathSearch, count: int)
  {
    forall start, goal, tiles, blocked ::
      aStar(start, goal, tiles, blocked).success && |aStar(start, goal, tiles, blocked).steps| > 1
      ==> 0 <= aStar(start, goal, tiles, blocked).steps[1] < count
  }

  /** The part of the world the monster AI may change. */
  datatype Pursuit = Pursuit(
    positions: map<Entity, Position>,
    viewsheds: map<Entity, Viewshed>,
    blocked: seq<bool>,
    wantsToMelee: map<Entity, WantsToMelee>)

  /** What the monster AI reads without changing: the monster tags, the player resources and the map. */
  datatype Hunt = Hunt(
    monsters: set<Entity>,
    playerPos: Point,
    playerEntity: Entity,
    width: int,
    height: int,
    tiles: seq<TileType>)

  /** The blocked bits cover the map and every position is on it. */
  predicate Placed(s: Pursuit, h: Hunt)
  {
    && h.width > 0 && h.height > 0
    && |s.blocked| == h.width * h.height
    && forall e :: e in s.positions ==> InGrid(s.positions[e], h.width, h.height)
  }

  function SquaredDistance(p: Point, q: Point): int
  {
    (p.x - q.x) * (p.x - q.x) + (p.y - q.y) * (p.y - q.y)
  }

  /** The attack range: a Pythagorean distance below 1.5. */
  predicate Adjacent(p: Point, q: Point)
  {
    SquaredDistance(p, q) <= 2
  }

  /**
   * On integer points the squared distance is a whole number, so it is at most 2 exactly
   * when it is below 1.5 squared; the distance is below 1.5 exactly when its square is.
   */
  lemma AdjacentMatchesPythagoras(p: Point, q: Point)
    ensures SquaredDistance(p, q) >= 0
    ensures Adjacent(p, q) <==> (SquaredDistance(p, q) as real) < 1.5 * 1.5
  {
    SquareNonNegative(p.x - q.x);
    SquareNonNegative(p.y - q.y);
  }

  /** Within attack range means at most one step away along each axis, diagonals included. */
  lemma AdjacentIsChebyshevOne(p: Point, q: Point)
    ensures Adjacent(p, q) <==> -1 <= p.x - q.x <= 1 && -1 <= p.y - q.y <= 1
  {
    var dx, dy := p.x - q.x, p.y - q.y;
    SquareNonNegative(dx);
    SquareNonNegative(dy);
    if dx < -1 || dx > 1 {
      SquareOfFarAtLeastFour(dx);
    }
    if dy < -1 || dy > 1 {
      SquareOfFarAtLeastFour(dy);
    }
  }

  lemma SquareNonNegative(d: int)
    ensures d * d >= 0
  {
    if d < 0 {
      assert d * d == (-d) * (-d);
    }
  }

  lemma SquareOfFarAtLeastFour(d: int)
    requires d < -1 || d > 1
    ensures d * d >= 4
  {
    if d > 1 {
      MulMonotone(2, d, d);
    } else {
      MulMonotone(2, -d, -d);
      assert d * d == (-d) * (-d);
    }
  }

  /** The route the search proposes from monster `e`'s tile to the player's tile. */
  function Route(s: Pursuit, e: Entity, h: Hunt, aStar: PathSearch): NavigationPath
    requires e in s.positions
  {
    var pos := s.positions[e];
    aStar(XyIdx(h.width, pos.x, pos.y), XyIdx(h.width, h.playerPos.x, h.playerPos.y), h.tiles, s.blocked)
  }

  /** Whether a route moves the monster: it reached the player and has a tile after the start. */
  predicate Usable(path: NavigationPath)
  {
    path.success && |path.steps| > 1
  }

  /** What the AI does for one monster `e`. */
  function MonsterAct(s: Pursuit, e: Entity, h: Hunt, aStar: PathSearch): (r: Pursuit)
    requires Placed(s, h) && e in s.positions && e in s.viewsheds
    requires PathsOnGrid(aStar, h.width * h.height)
    ensures Placed(r, h)
    ensures r.positions.Keys == s.positions.Keys && r.viewsheds.Keys == s.viewsheds.Keys
  {
    var pos := s.positions[e];
    if Adjacent(pos, h.playerPos) then
      s.(wantsToMelee := s.wantsToMelee[e := WantsToMelee(h.playerEntity)])
    else if h.playerPos !in s.viewsheds[e].visibleTiles then s
    else
      var path := Route(s, e, h, aStar);
      if !Usable(path) then s
      else
        XyIdxInRange(h.width, h.height, pos);
        XyIdxDecodeInGrid(h.width, h.height, path.steps[1]);
        var vacated := s.blocked[XyIdx(h.width, pos.x, pos.y) := false];
        var moved := Point(path.steps[1] % h.width, path.steps[1] / h.width);
        Pursuit(s.positions[e := moved], s.viewsheds[e := s.viewsheds[e].(dirty := true)],
                vacated[XyIdx(h.width, moved.x, moved.y) := true], s.wantsToMelee)
  }

  /**
   * A monster within attack range asks to attack the player, whatever it can see, and
   * nothing else changes.
   */
  lemma AdjacentMonsterAttacks(s: Pursuit, e: Entity, h: Hunt, aStar: PathSearch)
    requires Placed(s, h) && e in s.positions && e in s.viewsheds
    requires PathsOnGrid(aStar, h.width * h.height)
    requires Adjacent(s.positions[e], h.playerPos)
    ensures var r := MonsterAct(s, e, h, aStar);
      && e in r.wantsToMelee && r.wantsToMelee[e].target == h.playerEntity
      && r.wantsToMelee == s.wantsToMelee[e := r.wantsToMelee[e]]
      && r.positions == s.positions && r.viewsheds == s.viewsheds && r.blocked == s.blocked
  {
  }

  /** A monster out of range that cannot see the player is left alone. */
  lemma UnseenPlayerIgnored(s: Pursuit, e: Entity, h: Hunt, aStar: PathSearch)
    requires Placed(s, h) && e in s.positions && e in s.viewsheds
    requires PathsOnGrid(aStar, h.width * h.height)
    requires !Adjacent(s.positions[e], h.playerPos)
    requires h.playerPos !in s.viewsheds[e].visibleTiles
    ensures MonsterAct(s, e, h, aStar) == s
  {
  }

  /** Without a usable route the monster stays put: position, blocked bits and dirty flag unchanged. */
  lemma NoRouteNoStep(s: Pursuit, e: Entity, h: Hunt, aStar: PathSearch)
    requires Placed(s, h) && e in s.positions && e in s.viewsheds
    requires PathsOnGrid(aStar, h.width * h.height)
    requires !Adjacent(s.positions[e], h.playerPos)
    requires !Usable(Route(s, e, h, aStar))
    ensures MonsterAct(s, e, h, aStar) == s
  {
  }

  /**
   * A monster that sees the player and has a usable route moves to the route's second
   * tile: its new position has that tile's index, the new tile is blocked, the old one
   * is freed unless it is the same tile, no other tile's bit changes, its viewshed is
   * marked dirty, and no other entity moves.
   */
  lemma StepAlongRoute(s: Pursuit, e: Entity, h: Hunt, aStar: PathSearch)
    requires Placed(s, h) && e in s.positions && e in s.viewsheds
    requires PathsOnGrid(aStar, h.width * h.height)
    requires !Adjacent(s.positions[e], h.playerPos)
    requires h.playerPos in s.viewsheds[e].visibleTiles
    requires Usable(Route(s, e, h, aStar))
    ensures var r := MonsterAct(s, e, h, aStar);
      var next := Route(s, e, h, aStar).steps[1];
      var from := XyIdx(h.width, s.positions[e].x, s.positions[e].y);
      && 0 <= next < |r.blocked| && 0 <= from < |r.blocked|
      && XyIdx(h.width, r.positions[e].x, r.positions[e].y) == next
      && r.positions == s.positions[e := r.positions[e]]
      && r.blocked[next]
      && (from != next ==> !r.blocked[from])
      && (forall i :: 0 <= i < |r.blocked| && i != from && i != next ==> r.blocked[i] == s.blocked[i])
      && r.viewsheds == s.viewsheds[e := s.viewsheds[e].(dirty := true)]
      && r.wantsToMelee == s.wantsToMelee
  {
    XyIdxInRange(h.width, h.height, s.positions[e]);
    XyIdxDecodeInGrid(h.width, h.height, Route(s, e, h, aStar).steps[1]);
  }

  /** The AI's join over `es`: every monster with a viewshed and a position acts, in order. */
  function MonsterPass(s: Pursuit, es: seq<Entity>, h: Hunt, aStar: PathSearch): (r: Pursuit)
    requires Placed(s, h) && PathsOnGrid(aStar, h.width * h.height)
    ensures Placed(r, h)
    ensures r.positions.Keys == s.positions.Keys && r.viewsheds.Keys == s.viewsheds.Keys
    decreases |es|
  {
    if es == [] then s
    else
      var e := es[0];
      var next := if e in h.monsters && e in s.positions && e in s.viewsheds then MonsterAct(s, e, h, aStar) else s;
      MonsterPass(next, es[1..], h, aStar)
  }

  /** Entities without the monster tag keep their position, viewshed and melee intent through the pass. */
  lemma {:induction false} MonsterPassKeepsOthers(s: Pursuit, es: seq<Entity>, h: Hunt, aStar: PathSearch, o: Entity)
    requires Placed(s, h) && PathsOnGrid(aStar, h.width * h.height)
    requires o !in h.monsters
    ensures var r := MonsterPass(s, es, h, aStar);
      && (o in s.positions ==> r.positions[o] == s.positions[o])
      && (o in s.viewsheds ==> r.viewsheds[o] == s.viewsheds[o])
      && (o in r.wantsToMelee <==> o in s.wantsToMelee)
      && (o in s.wantsToMelee ==> r.wantsToMelee[o] == s.wantsToMelee[o])
    decreases |es|
  {
    if es != [] {
      var e := es[0];
      var next := if e in h.monsters && e in s.positions && e in s.viewsheds then MonsterAct(s, e, h, aStar) else s;
      MonsterPassKeepsOthers(next, es[1..], h, aStar, o);
    }
  }

  /** Every melee intent after the pass was already there or is a monster's attack on the player. */
  lemma {:induction false} MonsterPassIntents(s: Pursuit, es: seq<Entity>, h: Hunt, aStar: PathSearch)
    requires Placed(s, h) && PathsOnGrid(aStar, h.width * h.height)
    ensures var r := MonsterPass(s, es, h, aStar);
      forall e :: e in r.wantsToMelee ==>
        || (e in s.wantsToMelee && r.wantsToMelee[e] == s.wantsToMelee[e])
        || (e in h.monsters && r.wantsToMelee[e].target == h.playerEntity)
    decreases |es|
  {
    if es != [] {
      var e := es[0];
      var next := if e in h.monsters && e in s.positions && e in s.viewsheds then MonsterAct(s, e, h, aStar) else s;
      MonsterPassIntents(next, es[1..], h, aStar);
    }
  }

  function PursuitOf(w: World): Pursuit
    reads w, w.level
  {
    Pursuit(w.positions, w.viewsheds, w.level.blocked, w.wantsToMelee)
  }

  function HuntOf(w: World): Hunt
    reads w, w.level
  {
    Hunt(w.monsters, w.playerPos, w.playerEntity, w.level.width, w.level.height, w.level.tiles)
  }

  /** One monster's turn in the AI's join. */
  method StepMonster(w: World, e: Entity, ghost h: Hunt, aStar: PathSearch)
    requires h == HuntOf(w) && Placed(PursuitOf(w), h) && PathsOnGrid(aStar, h.width * h.height)
    requires e in w.positions && e in w.viewsheds
    modifies w`positions, w`viewsheds, w`wantsToMelee, w.level`blocked
    ensures h == HuntOf(w)
    ensures PursuitOf(w) == MonsterAct(old(PursuitOf(w)), e, h, aStar)
  {
    var pos := w.positions[e];
    if Adjacent(pos, w.playerPos) {
      w.wantsToMelee := w.wantsToMelee[e := WantsToMelee(w.playerEntity)];
      return;
    }
    if w.playerPos !in w.viewsheds[e].visibleTiles {
      return;
    }
    var path := aStar(XyIdx(w.level.width, pos.x, pos.y), XyIdx(w.level.width, w.playerPos.x, w.playerPos.y),
                      w.level.tiles, w.level.blocked);
    if path.success && |path.steps| > 1 {
      XyIdxInRange(h.width, h.height, pos);
      XyIdxDecodeInGrid(h.width, h.height, path.steps[1]);
      var idx := XyIdx(w.level.width, pos.x, pos.y);
      w.level.blocked := w.level.blocked[idx := false];
      var moved := Point(path.steps[1] % w.level.width, path.steps[1] / w.level.width);
      w.positions := w.positions[e := moved];
      idx := XyIdx(w.level.width, moved.x, moved.y);
      w.level.blocked := w.level.blocked[idx := true];
      w.viewsheds := w.viewsheds[e := w.viewsheds[e].(dirty := true)];
    }
  }

  /**
   * `MonsterAI::run`: outside the monsters' turn nothing happens; on it, every monster
   * acts in entity order.
   */
  method RunMonsterAi(w: World, aStar: PathSearch)
    requires w.Valid() && PathsOnGrid(aStar, w.level.width * w.level.height)
    modifies w`positions, w`viewsheds, w`wantsToMelee, w.level`blocked
    ensures w.Valid()
    ensures w.runState != MonsterTurn ==> PursuitOf(w) == old(PursuitOf(w))
    ensures w.runState == MonsterTurn ==> PursuitOf(w) == MonsterPass(old(PursuitOf(w)), w.entities, HuntOf(w), aStar)
  {
    if w.runState != MonsterTurn {
      return;
    }
    ghost var h := HuntOf(w);
    ghost var goal := MonsterPass(PursuitOf(w), w.entities, h, aStar);
    var i := 0;
    while i < |w.entities|
      invariant 0 <= i <= |w.entities|
      invariant h == HuntOf(w) && Placed(PursuitOf(w), h)
      invariant w.positions.Keys == old(w.positions.Keys) && w.viewsheds.Keys == old(w.viewsheds.Keys)
      invariant MonsterPass(PursuitOf(w), w.entities[i..], h, aStar) == goal
    {
      var e := w.entities[i];
      assert w.entities[i..][0] == e && w.entities[i..][1..] == w.entities[i + 1..];
      if e in w.monsters && e in w.positions && e in w.viewsheds {
        StepMonster(w, e, h, aStar);
      }
      i := i + 1;
    }
  }
}
