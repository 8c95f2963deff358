# Grid and turn logic of a terminal roguelike

This project models the core of a tile-based roguelike written in Rust on an
entity-component store. It covers:

- **Tile map.** An 80 by 50 row-major grid of walls and floors. The map carries
  revealed, visible and blocked bits and the entities on each tile.
- **Map building.** Room and tunnel carvers, a rooms-and-corridors generator, and
  a border-walled test map.
- **Player mover.** It refuses moves off the map and attacks the first fighter on
  the destination tile. Otherwise it steps onto a free tile and marks its viewshed
  dirty.
- **Monster AI.** A monster attacks when adjacent to the player. A monster that
  sees the player walks one step along the path search's route.
- **Visibility system.** It recomputes dirty viewsheds and updates the map's
  visible and revealed bits from the player's viewshed.
- **Turn scheduler.** It alternates between running the systems and reading input,
  and draws the entities on visible tiles.
- **Spawn records.** The fixed stat records of the player, orcs and goblins.
- **Early crate root.** A clamped arrow-key mover and a left-walking system that
  wraps around.

Mutable things are Dafny classes:

- `Grid.Map` is the map.
- `Ecs.World` is the entity-component world. It has one map per component type and
  a set per tag, and its entities are kept in creation order.
- `GameState.State` is the scheduler.
- `EarlyStage.Stage` is the early crate's world.

Each system is a method on these classes. It is proved equal to a pure function: a
per-entity step folded over the entities in order. The properties the source
promises are then proved about those functions as lemmas.

Some parts of the world are passed in as parameters:

- The random number generator is a sequence of raw draws.
- The field-of-view routine and the A* path search are function parameters.
- The overlap test and centre of rooms are function parameters.

The model follows the code as written, including these points where the code's
behaviour is easy to misread:

- **Rooms.** The generator appends every proposed room to the room list, whether or
  not it was accepted (src/map.rs:111 is outside the `if ok` block). Later
  proposals are therefore tested against rejected ones too. The corridor of an
  accepted room leads to the centre of the last proposal, which may have been
  rejected.
- **Scheduler phases.** The scheduler of src/state.rs knows only `Running` and
  `Paused`. A running tick runs visibility and then the monster AI, and pauses.
  `Components.RunState` is the union of the variants used across the files.
- **Screen clamp.** Both movers clamp both coordinates to 0..79, including the
  row, as written.
- **Map fields.** The `Map` struct of src/map.rs declares no `blocked` or `tile_content`
  fields, yet other files use them:
  - `tile_content` is read at src/player.rs:25 and written nowhere in the core;
  - `blocked` is read at src/player.rs:33 and written at src/monster_ai_system.rs:39 and :45.

  The model adds both to `Grid.Map`: one bit and one occupant list per tile, false and
  empty on a fresh map.

The one place the model departs from the code is the visibility filter. Its row test
at src/visibility_system.rs:23 admits one row below the map (see Findings). The
visibility system is modelled with the corrected filter; see "Left out" for what that
changes.

## Model

| member | source | states |
|---|---|---|
| Components.ClampToScreen | src/player.rs:34-35 | the result lies in 0..79, is the input when the input is in 0..79, and is 0 below and 79 above |
| Grid.XyIdx | src/map.rs:33-35 | the row-major index of (x, y); for a column in [0, width), remainder and quotient by the width give the column and row back |
| Grid.XyIdxDecode | src/map.rs:33-35 | for a column in [0, width), remainder and quotient of the index by the width give back column and row |
| Grid.XyIdxEncode | src/map.rs:33-35 | re-encoding the decoded column and row of any index gives the index back |
| Grid.XyIdxInRange | src/map.rs:33-35 | an in-grid point's index lies in [0, width*height) |
| Grid.XyIdxInjective | src/map.rs:33-35 | two points with columns in range share an index only if they are equal |
| Grid.XyIdxDecodeInGrid | src/monster_ai_system.rs:41-44 | any tile index decodes to an in-grid point whose index it is |
| Grid.RangeRoll | src/map.rs:81-82 | a range draw lies in [lo, hi) |
| Grid.DiceRoll | src/map.rs:83-84 | a one-die roll lies in [1, sides] |
| Grid.CarvedSoFarKept | src/map.rs:94-108 | carving more floor keeps every accepted room carved |
| Grid.CarvedSoFarAppend | src/map.rs:87-111 | appending a proposal keeps earlier acceptances, and the new entry is accepted exactly when it overlaps no earlier entry |
| Grid.Map.Blank | src/map.rs:65-72 | a fresh map is 80 by 50 with 4000 tiles, all wall, with every revealed, visible and blocked bit false and no rooms |
| Grid.Map.ApplyHorizontalTunnel | src/map.rs:37-44 | exactly the indices on row y from min(x1,x2) to max(x1,x2) that pass the guard 0 < idx < count become floor; every other tile is unchanged; no floor becomes wall |
| Grid.Map.ApplyVerticalTunnel | src/map.rs:46-53 | exactly the indices in column x from min(y1,y2) to max(y1,y2) that pass the same guard become floor; everything else is unchanged |
| Grid.Map.ApplyRoomToMap | src/map.rs:55-62 | exactly the tiles with x1+1 <= x <= x2 and y1+1 <= y <= y2 become floor; every other tile is unchanged |
| Grid.Opacity | src/map.rs:21-23 | one opacity bit per tile, set exactly on the walls |
| Grid.WithRowTunnel | src/map.rs:37-44 | carving a row tunnel never turns floor into wall |
| Grid.WithColumnTunnel | src/map.rs:46-53 | carving a column tunnel never turns floor into wall |
| Grid.WithRoom | src/map.rs:55-62 | carving a room leaves its interior floor and never turns floor into wall |
| Grid.WithCorridor | src/map.rs:101-107 | the L-shaped corridor, in either order, never turns floor into wall |
| Grid.Proposal | src/map.rs:81-86 | the room made from four draws is 3..9 by 3..9 and lies strictly inside the 80 by 50 grid |
| Grid.ProposeRoom | src/map.rs:80-112 | one round appends its proposal whether or not it is accepted and uses four or five draws; a proposal overlapping an earlier entry leaves the tiles unchanged; any other proposal has its interior carved; no floor becomes wall |
| Grid.Generated | src/map.rs:64-112 | n rounds give n entries, use at most 5n draws and keep 4000 tiles |
| Grid.GeneratedPrefix | src/map.rs:80-111 | later rounds never change earlier entries, and entry j is the proposal made from the draws where round j starts |
| Grid.GeneratedShapes | src/map.rs:81-86 | every generated entry has the proposal shape |
| Grid.GeneratedCarvesAccepted | src/map.rs:87-111 | every entry that overlaps no earlier entry has its interior carved in the generated tiles |
| Grid.Map.IsOpaque | src/map.rs:21-23 | a tile blocks sight exactly when it is a wall; this is the tile's opacity bit, which the field-of-view routine is given |
| Grid.Map.ProposeNext | src/map.rs:80-112 | one pass of the loop body changes the room list, the tiles and the draw counter as one generator round says |
| Grid.Map.NewMapRoomsAndCorridors | src/map.rs:64-115 | the map is 80 by 50, and its room list and tiles are exactly those of 30 generator rounds on the draws; so every entry is strictly inside the grid with sides 3..9, and every entry that overlaps no earlier entry has its interior carved; revealed and visible bits are all false |
| Grid.Map.NewMapTest | src/map.rs:119-145 | 4000 tiles; a tile is wall exactly when it is on the outer ring, or when it is hit by one of the 400 random walls and is not (40, 25); the border is wall and (40, 25) is floor |
| Ecs.World.constructor | src/main.rs:74-77 | an empty world on the given map, with the given player resources, in the start-up run state |
| Spawner.Player | src/spawner.rs:6-20 | '@' at (x, y), named "Player", player tag without monster or blocking tags, empty dirty viewshed of range 8, 30/30 hp, defence 2, power 5 |
| Spawner.Monster | src/spawner.rs:42-57 | the given glyph and name at (x, y), monster and blocking tags, empty dirty viewshed of range 8, 16/16 hp, defence 1, power 4 |
| Spawner.Orc | src/spawner.rs:34-36 | glyph 'o', name "Orc" at (x, y), monster and blocking tags without the player tag, stats 16/16 hp, defence 1, power 4, empty dirty viewshed of range 8 |
| Spawner.Goblin | src/spawner.rs:38-40 | glyph 'g', name "Goblin" at (x, y), monster and blocking tags without the player tag, stats 16/16 hp, defence 1, power 4, empty dirty viewshed of range 8 |
| Spawner.RandomMonster | src/spawner.rs:22-32 | always an orc or a goblin at (x, y), with 0 <= hp <= max hp; the glyph is 'o' exactly when the two-sided roll is 1 |
| PlayerMove.FirstTarget | src/player.rs:25-32 | no result exactly when no occupant has combat stats; otherwise the result is the first occupant, in tile order, that has them |
| PlayerMove.PlayerStep | src/player.rs:20-42 | one player's step keeps every position on the map and keeps the position and viewshed keys |
| PlayerMove.StepAgainstTarget | src/player.rs:25-31 | when the first fighter on the destination is t, the step ends the call with only a melee intent on t added |
| PlayerMove.StepWithoutTarget | src/player.rs:33-41 | with no fighter on the destination, a blocked tile changes nothing, and a free tile moves the player to the clamped destination, dirties its viewshed and updates the player-position resource |
| PlayerMove.MoveAll | src/player.rs:20-42 | the join over players keeps every position on the map and keeps the keys |
| PlayerMove.RejectedDestination | src/player.rs:21 | a destination with x < 1, x > width-1, y < 1 or y > height-1 ends the call with nothing changed |
| PlayerMove.MeleeInsteadOfMove | src/player.rs:25-31 | if a fighter stands on the destination, a melee intent on a fighter is inserted and position, viewsheds and player position are unchanged |
| PlayerMove.BlockedDestination | src/player.rs:33 | a blocked destination without fighters changes nothing |
| PlayerMove.SuccessfulMove | src/player.rs:33-41 | on a map of at most 80 by 80, a move onto a free tile puts the player exactly at the destination, dirties its viewshed and makes the player-position resource equal the new position |
| PlayerMove.MoveAllKeepsOthers | src/player.rs:20 | entities without the player tag keep their positions through the join |
| PlayerMove.KeyDelta | src/player.rs:48-72 | only unmapped keys have no direction; every direction has components in {-1,0,1} and is not (0,0) |
| PlayerMove.KeyDeltaCoversCompass | src/player.rs:49-70 | each of the eight compass directions is produced by some key |
| PlayerMove.FindTarget | src/player.rs:25-32 | the occupant search returns the first occupant with combat stats |
| PlayerMove.StepPlayer | src/player.rs:20-42 | one loop iteration changes the world as the step function says, and it returns exactly when the step ends the call |
| PlayerMove.TryMovePlayer | src/player.rs:8-43 | the world after the call equals the join over the entities applied to the world before it; the world stays valid |
| PlayerMove.PlayerInput | src/player.rs:45-76 | no key or an unmapped key returns AwaitingInput and changes nothing; a mapped key runs the mover with its direction and returns PlayerTurn whether or not the move happened |
| MonsterAi.AdjacentMatchesPythagoras | src/monster_ai_system.rs:25-26 | the integer squared distance is at most 2 exactly when it is below 1.5 squared |
| MonsterAi.AdjacentIsChebyshevOne | src/monster_ai_system.rs:25-26 | within attack range exactly when at most one step away on each axis |
| MonsterAi.MonsterAct | src/monster_ai_system.rs:23-48 | one monster's action keeps every position on the map and the blocked bits covering it |
| MonsterAi.AdjacentMonsterAttacks | src/monster_ai_system.rs:26-28 | an adjacent monster gets a melee intent on the player entity, whatever it sees; positions, viewsheds and blocked bits are unchanged |
| MonsterAi.UnseenPlayerIgnored | src/monster_ai_system.rs:29 | a monster that is not adjacent and does not see the player changes nothing |
| MonsterAi.NoRouteNoStep | src/monster_ai_system.rs:37 | without a successful route of more than one step, nothing changes |
| MonsterAi.StepAlongRoute | src/monster_ai_system.rs:37-47 | the monster's new position has index steps[1]; that tile becomes blocked and the old tile freed unless they coincide; no other bit changes; its viewshed is dirtied; nobody else moves |
| MonsterAi.MonsterPass | src/monster_ai_system.rs:23-50 | the join over monsters keeps positions on the map and keeps the keys |
| MonsterAi.MonsterPassKeepsOthers | src/monster_ai_system.rs:23 | entities without the monster tag keep position, viewshed and melee intent |
| MonsterAi.MonsterPassIntents | src/monster_ai_system.rs:26-28 | every melee intent after the pass was already there or is a monster's attack on the player |
| MonsterAi.StepMonster | src/monster_ai_system.rs:24-48 | one loop iteration changes the world as the step function says |
| MonsterAi.RunMonsterAi | src/monster_ai_system.rs:19-51 | outside the monsters' turn nothing changes; on it, the world equals the join applied to the world before; the world stays valid |
| Visibility.FilterToGrid | src/visibility_system.rs:23 | the corrected filter: a point is kept exactly when it is in the field of view and on the grid; a list entirely on the grid is kept whole |
| Visibility.FiltersAgreeOffLastRow | src/visibility_system.rs:23 | when the field of view holds no point of row `height` in a column of the map, the filter as written and the corrected filter give the same list |
| Visibility.FilteredIndexesInRange | src/visibility_system.rs:23-36 | every kept point has an index inside the map's bit vectors |
| Visibility.FilterAsWritten | src/visibility_system.rs:23 | a point is kept exactly when 0 <= x < width and 0 <= y <= height |
| Visibility.RetainAdmitsRowPastEnd | src/visibility_system.rs:23 | the filter as written keeps (0, height), which is off the grid and has index width*height, one past the end |
| Visibility.Marked | src/visibility_system.rs:33-37 | marking keeps the length of the bit vector |
| Visibility.MarkedExactly | src/visibility_system.rs:33-37 | after marking, a bit is set exactly when it was set before or some marked point has its index |
| Visibility.Refresh | src/visibility_system.rs:18-39 | one entity's update, with the corrected filter, keeps the bit vectors covering the map and keeps the viewshed keys |
| Visibility.CleanViewshedSkipped | src/visibility_system.rs:19 | a clean viewshed changes nothing |
| Visibility.DirtyViewshedRecomputed | src/visibility_system.rs:19-23 | a dirty viewshed becomes clean, keeps its range, and holds exactly the field-of-view points on the grid (the corrected filter); other viewsheds are unchanged |
| Visibility.PlayerSeesExactly | src/visibility_system.rs:27-37 | for the player, a tile is visible exactly when it is in the new viewshed, and revealed exactly when it was revealed or is in the new viewshed |
| Visibility.NonPlayerLeavesMap | src/visibility_system.rs:27-28 | a non-player's update leaves the visible and revealed bits unchanged |
| Visibility.RefreshKeepsRevealed | src/visibility_system.rs:33-37 | one update never clears a revealed bit and keeps visible tiles revealed |
| Visibility.VisibilityPass | src/visibility_system.rs:18-50 | the join keeps the bit vectors covering the map and keeps the viewshed keys |
| Visibility.PassRevealedMonotone | src/visibility_system.rs:35 | revealed bits are only ever set through the pass |
| Visibility.PassKeepsVisibleRevealed | src/visibility_system.rs:35-36 | if every visible tile was revealed before the pass, the same holds after |
| Visibility.PassKeepsClean | src/visibility_system.rs:19-20 | a clean viewshed stays clean through the pass |
| Visibility.PassCleansJoined | src/visibility_system.rs:18-20 | after the pass, every joined entity's viewshed is clean |
| Visibility.ClearVisible | src/visibility_system.rs:29-31 | every visible bit becomes false and the length is kept |
| Visibility.MarkTiles | src/visibility_system.rs:33-37 | the visible and revealed bits become the old bits with every seen tile's index set |
| Visibility.RefreshViewshed | src/visibility_system.rs:18-39 | one loop iteration changes the world as the per-entity function says |
| Visibility.RunVisibility | src/visibility_system.rs:15-51 | the world after the system equals the join applied to the world before; the world stays valid |
| GameState.Drawn | src/state.rs:48-52 | only entities of the list are drawn, none of them twice when the list has no repeats |
| GameState.DrawnExactlyVisible | src/state.rs:48-52 | an entity is drawn exactly when it has a position and a glyph and the visible bit at its index is set |
| GameState.State.constructor | src/state.rs:13-16 | a scheduler over the given world in the given phase |
| GameState.State.RunSystems | src/state.rs:19-25 | visibility runs first, and the monster AI then runs on the viewsheds visibility left; visible and revealed bits are the visibility pass's |
| GameState.State.VisibleEntities | src/state.rs:43-53 | the entities drawn are those the drawing filter selects |
| GameState.State.Tick | src/state.rs:29-54 | a running tick runs the systems in order and pauses; any other tick takes its phase from player input and leaves the map bits unchanged; the drawn entities are those on visible tiles |
| EarlyStage.ArrowDelta | src/lib.rs:41-50 | exactly the four arrow keys have a direction, each a unit step along one axis |
| EarlyStage.ArrowsAgreeWithLaterStage | src/lib.rs:44-47 | the arrow directions agree with the later input handler's |
| EarlyStage.ClampedStep | src/lib.rs:35-36 | both coordinates end in 0..79 for any start and delta, and an on-screen destination is reached exactly |
| EarlyStage.WalkLeft | src/lib.rs:84-85 | the column decreases by one when it stays >= 0, and becomes 79 otherwise |
| EarlyStage.WalkLeftRotates | src/lib.rs:84-85 | on the screen, the walk is (x + 79) mod 80 and stays in 0..79 |
| EarlyStage.MoveKeepsPlayersOnScreen | src/lib.rs:34-36 | after the move every player is on the screen, and entities without the player tag do not move |
| EarlyStage.WalkKeepsRowsAndScreen | src/lib.rs:83-85 | the walk keeps rows, keeps on-screen left-movers on screen, and moves nobody else |
| EarlyStage.Stage.constructor | src/lib.rs:26-28 | an empty early-stage world |
| EarlyStage.Stage.TryMovePlayer | src/lib.rs:30-38 | every player's position becomes the clamped step, and every other position is unchanged |
| EarlyStage.Stage.RunLeftWalker | src/lib.rs:82-87 | every left-mover walks left with wrap-around, and every other position is unchanged |
| EarlyStage.Stage.PlayerInput | src/lib.rs:40-51 | an arrow key moves the players by its direction; no key or any other key changes nothing |
| EarlyStage.Stage.Tick | src/lib.rs:54-63 | the left walker runs before the input is handled |

## Left out

- Rendering is not modelled: `draw_map`, the colours, clearing the screen and src/gui.rs. The drawing loops are modelled only as the list of entities they would draw.
- Process start-up in src/main.rs is not modelled, nor is component registration.
- Entity allocation and `maintain` are not modelled. The ECS storages are maps keyed by entity, and a join visits `entities` in creation order.
- `spawn_room` is called from src/main.rs but is not in src/spawner.rs, so it is not modelled. The spawner builders return the record they would attach rather than creating an entity.
- The rectangle module is not part of this model. `Rect::new(x, y, w, h)` is assumed to span (x, y) to (x + w, y + h), and `intersect` and `center` are parameters of the generator.
- The field-of-view routine, the A* search and the random number generator are library code, so they are parameters.
  - A draw of `range(lo, hi)` is assumed to be `lo + raw % (hi - lo)`.
  - A draw of `roll_dice(1, n)` is assumed to be `1 + raw % n`.
  - The path search is assumed to name only tiles of the map (`MonsterAi.PathsOnGrid`).
- The damage, melee-combat, inventory, map-indexing and game-log modules are not part of this model. The blocked bits and the tile contents are inputs that map indexing would maintain.
- The Pythagorean distance is floating point, so it is replaced by the integer squared distance. `MonsterAi.AdjacentMatchesPythagoras` shows that the attack tests agree.
- Integers are unbounded. The `i32` overflow of coordinate arithmetic and the `as usize` casts in `xy_idx` (src/map.rs:34) are not modelled, and the model computes `y * width + x` exactly. In the source, a negative column on row 0 gives a huge index that the carvers' guard rejects. A negative column on a later row, or a negative row, overflows the `usize` arithmetic: a debug build panics, and a release build wraps around (to `y * width + x` for a negative column). Every caller in the core passes non-negative coordinates.
- An index panic in the source becomes a precondition: the monster step requires the route to stay on the map (`MonsterAi.PathsOnGrid`), because src/monster_ai_system.rs:45 indexes `blocked` with the route's second step.
- Two preconditions are narrower than what the source tolerates. They are not panic conditions, and every caller in the source meets them:
  - The room carver requires the room inside the grid (`Grid.RoomFits`). The source's carver does not panic for a room with `x2 == width` above the last row; it carves column 0 of the next row instead. The only caller is the generator, whose rooms have `x2 <= 78` and `y2 <= 48` (`Grid.GeneratedShapes`).
  - The test map requires the map to be 80 wide. The source's test map never panics on a narrower map, because its largest index 49 * width + 79 stays below 4000; it just puts its walls at other indices. The only map the source builds is 80 wide.
- `expect` failures on component insertion cannot happen in the model, because inserting into a map always succeeds.
- The generator takes at least 150 draws, which is enough for 30 rounds of at most five draws each.
- Visibility.FilterToGrid: the contract states which points are kept, not that the kept points keep their relative order; the body does keep it.
- Visibility.Refresh, Visibility.DirtyViewshedRecomputed, Visibility.RefreshViewshed and Visibility.RunVisibility use the corrected filter (`p.y < height`), not the `p.y <= height` written at src/visibility_system.rs:23. `Visibility.FiltersAgreeOffLastRow` shows that the two agree whenever the field of view returns no point in row `height`. When it does return one, the source keeps that point in a monster's viewshed, where the model drops it. For the player, the source indexes past the end of the tile vectors at :35, and the model drops the point instead.
- GameState.State.Tick: the scheduler of this stage never writes the world's run-state resource that the monster AI reads, as written.

## Findings

| source | as written | input that shows it | evidently intended | confidence | as-written member | corrected member |
|---|---|---|---|---|---|---|
| src/visibility_system.rs:23 | the viewshed filter keeps points with `p.y <= map.height` | a field-of-view point (0, 50) on the 80 by 50 map passes the filter; its index 4000 is one past the end of the visible and revealed vectors, so marking it indexes out of bounds | keep only `p.y < map.height`, the rows of the grid | not executed; it needs the field-of-view routine to return such a point | Visibility.RetainAdmitsRowPastEnd | Visibility.FilteredIndexesInRange |
