/**
 * The tile map: row-major indexing, the carvers that turn wall into floor, the
 * rooms-and-corridors generator and the border-walled test map (src/map.rs).
 */
module Grid {

  import opened Components

  const MAP_WIDTH := 80
  const MAP_HEIGHT := 50
  const MAP_COUNT := 4000
  const MAX_ROOMS := 30
  const MIN_SIZE := 3
  const MAX_SIZE := 10

  datatype TileType = Wall | Floor

  /**
   * A room rectangle by its corners. The rectangle module of the game is not part
   * of this model: its constructor is assumed to span (x, y) to (x + w, y + h), and
   * its overlap test and centre are parameters of the generator.
   */
  datatype Rect = Rect(x1: int, y1: int, x2: int, y2: int)

  function NewRect(x: int, y: int, w: int, h: int): Rect
  {
    Rect(x, y, x + w, y + h)
  }

  function Min(a: int, b: int): int { if a <= b then a else b }

  function Max(a: int, b: int): int { if a <= b then b else a }

  /**
   * Row-major index of (x, y) on a grid `width` tiles wide. For a column in [0, width)
   * the remainder and quotient by the width give the column and row back.
   */
  function XyIdx(width: int, x: int, y: int): (i: int)
    ensures 0 <= x < width ==> i % width == x && i / width == y
  {
    if 0 <= x < width then
      DivModUnique(y * width + x, width, y, x);
      y * width + x
    else y * width + x
  }

  /** Decoding an index of a tile in column range [0, width) gives back its coordinates. */
  lemma XyIdxDecode(width: int, x: int, y: int)
    requires 0 <= x < width
    ensures XyIdx(width, x, y) % width == x
    ensures XyIdx(width, x, y) / width == y
  {
  }

  /** Encoding the decoded coordinates of any index gives the index back. */
  lemma XyIdxEncode(width: int, i: int)
    requires width > 0
    ensures XyIdx(width, i % width, i / width) == i
    ensures 0 <= i % width < width
  {
  }

  /** An in-grid point has an index inside the tile vector. */
  lemma XyIdxInRange(width: int, height: int, p: Point)
    requires InGrid(p, width, height)
    ensures 0 <= XyIdx(width, p.x, p.y) < width * height
  {
    assert p.y * width <= (height - 1) * width by {
      MulMonotone(p.y, height - 1, width);
    }
  }

  /** Any index of the tile vector decodes to an in-grid point whose index it is. */
  lemma XyIdxDecodeInGrid(width: int, height: int, i: int)
    requires width > 0 && 0 <= i < width * height
    ensures InGrid(Point(i % width, i / width), width, height)
    ensures XyIdx(width, i % width, i / width) == i
  {
    if i / width >= height {
      MulMonotone(height, i / width, width);
    }
  }

  /** Two in-grid points share an index only if they are the same point. */
  lemma XyIdxInjective(width: int, p: Point, q: Point)
    requires 0 <= p.x < width && 0 <= q.x < width
    requires XyIdx(width, p.x, p.y) == XyIdx(width, q.x, q.y)
    ensures p == q
  {
    XyIdxDecode(width, p.x, p.y);
    XyIdxDecode(width, q.x, q.y);
  }

  lemma MulMonotone(a: int, b: int, c: int)
    requires a <= b && c >= 0
    ensures a * c <= b * c
  {
    assert b * c - a * c == (b - a) * c;
  }

  lemma DivModUnique(n: int, d: int, q: int, r: int)
    requires 0 <= r < d
    requires n == q * d + r
    ensures n / d == q && n % d == r
  {
    var q', r' := n / d, n % d;
    assert n == q' * d + r';
    assert (q - q') * d == r' - r;
    if q > q' {
      MulMonotone(1, q - q', d);
    } else if q < q' {
      MulMonotone(1, q' - q, d);
    }
  }

  /** The index `i` lies in column `x` at a row between `lo` and `hi`. */
  lemma ColumnOfIndex(width: int, x: int, y: int, i: int)
    requires width > 0
    ensures ((i - x) % width == 0 && (i - x) / width == y) <==> i == XyIdx(width, x, y)
  {
    if i == XyIdx(width, x, y) {
      DivModUnique(i - x, width, y, 0);
    }
  }

  /** A tile the tunnel carvers may write: they skip index 0 and indices past the map. */
  predicate CarveGuard(count: int, i: int)
  {
    0 < i < count
  }

  /** Index `i` is on row `y` at a column from `lo` to `hi` (by the index arithmetic alone). */
  predicate OnRowRun(width: int, lo: int, hi: int, y: int, i: int)
  {
    lo <= i - y * width <= hi
  }

  /** Index `i` is in column `x` at a row from `lo` to `hi`. */
  predicate OnColumnRun(width: int, lo: int, hi: int, x: int, i: int)
    requires width > 0
  {
    (i - x) % width == 0 && lo <= (i - x) / width <= hi
  }

  /** Index `i` is strictly right of and below the room's first corner, and at most its second. */
  predicate InRoomInterior(width: int, room: Rect, i: int)
    requires width > 0
  {
    room.x1 + 1 <= i % width <= room.x2 && room.y1 + 1 <= i / width <= room.y2
  }

  /** Every interior tile of the room lies on the grid. */
  predicate RoomFits(room: Rect, width: int, height: int)
  {
    -1 <= room.x1 && room.x2 < width && -1 <= room.y1 && room.y2 < height
  }

  /** Each carved interior tile of `room` is floor. */
  predicate RoomCarved(tiles: seq<TileType>, width: int, room: Rect)
    requires width > 0
  {
    forall i :: 0 <= i < |tiles| && InRoomInterior(width, room, i) ==> tiles[i] == Floor
  }

  /** No tile that was floor in `before` is wall in `after`. */
  predicate FloorKept(before: seq<TileType>, after: seq<TileType>)
  {
    |before| == |after| && forall i :: 0 <= i < |before| && before[i] == Floor ==> after[i] == Floor
  }

  /** The proposal `rooms[j]` overlaps none of the proposals before it. */
  predicate Accepted(rooms: seq<Rect>, j: int, intersect: (Rect, Rect) -> bool)
    requires 0 <= j < |rooms|
  {
    forall m :: 0 <= m < j ==> !intersect(rooms[j], rooms[m])
  }

  /** Every accepted entry of `rooms` has its interior carved in `tiles`. */
  ghost predicate CarvedSoFar(tiles: seq<TileType>, width: int, rooms: seq<Rect>, intersect: (Rect, Rect) -> bool)
    requires width > 0
  {
    forall j :: 0 <= j < |rooms| && Accepted(rooms, j, intersect) ==> RoomCarved(tiles, width, rooms[j])
  }

  /** Carving more floor never un-carves an accepted room. */
  lemma CarvedSoFarKept(before: seq<TileType>, after: seq<TileType>, width: int, rooms: seq<Rect>,
                        intersect: (Rect, Rect) -> bool)
    requires width > 0 && FloorKept(before, after) && CarvedSoFar(before, width, rooms, intersect)
    ensures CarvedSoFar(after, width, rooms, intersect)
  {
    forall j | 0 <= j < |rooms| && Accepted(rooms, j, intersect)
      ensures RoomCarved(after, width, rooms[j])
    {
      assert RoomCarved(before, width, rooms[j]);
    }
  }

  /**
   * Appending a proposal keeps every earlier entry's acceptance, and the new entry is
   * accepted exactly when it overlaps none of the earlier ones.
   */
  lemma CarvedSoFarAppend(tiles: seq<TileType>, width: int, rooms: seq<Rect>, r: Rect,
                          intersect: (Rect, Rect) -> bool)
    requires width > 0 && CarvedSoFar(tiles, width, rooms, intersect)
    requires (forall l :: 0 <= l < |rooms| ==> !intersect(r, rooms[l])) ==> RoomCarved(tiles, width, r)
    ensures CarvedSoFar(tiles, width, rooms + [r], intersect)
  {
    var rooms' := rooms + [r];
    forall j | 0 <= j < |rooms'| && Accepted(rooms', j, intersect)
      ensures RoomCarved(tiles, width, rooms'[j])
    {
      if j < |rooms| {
        assert Accepted(rooms, j, intersect) by {
          forall l | 0 <= l < j ensures !intersect(rooms[j], rooms[l]) {
            assert rooms'[l] == rooms[l] && rooms'[j] == rooms[j];
          }
        }
      } else {
        forall l | 0 <= l < |rooms| ensures !intersect(r, rooms[l]) {
          assert rooms'[l] == rooms[l];
        }
      }
    }
  }

  /** One draw of `rng.range(lo, hi)`: a raw draw reduced into [lo, hi). */
  function RangeRoll(lo: int, hi: int, raw: nat): (r: int)
    requires lo < hi
    ensures lo <= r < hi
  {
    lo + raw % (hi - lo)
  }

  /** One draw of `rng.roll_dice(1, sides)`: a raw draw reduced into [1, sides]. */
  function DiceRoll(sides: int, raw: nat): (r: int)
    requires sides > 0
    ensures 1 <= r <= sides
  {
    1 + raw % sides
  }

  /** The shape every generator proposal has: a 3..9 by 3..9 rectangle strictly inside the 80 by 50 grid. */
  predicate ProposalShape(r: Rect)
  {
    && 0 <= r.x1 && r.x2 <= MAP_WIDTH - 2 && MIN_SIZE <= r.x2 - r.x1 < MAX_SIZE
    && 0 <= r.y1 && r.y2 <= MAP_HEIGHT - 2 && MIN_SIZE <= r.y2 - r.y1 < MAX_SIZE
  }

  /** The opacity of every tile, as the field-of-view routine asks it of the map: walls block sight. */
  function Opacity(tiles: seq<TileType>): (r: seq<bool>)
    ensures |r| == |tiles|
    ensures forall i :: 0 <= i < |tiles| ==> (r[i] <==> tiles[i] == Wall)
  {
    seq(|tiles|, i requires 0 <= i < |tiles| => tiles[i] == Wall)
  }

  /** `tiles` with row `y` carved from column min(x1, x2) to max(x1, x2), skipping guarded indices. */
  function WithRowTunnel(tiles: seq<TileType>, width: int, x1: int, x2: int, y: int): (r: seq<TileType>)
    ensures FloorKept(tiles, r)
  {
    seq(|tiles|, i requires 0 <= i < |tiles| =>
      if CarveGuard(|tiles|, i) && OnRowRun(width, Min(x1, x2), Max(x1, x2), y, i) then Floor else tiles[i])
  }

  /** `tiles` with column `x` carved from row min(y1, y2) to max(y1, y2), skipping guarded indices. */
  function WithColumnTunnel(tiles: seq<TileType>, width: int, y1: int, y2: int, x: int): (r: seq<TileType>)
    requires width > 0
    ensures FloorKept(tiles, r)
  {
    seq(|tiles|, i requires 0 <= i < |tiles| =>
      if CarveGuard(|tiles|, i) && OnColumnRun(width, Min(y1, y2), Max(y1, y2), x, i) then Floor else tiles[i])
  }

  /** `tiles` with the interior of `room` carved. */
  function WithRoom(tiles: seq<TileType>, width: int, room: Rect): (r: seq<TileType>)
    requires width > 0
    ensures FloorKept(tiles, r) && RoomCarved(r, width, room)
  {
    seq(|tiles|, i requires 0 <= i < |tiles| => if InRoomInterior(width, room, i) then Floor else tiles[i])
  }

  /**
   * The L-shaped corridor from the centre `prev` of the last entry to the centre `c` of the
   * new room: along the row of `prev` and then the column of `c`, or along the column of
   * `prev` and then the row of `c`.
   */
  function WithCorridor(tiles: seq<TileType>, prev: Point, c: Point, rowFirst: bool): (r: seq<TileType>)
    ensures FloorKept(tiles, r)
  {
    if rowFirst then
      WithColumnTunnel(WithRowTunnel(tiles, MAP_WIDTH, prev.x, c.x, prev.y), MAP_WIDTH, prev.y, c.y, c.x)
    else
      WithRowTunnel(WithColumnTunnel(tiles, MAP_WIDTH, prev.y, c.y, prev.x), MAP_WIDTH, prev.x, c.x, c.y)
  }

  /** The generator's progress: the entries of `rooms` so far, the next unused draw, and the tiles. */
  datatype Build = Build(rooms: seq<Rect>, next: nat, tiles: seq<TileType>)

  /** The room proposed from the four draws starting at `k`: width, height, column, row. */
  function Proposal(rolls: seq<nat>, k: nat): (r: Rect)
    requires k + 3 < |rolls|
    ensures ProposalShape(r)
  {
    var w := RangeRoll(MIN_SIZE, MAX_SIZE, rolls[k]);
    var h := RangeRoll(MIN_SIZE, MAX_SIZE, rolls[k + 1]);
    NewRect(DiceRoll(MAP_WIDTH - w - 1, rolls[k + 2]) - 1, DiceRoll(MAP_HEIGHT - h - 1, rolls[k + 3]) - 1, w, h)
  }

  /** Some entry of `rooms` overlaps `r`. */
  predicate OverlapsAny(r: Rect, rooms: seq<Rect>, intersect: (Rect, Rect) -> bool)
  {
    exists l :: 0 <= l < |rooms| && intersect(r, rooms[l])
  }

  /**
   * One round of the generator: the proposal is always appended; when it overlaps no
   * entry it is carved, and when there is an earlier entry a corridor joins the two
   * centres, its shape chosen by one more draw.
   */
  function ProposeRoom(b: Build, rolls: seq<nat>, intersect: (Rect, Rect) -> bool, center: Rect -> Point): (r: Build)
    requires b.next + 5 <= |rolls|
    ensures r.rooms == b.rooms + [Proposal(rolls, b.next)]
    ensures b.next + 4 <= r.next <= b.next + 5
    ensures FloorKept(b.tiles, r.tiles)
    ensures OverlapsAny(Proposal(rolls, b.next), b.rooms, intersect) ==> r.tiles == b.tiles
    ensures !OverlapsAny(Proposal(rolls, b.next), b.rooms, intersect) ==>
      RoomCarved(r.tiles, MAP_WIDTH, Proposal(rolls, b.next))
  {
    var room := Proposal(rolls, b.next);
    var k := b.next + 4;
    if OverlapsAny(room, b.rooms, intersect) then Build(b.rooms + [room], k, b.tiles)
    else if b.rooms == [] then Build([room], k, WithRoom(b.tiles, MAP_WIDTH, room))
    else
      var dug := WithRoom(b.tiles, MAP_WIDTH, room);
      var r := Build(b.rooms + [room], k + 1,
                     WithCorridor(dug, center(b.rooms[|b.rooms| - 1]), center(room), RangeRoll(0, 2, rolls[k]) == 1));
      assert FloorKept(dug, r.tiles);
      r
  }

  /** The generator after `n` rounds, from the all-wall 80 by 50 map. */
  function Generated(rolls: seq<nat>, intersect: (Rect, Rect) -> bool, center: Rect -> Point, n: nat): (b: Build)
    requires 5 * n <= |rolls|
    ensures |b.rooms| == n && b.next <= 5 * n && |b.tiles| == MAP_COUNT
  {
    if n == 0 then Build([], 0, seq(MAP_COUNT, _ => Wall))
    else ProposeRoom(Generated(rolls, intersect, center, n - 1), rolls, intersect, center)
  }

  /**
   * The first `j` entries after `n` rounds are those after `j` rounds, and entry `j` is the
   * proposal made from the draws that round `j` starts at.
   */
  lemma {:induction false} GeneratedPrefix(rolls: seq<nat>, intersect: (Rect, Rect) -> bool, center: Rect -> Point,
                                           n: nat, j: nat)
    requires 5 * n <= |rolls| && j < n
    ensures Generated(rolls, intersect, center, n).rooms[..j] == Generated(rolls, intersect, center, j).rooms
    ensures var b := Generated(rolls, intersect, center, j);
      Generated(rolls, intersect, center, n).rooms[j] == Proposal(rolls, b.next)
    decreases n
  {
    var before := Generated(rolls, intersect, center, n - 1);
    var after := Generated(rolls, intersect, center, n);
    assert after.rooms == before.rooms + [Proposal(rolls, before.next)];
    if j < n - 1 {
      GeneratedPrefix(rolls, intersect, center, n - 1, j);
      assert after.rooms[..j] == before.rooms[..j];
      assert after.rooms[j] == before.rooms[j];
    } else {
      assert after.rooms[..j] == before.rooms;
    }
  }

  /** Every generated entry is a 3..9 by 3..9 rectangle strictly inside the grid. */
  lemma GeneratedShapes(rolls: seq<nat>, intersect: (Rect, Rect) -> bool, center: Rect -> Point, n: nat)
    requires 5 * n <= |rolls|
    ensures var b := Generated(rolls, intersect, center, n);
      forall j :: 0 <= j < |b.rooms| ==> ProposalShape(b.rooms[j])
  {
    var b := Generated(rolls, intersect, center, n);
    forall j | 0 <= j < |b.rooms|
      ensures ProposalShape(b.rooms[j])
    {
      GeneratedPrefix(rolls, intersect, center, n, j);
    }
  }

  /** Every accepted entry of the generated room list has its interior carved. */
  lemma {:induction false} GeneratedCarvesAccepted(rolls: seq<nat>, intersect: (Rect, Rect) -> bool,
                                                   center: Rect -> Point, n: nat)
    requires 5 * n <= |rolls|
    ensures var b := Generated(rolls, intersect, center, n);
      CarvedSoFar(b.tiles, MAP_WIDTH, b.rooms, intersect)
  {
    if n > 0 {
      var before := Generated(rolls, intersect, center, n - 1);
      var after := Generated(rolls, intersect, center, n);
      var room := Proposal(rolls, before.next);
      GeneratedCarvesAccepted(rolls, intersect, center, n - 1);
      CarvedSoFarKept(before.tiles, after.tiles, MAP_WIDTH, before.rooms, intersect);
      if forall l :: 0 <= l < |before.rooms| ==> !intersect(room, before.rooms[l]) {
        assert !OverlapsAny(room, before.rooms, intersect);
      }
      CarvedSoFarAppend(after.tiles, MAP_WIDTH, before.rooms, room, intersect);
    }
  }

  /** Index `i` of the 80 by 50 grid is on its outer ring of tiles. */
  predicate OnBorder(i: int)
  {
    i % MAP_WIDTH == 0 || i % MAP_WIDTH == MAP_WIDTH - 1 || i / MAP_WIDTH == 0 || i / MAP_WIDTH == MAP_HEIGHT - 1
  }

  /** The tile the `k`-th random wall of the test map lands on: x in 1..79, y in 1..49. */
  function SplatIdx(rolls: seq<nat>, k: nat): int
    requires 2 * k + 1 < |rolls|
  {
    XyIdx(MAP_WIDTH, DiceRoll(MAP_WIDTH - 1, rolls[2 * k]), DiceRoll(MAP_HEIGHT - 1, rolls[2 * k + 1]))
  }

  /** One of the first `n` random walls lands on index `i`. */
  predicate Splatted(rolls: seq<nat>, n: nat, i: int)
    requires 2 * n <= |rolls|
  {
    exists k :: 0 <= k < n && SplatIdx(rolls, k) == i
  }

  /** The test map keeps this tile (40, 25) free of random walls. */
  const TEST_CENTRE := XyIdx(MAP_WIDTH, 40, 25)

  class Map {
    var tiles: seq<TileType>
    var rooms: seq<Rect>
    var width: int
    var height: int
    var revealedTiles: seq<bool>
    var visibleTiles: seq<bool>
    /** Occupancy for movement and pathfinding. */
    var blocked: seq<bool>
    /** The entities standing on each tile. */
    var tileContent: seq<seq<Entity>>

    ghost predicate Valid()
      reads this
    {
      && width > 0 && height > 0
      && |tiles| == width * height
      && |revealedTiles| == width * height
      && |visibleTiles| == width * height
      && |blocked| == width * height
      && |tileContent| == width * height
    }

    /** Walls block sight; the field-of-view routine asks this of each tile. */
    function IsOpaque(idx: int): (blocksSight: bool)
      reads this
      requires 0 <= idx < |tiles|
      ensures blocksSight == Opacity(tiles)[idx]
    {
      tiles[idx] == Wall
    }

    /** The 80 by 50 all-wall map the generator starts from, nothing revealed or visible. */
    constructor Blank()
      ensures Valid()
      ensures width == MAP_WIDTH && height == MAP_HEIGHT && rooms == []
      ensures |tiles| == MAP_COUNT && forall i :: 0 <= i < |tiles| ==> tiles[i] == Wall
      ensures forall i :: 0 <= i < |revealedTiles| ==> !revealedTiles[i]
      ensures forall i :: 0 <= i < |visibleTiles| ==> !visibleTiles[i]
      ensures forall i :: 0 <= i < |blocked| ==> !blocked[i]
      ensures forall i :: 0 <= i < |tileContent| ==> tileContent[i] == []
    {
      tiles := seq(MAP_COUNT, _ => Wall);
      rooms := [];
      width := MAP_WIDTH;
      height := MAP_HEIGHT;
      revealedTiles := seq(MAP_COUNT, _ => false);
      visibleTiles := seq(MAP_COUNT, _ => false);
      blocked := seq(MAP_COUNT, _ => false);
      tileContent := seq(MAP_COUNT, _ => []);
    }

    /**
     * Carves row `y` from column min(x1, x2) to max(x1, x2) inclusive, writing only
     * indices that pass the guard (index 0 is never written).
     */
    method ApplyHorizontalTunnel(x1: int, x2: int, y: int)
      requires Valid()
      modifies this`tiles
      ensures Valid() && FloorKept(old(tiles), tiles)
      ensures forall i :: 0 <= i < |tiles| ==>
        tiles[i] == if CarveGuard(width * height, i) && OnRowRun(width, Min(x1, x2), Max(x1, x2), y, i)
                    then Floor else old(tiles)[i]
      ensures tiles == WithRowTunnel(old(tiles), width, x1, x2, y)
    {
      var lo, hi := Min(x1, x2), Max(x1, x2);
      for x := lo to hi + 1
        invariant |tiles| == width * height
        invariant forall i :: 0 <= i < |tiles| ==>
          tiles[i] == if CarveGuard(width * height, i) && OnRowRun(width, lo, x - 1, y, i)
                      then Floor else old(tiles)[i]
      {
        var idx := XyIdx(width, x, y);
        if idx > 0 && idx < width * height {
          tiles := tiles[idx := Floor];
        }
      }
    }

    /**
     * Carves column `x` from row min(y1, y2) to max(y1, y2) inclusive, with the same
     * guard as the horizontal carver.
     */
    method ApplyVerticalTunnel(y1: int, y2: int, x: int)
      requires Valid()
      modifies this`tiles
      ensures Valid() && FloorKept(old(tiles), tiles)
      ensures forall i :: 0 <= i < |tiles| ==>
        tiles[i] == if CarveGuard(width * height, i) && OnColumnRun(width, Min(y1, y2), Max(y1, y2), x, i)
                    then Floor else old(tiles)[i]
      ensures tiles == WithColumnTunnel(old(tiles), width, y1, y2, x)
    {
      var lo, hi := Min(y1, y2), Max(y1, y2);
      for y := lo to hi + 1
        invariant |tiles| == width * height
        invariant forall i :: 0 <= i < |tiles| ==>
          tiles[i] == if CarveGuard(width * height, i) && OnColumnRun(width, lo, y - 1, x, i)
                      then Floor else old(tiles)[i]
      {
        var idx := XyIdx(width, x, y);
        forall i | 0 <= i < |tiles|
          ensures OnColumnRun(width, lo, y, x, i) <==> OnColumnRun(width, lo, y - 1, x, i) || i == idx
        {
          ColumnOfIndex(width, x, y, i);
        }
        if idx > 0 && idx < width * height {
          tiles := tiles[idx := Floor];
        }
      }
    }

    /** Carves exactly the interior of `room` (columns x1+1..x2, rows y1+1..y2) to floor. */
    method ApplyRoomToMap(room: Rect)
      requires Valid() && RoomFits(room, width, height)
      modifies this`tiles
      ensures Valid() && FloorKept(old(tiles), tiles)
      ensures forall i :: 0 <= i < |tiles| ==>
        tiles[i] == if InRoomInterior(width, room, i) then Floor else old(tiles)[i]
      ensures tiles == WithRoom(old(tiles), width, room)
    {
      var y := room.y1 + 1;
      while y <= room.y2
        invariant room.y1 + 1 <= y <= Max(room.y1 + 1, room.y2 + 1)
        invariant |tiles| == width * height
        invariant forall i :: 0 <= i < |tiles| ==>
          tiles[i] == if InRoomInterior(width, room.(y2 := y - 1), i) then Floor else old(tiles)[i]
        decreases room.y2 - y
      {
        var x := room.x1 + 1;
        while x <= room.x2
          invariant room.x1 + 1 <= x <= Max(room.x1 + 1, room.x2 + 1)
          invariant |tiles| == width * height
          invariant forall i :: 0 <= i < |tiles| ==>
            tiles[i] == if InRoomInterior(width, room.(y2 := y - 1), i)
                           || (i / width == y && room.x1 + 1 <= i % width < x)
                        then Floor else old(tiles)[i]
          decreases room.x2 - x
        {
          var idx := XyIdx(width, x, y);
          XyIdxDecode(width, x, y);
          XyIdxInRange(width, height, Point(x, y));
          forall i | 0 <= i < |tiles| && i / width == y && i % width == x
            ensures i == idx
          {
            XyIdxEncode(width, i);
          }
          tiles := tiles[idx := Floor];
          x := x + 1;
        }
        y := y + 1;
      }
    }
    /**
     * One round of the generator's loop, reading the draws from `k` on; `next` is the
     * first draw it leaves unused.
     */
    method ProposeNext(rolls: seq<nat>, k: nat, intersect: (Rect, Rect) -> bool, center: Rect -> Point)
      returns (next: nat)
      requires Valid() && width == MAP_WIDTH && height == MAP_HEIGHT && k + 5 <= |rolls|
      modifies this`tiles, this`rooms
      ensures Valid()
      ensures Build(rooms, next, tiles) == ProposeRoom(Build(old(rooms), k, old(tiles)), rolls, intersect, center)
    {
      var roomWidth := RangeRoll(MIN_SIZE, MAX_SIZE, rolls[k]);
      var roomHeight := RangeRoll(MIN_SIZE, MAX_SIZE, rolls[k + 1]);
      var x := DiceRoll(MAP_WIDTH - roomWidth - 1, rolls[k + 2]) - 1;
      var y := DiceRoll(MAP_HEIGHT - roomHeight - 1, rolls[k + 3]) - 1;
      var newRoom := NewRect(x, y, roomWidth, roomHeight);
      assert newRoom == Proposal(rolls, k);
      next := k + 4;

      var ok := true;
      for j := 0 to |rooms|
        invariant ok <==> forall l :: 0 <= l < j ==> !intersect(newRoom, rooms[l])
      {
        if intersect(newRoom, rooms[j]) {
          ok := false;
        }
      }
      assert ok <==> !OverlapsAny(newRoom, rooms, intersect);
      if ok {
        ApplyRoomToMap(newRoom);
        if |rooms| > 0 {
          var newCentre := center(newRoom);
          var prevCentre := center(rooms[|rooms| - 1]);
          var coin := RangeRoll(0, 2, rolls[next]);
          next := next + 1;
          if coin == 1 {
            ApplyHorizontalTunnel(prevCentre.x, newCentre.x, prevCentre.y);
            ApplyVerticalTunnel(prevCentre.y, newCentre.y, newCentre.x);
          } else {
            ApplyVerticalTunnel(prevCentre.y, newCentre.y, prevCentre.x);
            ApplyHorizontalTunnel(prevCentre.x, newCentre.x, newCentre.y);
          }
        }
      }
      rooms := rooms + [newRoom];
    }

    /**
     * Proposes MAX_ROOMS rooms from the draws in `rolls` (four per proposal, plus one for
     * the corridor shape when a corridor is dug). Every proposal is appended to `rooms`,
     * accepted or not; a proposal is carved only when it overlaps no earlier entry, and
     * is then joined to the centre of the last entry of `rooms` by an L-shaped corridor.
     */
    static method NewMapRoomsAndCorridors(rolls: seq<nat>, intersect: (Rect, Rect) -> bool, center: Rect -> Point)
      returns (m: Map)
      requires |rolls| >= 5 * MAX_ROOMS
      ensures fresh(m) && m.Valid()
      ensures m.width == MAP_WIDTH && m.height == MAP_HEIGHT && |m.tiles| == MAP_COUNT
      ensures var b := Generated(rolls, intersect, center, MAX_ROOMS);
        m.rooms == b.rooms && m.tiles == b.tiles
      ensures |m.rooms| == MAX_ROOMS
      ensures forall j :: 0 <= j < |m.rooms| ==> ProposalShape(m.rooms[j])
      ensures forall j :: 0 <= j < |m.rooms| && Accepted(m.rooms, j, intersect) ==>
        RoomCarved(m.tiles, m.width, m.rooms[j])
      ensures forall i :: 0 <= i < |m.revealedTiles| ==> !m.revealedTiles[i]
      ensures forall i :: 0 <= i < |m.visibleTiles| ==> !m.visibleTiles[i]
    {
      m := new Map.Blank();
      var k := 0;
      for n := 0 to MAX_ROOMS
        invariant m.Valid() && m.width == MAP_WIDTH && m.height == MAP_HEIGHT
        invariant Build(m.rooms, k, m.tiles) == Generated(rolls, intersect, center, n)
        invariant forall i :: 0 <= i < |m.revealedTiles| ==> !m.revealedTiles[i]
        invariant forall i :: 0 <= i < |m.visibleTiles| ==> !m.visibleTiles[i]
      {
        k := m.ProposeNext(rolls, k, intersect, center);
      }
      GeneratedCarvesAccepted(rolls, intersect, center, MAX_ROOMS);
      GeneratedShapes(rolls, intersect, center, MAX_ROOMS);
    }

    /**
     * The walled test map: floor everywhere, wall on the outer ring, then one wall at each
     * of 400 random tiles (two draws each) except the tile (40, 25).
     */
    method NewMapTest(rolls: seq<nat>) returns (t: seq<TileType>)
      requires width == MAP_WIDTH && |rolls| >= 800
      ensures |t| == MAP_COUNT
      ensures forall i :: 0 <= i < |t| ==>
        (t[i] == Wall <==> OnBorder(i) || (i != TEST_CENTRE && Splatted(rolls, 400, i)))
      ensures forall x :: 0 <= x < MAP_WIDTH ==>
        t[XyIdx(MAP_WIDTH, x, 0)] == Wall && t[XyIdx(MAP_WIDTH, x, MAP_HEIGHT - 1)] == Wall
      ensures forall y :: 0 <= y < MAP_HEIGHT ==>
        t[XyIdx(MAP_WIDTH, 0, y)] == Wall && t[XyIdx(MAP_WIDTH, MAP_WIDTH - 1, y)] == Wall
      ensures t[TEST_CENTRE] == Floor
    {
      t := seq(MAP_COUNT, _ => Floor);
      for x := 0 to 80
        invariant |t| == MAP_COUNT
        invariant forall i :: 0 <= i < |t| ==>
          (t[i] == Wall <==> (i / MAP_WIDTH == 0 || i / MAP_WIDTH == MAP_HEIGHT - 1) && i % MAP_WIDTH < x)
      {
        t := t[XyIdx(width, x, 0) := Wall];
        t := t[XyIdx(width, x, 49) := Wall];
      }
      for y := 0 to 50
        invariant |t| == MAP_COUNT
        invariant forall i :: 0 <= i < |t| ==>
          (t[i] == Wall <==> (|| i / MAP_WIDTH == 0 || i / MAP_WIDTH == MAP_HEIGHT - 1
                              || ((i % MAP_WIDTH == 0 || i % MAP_WIDTH == MAP_WIDTH - 1) && i / MAP_WIDTH < y)))
      {
        t := t[XyIdx(width, 0, y) := Wall];
        t := t[XyIdx(width, 79, y) := Wall];
      }
      for n := 0 to 400
        invariant |t| == MAP_COUNT
        invariant forall i :: 0 <= i < |t| ==>
          (t[i] == Wall <==> OnBorder(i) || (i != TEST_CENTRE && Splatted(rolls, n, i)))
      {
        var x := DiceRoll(79, rolls[2 * n]);
        var y := DiceRoll(49, rolls[2 * n + 1]);
        var idx := XyIdx(width, x, y);
        if idx != XyIdx(width, 40, 25) {
          t := t[idx := Wall];
        }
        forall i | 0 <= i < |t|
          ensures Splatted(rolls, n + 1, i) <==> Splatted(rolls, n, i) || i == idx
        {
          if i == idx {
            assert SplatIdx(rolls, n) == i;
          }
        }
      }
      forall x | 0 <= x < MAP_WIDTH
        ensures OnBorder(XyIdx(MAP_WIDTH, x, 0)) && OnBorder(XyIdx(MAP_WIDTH, x, MAP_HEIGHT - 1))
      {
        XyIdxDecode(MAP_WIDTH, x, 0);
        XyIdxDecode(MAP_WIDTH, x, MAP_HEIGHT - 1);
      }
      forall y | 0 <= y < MAP_HEIGHT
        ensures OnBorder(XyIdx(MAP_WIDTH, 0, y)) && OnBorder(XyIdx(MAP_WIDTH, MAP_WIDTH - 1, y))
      {
        XyIdxDecode(MAP_WIDTH, 0, y);
        XyIdxDecode(MAP_WIDTH, MAP_WIDTH - 1, y);
      }
    }
  }
}
