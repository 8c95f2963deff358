/**
 * The visibility system (src/visibility_system.rs). A dirty viewshed is recomputed from
 * the field of view at the entity's position, cut down to the map, and marked clean. When
 * the entity is the player, the map's visible bits are reset to exactly the tiles it now
 * sees, and those tiles are added to the revealed bits.
 */
module Visibility {

  import opened Components
  import opened Grid
  import opened Ecs

  /**
   * The field-of-view routine: the points seen from an origin within a range, given the
   * opacity of every tile (`Map.IsOpaque`).
   */
  type FieldOfView = (Point, int, seq<bool>) -> seq<Point>

  /** The part of the world the visibility system may change. */
  datatype Sight = Sight(viewsheds: map<Entity, Viewshed>, visible: seq<bool>, revealed: seq<bool>)

  /** What the visibility system reads without changing. */
  datatype Scene = Scene(
    players: set<Entity>,
    positions: map<Entity, Position>,
    width: int,
    height: int,
    tiles: seq<TileType>)

  /** The visible and revealed bits cover the map. */
  predicate Fits(s: Sight, env: Scene)
  {
    && env.width > 0 && env.height > 0
    && |s.visible| == env.width * env.height
    && |s.revealed| == env.width * env.height
  }

  /** The field of view cut down to the map's tiles, in its own order. */
  function FilterToGrid(pts: seq<Point>, width: int, height: int): (r: seq<Point>)
    ensures forall p :: p in r <==> p in pts && InGrid(p, width, height)
    ensures (forall p :: p in pts ==> InGrid(p, width, height)) ==> r == pts
    ensures |r| <= |pts|
    decreases |pts|
  {
    if pts == [] then []
    else
      var rest := FilterToGrid(pts[1..], width, height);
      assert pts == [pts[0]] + pts[1..];
      if InGrid(pts[0], width, height) then [pts[0]] + rest else rest
  }

  /** Every point kept by the filter has an index inside the map's bit vectors. */
  lemma FilteredIndexesInRange(pts: seq<Point>, width: int, height: int)
    ensures forall p :: p in FilterToGrid(pts, width, height) ==> 0 <= XyIdx(width, p.x, p.y) < width * height
  {
    forall p | p in FilterToGrid(pts, width, height)
      ensures 0 <= XyIdx(width, p.x, p.y) < width * height
    {
      XyIdxInRange(width, height, p);
    }
  }

  /** The bounds test the source's `retain` applies: its row test admits row `height`. */
  predicate PassesRetain(p: Point, width: int, height: int)
  {
    0 <= p.x < width && 0 <= p.y <= height
  }

  /** The source's filter as written. */
  function FilterAsWritten(pts: seq<Point>, width: int, height: int): (r: seq<Point>)
    ensures forall p :: p in r <==> p in pts && PassesRetain(p, width, height)
    decreases |pts|
  {
    if pts == [] then []
    else
      var rest := FilterAsWritten(pts[1..], width, height);
      assert pts == [pts[0]] + pts[1..];
      if PassesRetain(pts[0], width, height) then [pts[0]] + rest else rest
  }

  /**
   * The filter as written keeps the point in column 0 one row below the map, whose index
   * is one past the last entry of the visible and revealed bit vectors.
   */
  lemma RetainAdmitsRowPastEnd(width: int, height: int)
    requires width > 0 && height > 0
    ensures Point(0, height) in FilterAsWritten([Point(0, height)], width, height)
    ensures !InGrid(Point(0, height), width, height)
    ensures XyIdx(width, 0, height) == width * height
  {
  }

  /**
   * The two filters differ only on points in row `height`: when the field of view holds
   * none in a column of the map, they keep the same points in the same order.
   */
  lemma {:induction false} FiltersAgreeOffLastRow(pts: seq<Point>, width: int, height: int)
    requires forall p :: p in pts && 0 <= p.x < width ==> p.y != height
    ensures FilterAsWritten(pts, width, height) == FilterToGrid(pts, width, height)
    decreases |pts|
  {
    if pts != [] {
      assert forall p :: p in pts[1..] ==> p in pts;
      FiltersAgreeOffLastRow(pts[1..], width, height);
    }
  }

  /** `bits` with the index of every point of `pts` set. */
  function Marked(bits: seq<bool>, pts: seq<Point>, width: int, height: int): (r: seq<bool>)
    requires |bits| == width * height
    requires forall p :: p in pts ==> InGrid(p, width, height)
    ensures |r| == |bits|
    decreases |pts|
  {
    if pts == [] then bits
    else
      XyIdxInRange(width, height, pts[0]);
      Marked(bits[XyIdx(width, pts[0].x, pts[0].y) := true], pts[1..], width, height)
  }

  /** Some point of `pts` has index `i`. */
  predicate SeenAt(pts: seq<Point>, width: int, i: int)
  {
    exists p :: p in pts && XyIdx(width, p.x, p.y) == i
  }

  /** A bit is set after marking exactly when it was set before or some point has its index. */
  lemma {:induction false} MarkedExactly(bits: seq<bool>, pts: seq<Point>, width: int, height: int, i: int)
    requires |bits| == width * height
    requires forall p :: p in pts ==> InGrid(p, width, height)
    requires 0 <= i < |bits|
    ensures Marked(bits, pts, width, height)[i] <==> bits[i] || SeenAt(pts, width, i)
    decreases |pts|
  {
    if pts != [] {
      XyIdxInRange(width, height, pts[0]);
      var d := XyIdx(width, pts[0].x, pts[0].y);
      MarkedExactly(bits[d := true], pts[1..], width, height, i);
      if exists p :: p in pts && XyIdx(width, p.x, p.y) == i {
        var p :| p in pts && XyIdx(width, p.x, p.y) == i;
        if p != pts[0] {
          assert p in pts[1..];
        }
      }
      if exists p :: p in pts[1..] && XyIdx(width, p.x, p.y) == i {
        var p :| p in pts[1..] && XyIdx(width, p.x, p.y) == i;
        assert p in pts;
      }
    }
  }

  /** The field of view recomputed for entity `e`, cut down to the map. */
  function Recomputed(s: Sight, e: Entity, env: Scene, fov: FieldOfView): seq<Point>
    requires e in s.viewsheds && e in env.positions
  {
    FilterToGrid(fov(env.positions[e], s.viewsheds[e].range, Opacity(env.tiles)), env.width, env.height)
  }

  /** What the visibility system does for one entity `e` with a viewshed and a position. */
  function Refresh(s: Sight, e: Entity, env: Scene, fov: FieldOfView): (r: Sight)
    requires Fits(s, env) && e in s.viewsheds && e in env.positions
    ensures Fits(r, env) && r.viewsheds.Keys == s.viewsheds.Keys
  {
    var v := s.viewsheds[e];
    if !v.dirty then s
    else
      var seen := Recomputed(s, e, env, fov);
      var viewsheds := s.viewsheds[e := Viewshed(seen, v.range, false)];
      if e in env.players then
        Sight(viewsheds, Marked(seq(|s.visible|, _ => false), seen, env.width, env.height),
              Marked(s.revealed, seen, env.width, env.height))
      else s.(viewsheds := viewsheds)
  }

  /** A clean viewshed is not recomputed and nothing changes. */
  lemma CleanViewshedSkipped(s: Sight, e: Entity, env: Scene, fov: FieldOfView)
    requires Fits(s, env) && e in s.viewsheds && e in env.positions
    requires !s.viewsheds[e].dirty
    ensures Refresh(s, e, env, fov) == s
  {
  }

  /**
   * A dirty viewshed becomes clean, keeps its range, and now holds exactly the points of
   * the field of view that lie on the map; no other viewshed changes.
   */
  lemma DirtyViewshedRecomputed(s: Sight, e: Entity, env: Scene, fov: FieldOfView)
    requires Fits(s, env) && e in s.viewsheds && e in env.positions
    requires s.viewsheds[e].dirty
    ensures var r := Refresh(s, e, env, fov);
      var v := r.viewsheds[e];
      && !v.dirty && v.range == s.viewsheds[e].range
      && (forall p :: p in v.visibleTiles <==>
            p in fov(env.positions[e], s.viewsheds[e].range, Opacity(env.tiles)) && InGrid(p, env.width, env.height))
      && r.viewsheds == s.viewsheds[e := v]
  {
  }

  /** Every visible tile is revealed. */
  predicate VisibleRevealed(s: Sight)
  {
    forall i :: 0 <= i < |s.visible| && i < |s.revealed| && s.visible[i] ==> s.revealed[i]
  }

  /**
   * After the player's viewshed is recomputed, a tile is visible exactly when the player
   * now sees it, and revealed exactly when it was revealed before or is seen now.
   */
  lemma PlayerSeesExactly(s: Sight, e: Entity, env: Scene, fov: FieldOfView)
    requires Fits(s, env) && e in s.viewsheds && e in env.positions
    requires s.viewsheds[e].dirty && e in env.players
    ensures var r := Refresh(s, e, env, fov);
      forall i :: 0 <= i < |r.visible| ==>
        && (r.visible[i] <==> SeenAt(r.viewsheds[e].visibleTiles, env.width, i))
        && (r.revealed[i] <==> s.revealed[i] || SeenAt(r.viewsheds[e].visibleTiles, env.width, i))
  {
    var seen := Recomputed(s, e, env, fov);
    var r := Refresh(s, e, env, fov);
    var cleared := seq(|s.visible|, _ => false);
    assert r.viewsheds[e].visibleTiles == seen;
    assert r.visible == Marked(cleared, seen, env.width, env.height);
    assert r.revealed == Marked(s.revealed, seen, env.width, env.height);
    forall i | 0 <= i < |r.visible|
      ensures r.visible[i] <==> SeenAt(seen, env.width, i)
      ensures r.revealed[i] <==> s.revealed[i] || SeenAt(seen, env.width, i)
    {
      MarkedExactly(cleared, seen, env.width, env.height, i);
      MarkedExactly(s.revealed, seen, env.width, env.height, i);
    }
  }

  /** Recomputing a viewshed of anyone but the player leaves the map's bits alone. */
  lemma NonPlayerLeavesMap(s: Sight, e: Entity, env: Scene, fov: FieldOfView)
    requires Fits(s, env) && e in s.viewsheds && e in env.positions
    requires e !in env.players
    ensures Refresh(s, e, env, fov).visible == s.visible
    ensures Refresh(s, e, env, fov).revealed == s.revealed
  {
  }

  /** One entity's update never hides a revealed tile and keeps every visible tile revealed. */
  lemma RefreshKeepsRevealed(s: Sight, e: Entity, env: Scene, fov: FieldOfView)
    requires Fits(s, env) && e in s.viewsheds && e in env.positions
    ensures var r := Refresh(s, e, env, fov);
      forall i :: 0 <= i < |s.revealed| && s.revealed[i] ==> r.revealed[i]
    ensures VisibleRevealed(s) ==> VisibleRevealed(Refresh(s, e, env, fov))
  {
    if s.viewsheds[e].dirty && e in env.players {
      PlayerSeesExactly(s, e, env, fov);
    }
  }

  /** The system's join over `es`: every entity with a viewshed and a position is updated, in order. */
  function VisibilityPass(s: Sight, es: seq<Entity>, env: Scene, fov: FieldOfView): (r: Sight)
    requires Fits(s, env)
    ensures Fits(r, env) && r.viewsheds.Keys == s.viewsheds.Keys
    decreases |es|
  {
    if es == [] then s
    else
      var e := es[0];
      var next := if e in s.viewsheds && e in env.positions then Refresh(s, e, env, fov) else s;
      VisibilityPass(next, es[1..], env, fov)
  }

  /** Revealed tiles stay revealed through the pass. */
  lemma {:induction false} PassRevealedMonotone(s: Sight, es: seq<Entity>, env: Scene, fov: FieldOfView)
    requires Fits(s, env)
    ensures var r := VisibilityPass(s, es, env, fov);
      forall i :: 0 <= i < |s.revealed| && s.revealed[i] ==> r.revealed[i]
    decreases |es|
  {
    if es != [] {
      var e := es[0];
      var next := if e in s.viewsheds && e in env.positions then Refresh(s, e, env, fov) else s;
      if e in s.viewsheds && e in env.positions {
        RefreshKeepsRevealed(s, e, env, fov);
      }
      PassRevealedMonotone(next, es[1..], env, fov);
    }
  }

  /** If every visible tile was revealed before the pass, the same holds after it. */
  lemma {:induction false} PassKeepsVisibleRevealed(s: Sight, es: seq<Entity>, env: Scene, fov: FieldOfView)
    requires Fits(s, env)
    requires VisibleRevealed(s)
    ensures VisibleRevealed(VisibilityPass(s, es, env, fov))
    decreases |es|
  {
    if es != [] {
      var e := es[0];
      var next := if e in s.viewsheds && e in env.positions then Refresh(s, e, env, fov) else s;
      if e in s.viewsheds && e in env.positions {
        RefreshKeepsRevealed(s, e, env, fov);
      }
      PassKeepsVisibleRevealed(next, es[1..], env, fov);
    }
  }

  /** A clean viewshed stays clean through the pass. */
  lemma {:induction false} PassKeepsClean(s: Sight, es: seq<Entity>, env: Scene, fov: FieldOfView, o: Entity)
    requires Fits(s, env)
    requires o in s.viewsheds && !s.viewsheds[o].dirty
    ensures !VisibilityPass(s, es, env, fov).viewsheds[o].dirty
    decreases |es|
  {
    if es != [] {
      var e := es[0];
      var next := if e in s.viewsheds && e in env.positions then Refresh(s, e, env, fov) else s;
      PassKeepsClean(next, es[1..], env, fov, o);
    }
  }

  /** After the pass, every joined entity's viewshed is clean. */
  lemma {:induction false} PassCleansJoined(s: Sight, es: seq<Entity>, env: Scene, fov: FieldOfView, o: Entity)
    requires Fits(s, env)
    requires o in es && o in s.viewsheds && o in env.positions
    ensures !VisibilityPass(s, es, env, fov).viewsheds[o].dirty
    decreases |es|
  {
    var e := es[0];
    var next := if e in s.viewsheds && e in env.positions then Refresh(s, e, env, fov) else s;
    if e == o {
      PassKeepsClean(next, es[1..], env, fov, o);
    } else {
      PassCleansJoined(next, es[1..], env, fov, o);
    }
  }

  function SightOf(w: World): Sight
    reads w, w.level
  {
    Sight(w.viewsheds, w.level.visibleTiles, w.level.revealedTiles)
  }

  function SceneOf(w: World): Scene
    reads w, w.level
  {
    Scene(w.players, w.positions, w.level.width, w.level.height, w.level.tiles)
  }

  /** The reset of the map's visible bits before the player's tiles are marked. */
  method ClearVisible(m: Map)
    modifies m`visibleTiles
    ensures m.visibleTiles == seq(|old(m.visibleTiles)|, _ => false)
  {
    var k := 0;
    while k < |m.visibleTiles|
      invariant 0 <= k <= |m.visibleTiles| == |old(m.visibleTiles)|
      invariant forall j :: 0 <= j < k ==> !m.visibleTiles[j]
    {
      m.visibleTiles := m.visibleTiles[k := false];
      k := k + 1;
    }
  }

  /** Sets the revealed and visible bit of every tile in `seen`. */
  method MarkTiles(m: Map, seen: seq<Point>)
    requires |m.visibleTiles| == m.width * m.height && |m.revealedTiles| == m.width * m.height
    requires forall p :: p in seen ==> InGrid(p, m.width, m.height)
    modifies m`visibleTiles, m`revealedTiles
    ensures m.visibleTiles == Marked(old(m.visibleTiles), seen, m.width, m.height)
    ensures m.revealedTiles == Marked(old(m.revealedTiles), seen, m.width, m.height)
  {
    var i := 0;
    while i < |seen|
      invariant 0 <= i <= |seen|
      invariant |m.visibleTiles| == m.width * m.height && |m.revealedTiles| == m.width * m.height
      invariant Marked(m.visibleTiles, seen[i..], m.width, m.height) == Marked(old(m.visibleTiles), seen, m.width, m.height)
      invariant Marked(m.revealedTiles, seen[i..], m.width, m.height) == Marked(old(m.revealedTiles), seen, m.width, m.height)
    {
      assert seen[i..][0] == seen[i] && seen[i..][1..] == seen[i + 1..];
      XyIdxInRange(m.width, m.height, seen[i]);
      var idx := XyIdx(m.width, seen[i].x, seen[i].y);
      m.revealedTiles := m.revealedTiles[idx := true];
      m.visibleTiles := m.visibleTiles[idx := true];
      i := i + 1;
    }
  }

  /** One entity's turn in the visibility system's join. */
  method RefreshViewshed(w: World, e: Entity, ghost env: Scene, fov: FieldOfView)
    requires env == SceneOf(w) && Fits(SightOf(w), env) && e in w.viewsheds && e in w.positions
    modifies w`viewsheds, w.level`visibleTiles, w.level`revealedTiles
    ensures env == SceneOf(w)
    ensures SightOf(w) == Refresh(old(SightOf(w)), e, env, fov)
  {
    var v := w.viewsheds[e];
    if v.dirty {
      var seen := FilterToGrid(fov(w.positions[e], v.range, Opacity(w.level.tiles)), w.level.width, w.level.height);
      w.viewsheds := w.viewsheds[e := Viewshed(seen, v.range, false)];
      if e in w.players {
        ClearVisible(w.level);
        MarkTiles(w.level, seen);
      }
    }
  }

  /** `VisibilitySystem::run`: every entity with a viewshed and a position, in entity order. */
  method RunVisibility(w: World, fov: FieldOfView)
    requires w.Valid()
    modifies w`viewsheds, w.level`visibleTiles, w.level`revealedTiles
    ensures w.Valid()
    ensures SightOf(w) == VisibilityPass(old(SightOf(w)), w.entities, SceneOf(w), fov)
  {
    ghost var env := SceneOf(w);
    ghost var goal := VisibilityPass(SightOf(w), w.entities, env, fov);
    var i := 0;
    while i < |w.entities|
      invariant 0 <= i <= |w.entities|
      invariant env == SceneOf(w) && Fits(SightOf(w), env)
      invariant w.viewsheds.Keys == old(w.viewsheds.Keys)
      invariant VisibilityPass(SightOf(w), w.entities[i..], env, fov) == goal
    {
      var e := w.entities[i];
      assert w.entities[i..][0] == e && w.entities[i..][1..] == w.entities[i + 1..];
      if e in w.viewsheds && e in w.positions {
        RefreshViewshed(w, e, env, fov);
      }
      i := i + 1;
    }
  }
}
