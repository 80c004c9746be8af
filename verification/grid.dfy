/**
 * The tile world of `src/core/grid.py`: a rectangular array of tiles addressed as
 * `tiles[y][x]`, plus side lists of the gem and goal positions.
 */
module Grids {
  import opened Coords
  import opened Lists
  import opened Text

  /** `TileType` */
  datatype Tile = Empty | Wall | Gem | Goal

  /** `Grid`: dimensions, the row-major tile array and the two tracking lists. */
  datatype Grid = Grid(width: int, height: int, tiles: seq<seq<Tile>>, gems: seq<Pos>, goals: seq<Pos>)

  /** The tile array has `height` rows of `width` tiles (Python's `range` makes a negative size empty). */
  predicate Shaped(g: Grid) {
    && |g.tiles| == Extent(g.height)
    && forall row :: 0 <= row < |g.tiles| ==> |g.tiles[row]| == Extent(g.width)
  }

  /** `is_valid_position` */
  predicate InBounds(g: Grid, x: int, y: int) {
    0 <= x < g.width && 0 <= y < g.height
  }

  /** The stored tile of an in-bounds cell. */
  function Cell(g: Grid, x: int, y: int): Tile
    requires Shaped(g) && InBounds(g, x, y)
  {
    g.tiles[y][x]
  }

  /**
   * The invariant `set_tile` maintains. The tracking lists hold no duplicates and only
   * in-bounds positions, and every GEM cell is listed in `gems` and every GOAL cell in
   * `goals`. The converse does not hold: a listed position may since have been
   * overwritten by the other special tile.
   */
  ghost predicate Synced(g: Grid) {
    && Shaped(g)
    && NoDup(g.gems)
    && NoDup(g.goals)
    && (forall p :: p in g.gems ==> InBounds(g, p.x, p.y))
    && (forall p :: p in g.goals ==> InBounds(g, p.x, p.y))
    && (forall x, y :: InBounds(g, x, y) && Cell(g, x, y) == Gem ==> Pos(x, y) in g.gems)
    && (forall x, y :: InBounds(g, x, y) && Cell(g, x, y) == Goal ==> Pos(x, y) in g.goals)
  }

  /** `Grid(width, height)`: every cell EMPTY, both lists empty. */
  function NewGrid(width: int, height: int): (g: Grid)
    ensures g.width == width && g.height == height
    ensures Synced(g)
    ensures g.gems == [] && g.goals == []
    ensures forall x, y :: InBounds(g, x, y) ==> Cell(g, x, y) == Empty
  {
    Grid(width, height, seq(Extent(height), _ => seq(Extent(width), _ => Empty)), [], [])
  }

  /** `get_tile`: the stored tile in bounds, and WALL at every coordinate outside the grid. */
  function GetTile(g: Grid, x: int, y: int): (t: Tile)
    requires Shaped(g)
    ensures !InBounds(g, x, y) ==> t == Wall
    ensures InBounds(g, x, y) ==> t == Cell(g, x, y)
  {
    if InBounds(g, x, y) then g.tiles[y][x] else Wall
  }

  /** `is_wall` */
  predicate IsWall(g: Grid, x: int, y: int)
    requires Shaped(g)
  {
    GetTile(g, x, y) == Wall
  }

  /** `is_gem` */
  predicate IsGem(g: Grid, x: int, y: int)
    requires Shaped(g)
  {
    GetTile(g, x, y) == Gem
  }

  /** `is_goal` */
  predicate IsGoal(g: Grid, x: int, y: int)
    requires Shaped(g)
  {
    GetTile(g, x, y) == Goal
  }

  /** Outside the grid everything is a wall, and never a gem or a goal. */
  lemma OutOfBoundsIsWall(g: Grid, x: int, y: int)
    requires Shaped(g)
    requires x < 0 || x >= g.width || y < 0 || y >= g.height
    ensures IsWall(g, x, y) && !IsGem(g, x, y) && !IsGoal(g, x, y)
  {
  }

  /** The tile array with the one in-bounds cell `(x, y)` replaced by `t`. */
  function WriteCell(g: Grid, x: int, y: int, t: Tile): (r: Grid)
    requires Shaped(g) && InBounds(g, x, y)
    ensures Shaped(r) && r.width == g.width && r.height == g.height
    ensures r.gems == g.gems && r.goals == g.goals
    ensures forall a, b :: InBounds(r, a, b) ==> Cell(r, a, b) == if a == x && b == y then t else Cell(g, a, b)
  {
    g.(tiles := g.tiles[y := g.tiles[y][x := t]])
  }

  /**
   * `set_tile`. Out of bounds it does nothing. In bounds it writes the one cell and no
   * other, then updates the tracking lists (see `SetTileLists`).
   */
  function SetTile(g: Grid, x: int, y: int, t: Tile): (r: Grid)
    requires Shaped(g)
    ensures Shaped(r) && r.width == g.width && r.height == g.height
    ensures !InBounds(g, x, y) ==> r == g
    ensures InBounds(g, x, y) ==> GetTile(r, x, y) == t
    ensures forall a, b :: a != x || b != y ==> GetTile(r, a, b) == GetTile(g, a, b)
  {
    if !InBounds(g, x, y) then g
    else
      var p := Pos(x, y);
      var w := WriteCell(g, x, y, t);
      match t
      case Gem => w.(gems := AppendIfAbsent(g.gems, p))
      case Goal => w.(goals := AppendIfAbsent(g.goals, p))
      case _ => w.(gems := RemoveFirst(g.gems, p), goals := RemoveFirst(g.goals, p))
  }

  /**
   * The list bookkeeping of an in-bounds `set_tile` runs one way only: GEM adds the
   * position to `gems` and leaves `goals` alone, GOAL adds it to `goals` and leaves
   * `gems` alone, and EMPTY or WALL removes it from both lists.
   */
  lemma SetTileLists(g: Grid, x: int, y: int, t: Tile)
    requires Shaped(g) && InBounds(g, x, y)
    requires NoDup(g.gems) && NoDup(g.goals)
    ensures var r := SetTile(g, x, y, t);
      && (t == Gem ==>
            && r.goals == g.goals
            && (forall p :: p in r.gems <==> p in g.gems || p == Pos(x, y))
            && |r.gems| <= |g.gems| + 1)
      && (t == Goal ==>
            && r.gems == g.gems
            && (forall p :: p in r.goals <==> p in g.goals || p == Pos(x, y))
            && |r.goals| <= |g.goals| + 1)
      && ((t == Empty || t == Wall) ==>
            && (forall p :: p in r.gems <==> p in g.gems && p != Pos(x, y))
            && (forall p :: p in r.goals <==> p in g.goals && p != Pos(x, y))
            && (Pos(x, y) in g.gems ==> |r.gems| == |g.gems| - 1))
  {
  }

  /** Every `set_tile`, in bounds or not, keeps the grid `Synced`. */
  lemma SetTileKeepsSynced(g: Grid, x: int, y: int, t: Tile)
    requires Synced(g)
    ensures Synced(SetTile(g, x, y, t))
  {
    if InBounds(g, x, y) {
      var r := SetTile(g, x, y, t);
      var p := Pos(x, y);
      SetTileLists(g, x, y, t);
      assert forall a, b :: InBounds(r, a, b) ==> Cell(r, a, b) == if a == x && b == y then t else Cell(g, a, b);
      forall a, b | InBounds(r, a, b) && Cell(r, a, b) == Gem
        ensures Pos(a, b) in r.gems
      {
        if a != x || b != y {
          assert Cell(g, a, b) == Gem;
        }
      }
      forall a, b | InBounds(r, a, b) && Cell(r, a, b) == Goal
        ensures Pos(a, b) in r.goals
      {
        if a != x || b != y {
          assert Cell(g, a, b) == Goal;
        }
      }
    }
  }

  /** `get_gem_count`: the length of the `gems` list. */
  function GemCount(g: Grid): nat {
    |g.gems|
  }

  /**
   * `collect_gem`: reports whether the cell held a GEM; if so the cell becomes EMPTY,
   * nothing else changes, and on a synced grid the gem count drops by exactly one.
   */
  function CollectGem(g: Grid, x: int, y: int): (r: (Grid, bool))
    requires Shaped(g)
    ensures Shaped(r.0)
    ensures r.1 <==> IsGem(g, x, y)
    ensures !r.1 ==> r.0 == g
    ensures r.1 ==> GetTile(r.0, x, y) == Empty
    ensures forall a, b :: a != x || b != y ==> GetTile(r.0, a, b) == GetTile(g, a, b)
    ensures Synced(g) ==> Synced(r.0)
    ensures Synced(g) && r.1 ==> GemCount(r.0) == GemCount(g) - 1
  {
    if IsGem(g, x, y) then
      var r := SetTile(g, x, y, Empty);
      assert Synced(g) ==> Synced(r) && |r.gems| == |g.gems| - 1 by {
        if Synced(g) {
          SetTileKeepsSynced(g, x, y, Empty);
          SetTileLists(g, x, y, Empty);
        }
      }
      (r, true)
    else (g, false)
  }

  /** Collecting the same cell a second time reports false and changes nothing. */
  lemma CollectGemTwice(g: Grid, x: int, y: int)
    requires Shaped(g)
    ensures var first := CollectGem(g, x, y).0;
            CollectGem(first, x, y) == (first, false)
  {
  }

  /** `clear`: the same dimensions, every cell EMPTY, both lists emptied; exactly a fresh grid. */
  function Clear(g: Grid): (r: Grid)
    ensures r.width == g.width && r.height == g.height
    ensures Synced(r) && r.gems == [] && r.goals == []
    ensures forall x, y :: InBounds(r, x, y) ==> Cell(r, x, y) == Empty
    ensures r == NewGrid(g.width, g.height)
  {
    g.(tiles := seq(Extent(g.height), _ => seq(Extent(g.width), _ => Empty)), gems := [], goals := [])
  }

  /** The four cardinal offsets in the order `get_neighbors` tries them: south, east, north, west. */
  function Cardinals(x: int, y: int): seq<Pos> {
    [Pos(x, y + 1), Pos(x + 1, y), Pos(x, y - 1), Pos(x - 1, y)]
  }

  /** The place of a cardinal neighbour of `(x, y)` in that order (4 for anything else). */
  function CardinalRank(x: int, y: int, p: Pos): nat {
    if p == Pos(x, y + 1) then 0
    else if p == Pos(x + 1, y) then 1
    else if p == Pos(x, y - 1) then 2
    else if p == Pos(x - 1, y) then 3
    else 4
  }

  /** `[p]` when `p` is inside the grid, `[]` otherwise: one iteration of the `get_neighbors` loop. */
  function KeepIfInBounds(g: Grid, p: Pos): seq<Pos> {
    if InBounds(g, p.x, p.y) then [p] else []
  }

  /**
   * `get_neighbors`: exactly the in-bounds cardinal neighbours, each one step away,
   * in the order south, east, north, west.
   */
  function GetNeighbors(g: Grid, x: int, y: int): (ns: seq<Pos>)
    ensures |ns| <= 4
    ensures forall i :: 0 <= i < |ns| ==> CardinalRank(x, y, ns[i]) < 4 && InBounds(g, ns[i].x, ns[i].y)
    ensures forall i :: 0 <= i < |ns| ==> Manhattan(Pos(x, y), ns[i]) == 1
    ensures forall k :: 0 <= k < 4 && InBounds(g, Cardinals(x, y)[k].x, Cardinals(x, y)[k].y) ==> Cardinals(x, y)[k] in ns
    ensures forall i, j :: 0 <= i < j < |ns| ==> CardinalRank(x, y, ns[i]) < CardinalRank(x, y, ns[j])
  {
    var cs := Cardinals(x, y);
    KeepIfInBounds(g, cs[0]) + KeepIfInBounds(g, cs[1]) + KeepIfInBounds(g, cs[2]) + KeepIfInBounds(g, cs[3])
  }

  /** The docstring's middle example: `(5, 5)` on a 10x10 grid has all four neighbours, south first. */
  lemma MiddleNeighbors()
    ensures GetNeighbors(NewGrid(10, 10), 5, 5) == [Pos(5, 6), Pos(6, 5), Pos(5, 4), Pos(4, 5)]
  {
    var g := NewGrid(10, 10);
    assert KeepIfInBounds(g, Pos(5, 6)) == [Pos(5, 6)];
    assert KeepIfInBounds(g, Pos(6, 5)) == [Pos(6, 5)];
    assert KeepIfInBounds(g, Pos(5, 4)) == [Pos(5, 4)];
    assert KeepIfInBounds(g, Pos(4, 5)) == [Pos(4, 5)];
  }

  /** The docstring's corner example: `(0, 0)` has just its south and east neighbours, in that order. */
  lemma CornerNeighbors(g: Grid)
    requires g.width >= 2 && g.height >= 2
    ensures GetNeighbors(g, 0, 0) == [Pos(0, 1), Pos(1, 0)]
  {
    assert KeepIfInBounds(g, Pos(0, 1)) == [Pos(0, 1)];
    assert KeepIfInBounds(g, Pos(1, 0)) == [Pos(1, 0)];
    assert KeepIfInBounds(g, Pos(0, -1)) == [];
    assert KeepIfInBounds(g, Pos(-1, 0)) == [];
  }
}
