/** The level descriptor of `src/core/level.py`: the authored layout, its stamped grid and the win test. */
module Levels {
  import opened Coords
  import opened Text
  import opened Wrappers
  import opened Grids
  import opened Players

  /** `Level`: the authored fields plus the grid built from them at construction. */
  datatype Level = Level(
    startPos: Pos, goalPos: Pos, obstacles: seq<Pos>, gems: seq<Pos>,
    gridSize: int, hint: string, name: string, grid: Grid)

  /** The name an unnamed level gets: `f"Level {n}x{n}"`. */
  function DefaultName(n: int): string {
    "Level " + IntToString(n) + "x" + IntToString(n)
  }

  /** The bounds check `_setup_level` makes against `grid_size` before each write. */
  predicate InRange(n: int, p: Pos) {
    0 <= p.x < n && 0 <= p.y < n
  }

  /** One iteration of a `_setup_level` loop: write `t` at `p` when `p` is in range. */
  function StampIfInRange(g: Grid, n: int, p: Pos, t: Tile): (r: Grid)
    requires Shaped(g)
    ensures Shaped(r) && r.width == g.width && r.height == g.height
  {
    if InRange(n, p) then SetTile(g, p.x, p.y, t) else g
  }

  /** One whole `_setup_level` loop: stamp `t` at every in-range position of `ps`, first to last. */
  function StampAll(g: Grid, n: int, ps: seq<Pos>, t: Tile): (r: Grid)
    requires Shaped(g)
    ensures Shaped(r) && r.width == g.width && r.height == g.height
    decreases |ps|
  {
    if |ps| == 0 then g else StampAll(StampIfInRange(g, n, ps[0], t), n, ps[1..], t)
  }

  /**
   * After a stamping loop a cell holds `t` exactly when it is in range and listed
   * (however often), and is otherwise as it was; outside the grid it is still WALL.
   */
  lemma {:induction false} StampAllCells(g: Grid, n: int, ps: seq<Pos>, t: Tile)
    requires Shaped(g) && g.width == n && g.height == n
    ensures forall x, y ::
      GetTile(StampAll(g, n, ps, t), x, y) ==
      (if InRange(n, Pos(x, y)) && Pos(x, y) in ps then t else GetTile(g, x, y))
    decreases |ps|
  {
    if |ps| > 0 {
      var g1 := StampIfInRange(g, n, ps[0], t);
      StampAllCells(g1, n, ps[1..], t);
      assert forall q :: q in ps <==> q == ps[0] || q in ps[1..];
    }
  }

  /** One guarded write keeps the grid `Synced`. */
  lemma StampKeepsSynced(g: Grid, n: int, p: Pos, t: Tile)
    requires Synced(g)
    ensures Synced(StampIfInRange(g, n, p, t))
  {
    if InRange(n, p) {
      SetTileKeepsSynced(g, p.x, p.y, t);
    }
  }

  /** A stamping loop keeps the grid `Synced`. */
  lemma {:induction false} StampAllKeepsSynced(g: Grid, n: int, ps: seq<Pos>, t: Tile)
    requires Synced(g)
    ensures Synced(StampAll(g, n, ps, t))
    decreases |ps|
  {
    if |ps| > 0 {
      StampKeepsSynced(g, n, ps[0], t);
      StampAllKeepsSynced(StampIfInRange(g, n, ps[0], t), n, ps[1..], t);
    }
  }

  /**
   * What `_setup_level` leaves in each cell, as a reference independent of the loops:
   * later writes win, so the goal beats a gem and a gem beats an obstacle on the same
   * cell; out-of-range entries are dropped; outside the grid everything reads as WALL.
   */
  function LayoutTile(n: int, obstacles: seq<Pos>, gems: seq<Pos>, goal: Pos, x: int, y: int): Tile {
    if !InRange(n, Pos(x, y)) then Wall
    else if Pos(x, y) == goal then Goal
    else if Pos(x, y) in gems then Gem
    else if Pos(x, y) in obstacles then Wall
    else Empty
  }

  /** `Grid(n, n)` followed by `_setup_level`: obstacles, then gems, then the goal. */
  function SetupGrid(n: int, obstacles: seq<Pos>, gems: seq<Pos>, goal: Pos): (g: Grid)
    ensures Synced(g) && g.width == n && g.height == n
    ensures forall x, y :: GetTile(g, x, y) == LayoutTile(n, obstacles, gems, goal, x, y)
  {
    var g0 := NewGrid(n, n);
    var g1 := StampAll(g0, n, obstacles, Wall);
    var g2 := StampAll(g1, n, gems, Gem);
    var g3 := StampIfInRange(g2, n, goal, Goal);
    StampAllCells(g0, n, obstacles, Wall);
    StampAllCells(g1, n, gems, Gem);
    StampAllKeepsSynced(g0, n, obstacles, Wall);
    StampAllKeepsSynced(g1, n, gems, Gem);
    StampKeepsSynced(g2, n, goal, Goal);
    g3
  }

  /**
   * `_setup_level` with its three loops as written; the grid it builds is the one
   * `SetupGrid` describes, so every cell follows `LayoutTile`.
   */
  method SetupLevel(n: int, obstacles: seq<Pos>, gems: seq<Pos>, goal: Pos) returns (g: Grid)
    ensures Synced(g) && g.width == n && g.height == n
    ensures forall x, y :: GetTile(g, x, y) == LayoutTile(n, obstacles, gems, goal, x, y)
  {
    g := NewGrid(n, n);
    var i := 0;
    while i < |obstacles|
      invariant 0 <= i <= |obstacles| && Shaped(g)
      invariant StampAll(g, n, obstacles[i..], Wall) == StampAll(NewGrid(n, n), n, obstacles, Wall)
    {
      assert obstacles[i..][1..] == obstacles[i + 1..];
      g := StampIfInRange(g, n, obstacles[i], Wall);
      i := i + 1;
    }
    var after := g;
    i := 0;
    while i < |gems|
      invariant 0 <= i <= |gems| && Shaped(g)
      invariant StampAll(g, n, gems[i..], Gem) == StampAll(after, n, gems, Gem)
    {
      assert gems[i..][1..] == gems[i + 1..];
      g := StampIfInRange(g, n, gems[i], Gem);
      i := i + 1;
    }
    g := StampIfInRange(g, n, goal, Goal);
    assert g == SetupGrid(n, obstacles, gems, goal);
  }

  /**
   * `Level(start, goal, obstacles, gems, grid_size, hint, name)`: an empty name becomes
   * `"Level {n}x{n}"`, and the grid is `grid_size` square and stamped by `_setup_level`.
   */
  function NewLevel(
    start: Pos, goal: Pos, obstacles: seq<Pos>, gems: seq<Pos>, n: int, hint: string, name: string): (l: Level)
    ensures l.name == (if name == "" then DefaultName(n) else name) && l.name != ""
    ensures l.startPos == start && l.goalPos == goal && l.obstacles == obstacles && l.gems == gems
    ensures l.gridSize == n && l.hint == hint
    ensures Synced(l.grid) && l.grid.width == n && l.grid.height == n
    ensures forall x, y :: GetTile(l.grid, x, y) == LayoutTile(n, obstacles, gems, goal, x, y)
  {
    var named := if name == "" then DefaultName(n) else name;
    Level(start, goal, obstacles, gems, n, hint, named, SetupGrid(n, obstacles, gems, goal))
  }

  /** A level as its constructor leaves it: the grid and the name follow from the authored fields. */
  ghost predicate Built(l: Level) {
    l == NewLevel(l.startPos, l.goalPos, l.obstacles, l.gems, l.gridSize, l.hint, l.name)
  }

  /** Construction always yields a built level. */
  lemma NewLevelIsBuilt(
    start: Pos, goal: Pos, obstacles: seq<Pos>, gems: seq<Pos>, n: int, hint: string, name: string)
    ensures Built(NewLevel(start, goal, obstacles, gems, n, hint, name))
  {
  }

  /** The docstring example: an unnamed 6x6 level is called "Level 6x6". */
  lemma DefaultNameExample()
    ensures NewLevel(Pos(0, 0), Pos(5, 5), [], [], 6, "Go forward!", "").name == "Level 6x6"
  {
  }

  /**
   * `is_completed(player, grid)`: the player stands on the goal and has collected at
   * least as many gems as the level lists. The grid argument is not consulted.
   */
  predicate IsCompleted(l: Level, p: Player) {
    if Position(p) != l.goalPos then false
    else if |CollectedGems(p)| < |l.gems| then false
    else true
  }

  /** `get_total_gems` */
  function TotalGems(l: Level): nat {
    |l.gems|
  }

  /** `get_remaining_gems`: total minus collected; negative when more positions were collected than listed. */
  function RemainingGems(l: Level, p: Player): int {
    TotalGems(l) - |CollectedGems(p)|
  }

  /** Completion never holds away from the goal. */
  lemma IncompleteAwayFromGoal(l: Level, p: Player)
    requires Position(p) != l.goalPos
    ensures !IsCompleted(l, p)
  {
  }

  /** Completion is exactly: on the goal with nothing remaining by the level's own count. */
  lemma CompletedIffNoneRemaining(l: Level, p: Player)
    ensures IsCompleted(l, p) <==> Position(p) == l.goalPos && RemainingGems(l, p) <= 0
  {
  }

  /** A level whose start is its goal and which lists no gems is complete for a player just placed at the start. */
  lemma StartOnGoalWithoutGemsIsComplete(start: Pos, obstacles: seq<Pos>, n: int, hint: string, name: string)
    ensures var l := NewLevel(start, start, obstacles, [], n, hint, name);
      var p := NewPlayer(start.x, start.y, "north");
      p.Success? && IsCompleted(l, p.value)
  {
  }

  /**
   * The layout the original test builds (start (0, 0), goal (4, 4), a wall at (2, 2), a
   * gem at (1, 1), 5x5): one gem in total, and the level is complete exactly when the
   * player is at (4, 4) holding at least one gem.
   */
  lemma TestLevelCompletion(p: Player)
    ensures var l := NewLevel(Pos(0, 0), Pos(4, 4), [Pos(2, 2)], [Pos(1, 1)], 5, "Test level", "");
      && TotalGems(l) == 1
      && (IsCompleted(l, p) <==> Position(p) == Pos(4, 4) && |p.collected| >= 1)
      && IsWall(l.grid, 2, 2) && IsGem(l.grid, 1, 1) && IsGoal(l.grid, 4, 4)
  {
  }

  /** `is_valid_start_position`: in range and an EMPTY tile (not a wall, gem or goal). */
  predicate IsValidStartPosition(l: Level, x: int, y: int)
    requires Shaped(l.grid)
  {
    if !(0 <= x < l.gridSize && 0 <= y < l.gridSize) then false
    else GetTile(l.grid, x, y) == Empty
  }

  /**
   * On a constructed level a start position is valid exactly when it is in range and no
   * obstacle, gem or goal was authored there.
   */
  lemma ValidStartIffUnoccupied(
    start: Pos, goal: Pos, obstacles: seq<Pos>, gems: seq<Pos>, n: int, hint: string, name: string,
    x: int, y: int)
    ensures var l := NewLevel(start, goal, obstacles, gems, n, hint, name);
      IsValidStartPosition(l, x, y) <==>
        InRange(n, Pos(x, y)) && Pos(x, y) != goal && Pos(x, y) !in gems && Pos(x, y) !in obstacles
  {
  }

  /**
   * Setting the goal over a gem leaves the position in the grid's gem list: the tile
   * reads GOAL, no cell holds a gem, yet the grid still counts one gem.
   */
  lemma GoalOverGemStaysCounted()
    ensures var l := NewLevel(Pos(0, 0), Pos(1, 1), [], [Pos(1, 1)], 3, "", "");
      && IsGoal(l.grid, 1, 1)
      && (forall x, y :: !IsGem(l.grid, x, y))
      && GemCount(l.grid) == 1
  {
    var g0 := NewGrid(3, 3);
    var g2 := StampAll(StampAll(g0, 3, [], Wall), 3, [Pos(1, 1)], Gem);
    assert g2 == SetTile(g0, 1, 1, Gem);
    SetTileLists(g0, 1, 1, Gem);
    assert g2.gems == [Pos(1, 1)];
    SetTileLists(g2, 1, 1, Goal);
  }

  /** `to_dict` / `from_dict`'s input: `name` and `hint` are optional keys there. */
  datatype LevelDict = LevelDict(
    name: Option<string>, startPos: Pos, goalPos: Pos, obstacles: seq<Pos>, gems: seq<Pos>,
    gridSize: int, hint: Option<string>)

  /** `to_dict`: every authored field, with both optional keys present. */
  function ToDict(l: Level): (d: LevelDict)
    ensures d.name == Some(l.name) && d.hint == Some(l.hint)
  {
    LevelDict(Some(l.name), l.startPos, l.goalPos, l.obstacles, l.gems, l.gridSize, Some(l.hint))
  }

  /** `from_dict`: a missing `hint` or `name` reads as the empty string, then the constructor runs. */
  function FromDict(d: LevelDict): (l: Level)
    ensures l.startPos == d.startPos && l.goalPos == d.goalPos && l.gridSize == d.gridSize
    ensures l.obstacles == d.obstacles && l.gems == d.gems
    ensures d.hint.None? ==> l.hint == ""
    ensures d.hint.Some? ==> l.hint == d.hint.value
    ensures d.name.None? ==> l.name == DefaultName(d.gridSize)
    ensures d.name.Some? && d.name.value != "" ==> l.name == d.name.value
    ensures l.grid == SetupGrid(d.gridSize, d.obstacles, d.gems, d.goalPos) && Built(l)
  {
    NewLevelIsBuilt(d.startPos, d.goalPos, d.obstacles, d.gems, d.gridSize, d.hint.GetOr(""), d.name.GetOr(""));
    NewLevel(d.startPos, d.goalPos, d.obstacles, d.gems, d.gridSize, d.hint.GetOr(""), d.name.GetOr(""))
  }

  /**
   * Saving and reloading a constructed level gives back the same level: start, goal,
   * obstacles, gems, size, hint, name and the stamped grid.
   */
  lemma DictRoundTrip(l: Level)
    requires Built(l)
    ensures FromDict(ToDict(l)) == l
  {
  }
}
