/** The logic of the `Game` class in `src/core/game.py`: state fields, level loading, script runs and completion. */
module Games {
  import opened Coords
  import opened Wrappers
  import G = Grids
  import P = Players
  import L = Levels
  import V = Vetting
  import S = Sandbox

  /** `GameState` */
  datatype GameState = Menu | Playing | LevelComplete | GameOver | Paused

  /** `GRID_SIZE`: the side of the grid a new game starts with. */
  const GridSize := 10

  /** The logic fields of `Game`; the window, clock, renderer and `running` flag are not modelled. */
  datatype Game = Game(
    state: GameState, currentLevel: Option<L.Level>, levelIndex: int,
    grid: G.Grid, player: P.Player, animationQueue: seq<string>, animating: bool)

  /** The player every level starts with: at `(x, y)`, facing north, nothing collected, no steps. */
  function FreshPlayer(x: int, y: int): (p: P.Player)
    ensures P.NewPlayer(x, y, "north") == Success(p)
  {
    P.Player(x, y, P.North, [], 0)
  }

  /**
   * `Game.__init__`: in MENU with no level, index 0, an empty 10x10 grid, the player at
   * the origin facing north, and no animation queued.
   */
  function NewGame(): (g: Game)
    ensures g.state == Menu && g.currentLevel.None? && g.levelIndex == 0
    ensures g.animationQueue == [] && !g.animating
    ensures G.Synced(g.grid) && g.grid.width == GridSize && g.grid.height == GridSize
    ensures forall x, y :: G.InBounds(g.grid, x, y) ==> G.GetTile(g.grid, x, y) == G.Empty
    ensures P.NewPlayer(0, 0, "north") == Success(g.player)
  {
    Game(Menu, None, 0, G.NewGrid(GridSize, GridSize), FreshPlayer(0, 0), [], false)
  }

  /**
   * `check_level_completion`: with a level loaded and complete, the state becomes
   * LEVEL_COMPLETE and the index advances by one; otherwise nothing changes.
   */
  function CheckLevelCompletion(g: Game): (r: Game)
    ensures r == g || r == g.(state := LevelComplete, levelIndex := g.levelIndex + 1)
    ensures r.levelIndex > g.levelIndex <==> g.currentLevel.Some? && L.IsCompleted(g.currentLevel.value, g.player)
  {
    if g.currentLevel.Some? && L.IsCompleted(g.currentLevel.value, g.player) then
      g.(state := LevelComplete, levelIndex := g.levelIndex + 1)
    else g
  }

  /** The logic part of `update`: completion is checked only while PLAYING (the animation step does nothing). */
  function Update(g: Game): (r: Game)
    ensures g.state != Playing ==> r == g
    ensures r.state == Playing || r.state == g.state || r.state == LevelComplete
    ensures g.state == Playing ==> r == CheckLevelCompletion(g)
    ensures g.state == Playing ==>
      (r.state == LevelComplete <==> g.currentLevel.Some? && L.IsCompleted(g.currentLevel.value, g.player))
  {
    if g.state == Playing then CheckLevelCompletion(g) else g
  }

  /** A second update changes nothing: after completing, the game has left PLAYING. */
  lemma UpdateIdempotent(g: Game)
    ensures Update(Update(g)) == Update(g)
  {
  }

  /** `load_level_from_data`'s stamping: `set_tile` at every listed position, relying on its own bounds check. */
  function StampUnchecked(g: G.Grid, ps: seq<Pos>, t: G.Tile): (r: G.Grid)
    requires G.Shaped(g)
    ensures G.Shaped(r) && r.width == g.width && r.height == g.height
    decreases |ps|
  {
    if |ps| == 0 then g else StampUnchecked(G.SetTile(g, ps[0].x, ps[0].y, t), ps[1..], t)
  }

  /** On a square grid of side n, `set_tile`'s own bounds check drops exactly what the level's range check drops. */
  lemma {:induction false} StampUncheckedIsStampAll(g: G.Grid, n: int, ps: seq<Pos>, t: G.Tile)
    requires G.Shaped(g) && g.width == n && g.height == n
    ensures StampUnchecked(g, ps, t) == L.StampAll(g, n, ps, t)
    decreases |ps|
  {
    if |ps| > 0 {
      assert G.SetTile(g, ps[0].x, ps[0].y, t) == L.StampIfInRange(g, n, ps[0], t);
      StampUncheckedIsStampAll(G.SetTile(g, ps[0].x, ps[0].y, t), n, ps[1..], t);
    }
  }

  /** The game's own grid for a level: a fresh square grid stamped obstacles, gems, then the goal. */
  function LoadedGrid(l: L.Level): (r: G.Grid)
    ensures r == L.SetupGrid(l.gridSize, l.obstacles, l.gems, l.goalPos)
  {
    var n := l.gridSize;
    var g0 := G.NewGrid(n, n);
    var g1 := StampUnchecked(g0, l.obstacles, G.Wall);
    var g2 := StampUnchecked(g1, l.gems, G.Gem);
    StampUncheckedIsStampAll(g0, n, l.obstacles, G.Wall);
    StampUncheckedIsStampAll(g1, n, l.gems, G.Gem);
    assert G.SetTile(g2, l.goalPos.x, l.goalPos.y, G.Goal) == L.StampIfInRange(g2, n, l.goalPos, G.Goal);
    G.SetTile(g2, l.goalPos.x, l.goalPos.y, G.Goal)
  }

  /**
   * `load_level_from_data`: the level becomes current, the grid is rebuilt from it, the
   * player starts afresh at the start facing north, the state is PLAYING and the index 0.
   * The animation queue is left alone. It always reports success.
   */
  function LoadLevelFromData(g: Game, l: L.Level): (r: (Game, bool))
    ensures r.1
    ensures r.0.state == Playing && r.0.currentLevel == Some(l) && r.0.levelIndex == 0
    ensures P.NewPlayer(l.startPos.x, l.startPos.y, "north") == Success(r.0.player)
    ensures r.0.animationQueue == g.animationQueue && r.0.animating == g.animating
    ensures G.Synced(r.0.grid)
    ensures forall x, y :: G.GetTile(r.0.grid, x, y) == L.LayoutTile(l.gridSize, l.obstacles, l.gems, l.goalPos, x, y)
  {
    var loaded := Game(Playing, Some(l), 0, LoadedGrid(l), FreshPlayer(l.startPos.x, l.startPos.y), g.animationQueue, g.animating);
    (loaded, true)
  }

  /** After loading, the game's grid is exactly the grid the level built for itself. */
  lemma LoadedGridIsLevelGrid(g: Game, l: L.Level)
    requires L.Built(l)
    ensures LoadLevelFromData(g, l).0.grid == l.grid
  {
  }

  /** A level whose start is its goal and which lists no gems completes on the first update after loading. */
  lemma StartOnGoalCompletesAtOnce(g: Game, l: L.Level)
    requires l.startPos == l.goalPos && l.gems == []
    ensures var r := Update(LoadLevelFromData(g, l).0);
      r.state == LevelComplete && r.levelIndex == 1
  {
  }

  /** The built-in test level `load_level` uses: 10x10, start (0, 0), goal (9, 9), nothing else. */
  function TestLevel(): (l: L.Level)
    ensures l.startPos == Pos(0, 0) && l.goalPos == Pos(9, 9) && l.gems == [] && l.gridSize == 10
    ensures L.Built(l)
  {
    L.NewLevelIsBuilt(Pos(0, 0), Pos(9, 9), [], [], 10, "Move to the goal!", "");
    L.NewLevel(Pos(0, 0), Pos(9, 9), [], [], 10, "Move to the goal!", "")
  }

  /**
   * `load_level`, with the facing set to the direction NORTH: the test level becomes current,
   * the player is reset at its start, and the state is PLAYING. The grid, the index
   * and the queue are left alone; the index argument is not consulted. It always reports
   * success.
   */
  function LoadLevel(g: Game, index: int): (r: (Game, bool))
    ensures r.1 && r.0.state == Playing && r.0.currentLevel == Some(TestLevel())
    ensures r.0.player == P.Reset(g.player, 0, 0, "north").0
    ensures r.0 == g.(state := r.0.state, currentLevel := r.0.currentLevel, player := r.0.player)
  {
    var l := TestLevel();
    (g.(state := Playing, currentLevel := Some(l), player := FreshPlayer(l.startPos.x, l.startPos.y)), true)
  }

  /** `start_new_game`: index 0, then `load_level(0)`. */
  function StartNewGame(g: Game): (r: Game)
    ensures r.state == Playing && r.levelIndex == 0 && r.grid == g.grid
    ensures r.player == FreshPlayer(0, 0) && r.currentLevel == Some(TestLevel())
    ensures r.animationQueue == g.animationQueue && r.animating == g.animating
  {
    LoadLevel(g.(levelIndex := 0), 0).0
  }

  /** `next_level`: PLAYING if `load_level` reports success, GAME_OVER otherwise. */
  function NextLevel(g: Game): (r: Game)
    ensures r.levelIndex == g.levelIndex && r.grid == g.grid
    ensures r.state == Playing
    ensures r.player == FreshPlayer(0, 0) && r.currentLevel == Some(TestLevel())
    ensures r.animationQueue == g.animationQueue && r.animating == g.animating
  {
    var (loaded, ok) := LoadLevel(g, g.levelIndex);
    if ok then loaded.(state := Playing) else loaded.(state := GameOver)
  }

  /** Since `load_level` never fails, `next_level` never reaches GAME_OVER. */
  lemma NextLevelNeverGameOver(g: Game)
    ensures NextLevel(g).state == Playing
  {
  }

  /**
   * `load_level` does not rebuild the grid: after a new game the test level's goal (9, 9)
   * is not a GOAL tile, yet the level completes as soon as the player stands there.
   */
  lemma NewGameGoalNotOnGrid(steps: nat)
    ensures var g := StartNewGame(NewGame());
      && g.currentLevel.value.goalPos == Pos(9, 9)
      && !G.IsGoal(g.grid, 9, 9)
      && Update(g.(player := P.Player(9, 9, P.South, [], steps))).state == LevelComplete
  {
  }

  /**
   * `Game.execute_code`: code that fails vetting is refused before it runs and nothing
   * changes. Otherwise the run's effect on the player is kept; on success its actions are
   * appended to the queue in order and `animating` is set when the queue is non-empty; on
   * failure the executor's error text is returned and the queue is left alone.
   */
  function ExecuteCode(g: Game, parsed: Option<V.Node>, script: S.Script): (r: (Game, bool, string))
    requires G.Shaped(g.grid)
    ensures !V.ValidateCode(parsed) ==> r == (g, false, "Invalid code: contains forbidden operations")
    ensures r.1 <==> V.ValidateCode(parsed) && script.fault.None? && script.elapsed <= S.DefaultExecutor.timeout
    ensures r.1 ==> r.2 == "Code executed successfully"
    ensures r.1 ==> r.0.animationQueue == g.animationQueue + S.MutatorTrace(script.calls)
    ensures r.1 ==> (r.0.animating <==> g.animating || |r.0.animationQueue| > 0)
    ensures !r.1 ==> r.0.animationQueue == g.animationQueue && r.0.animating == g.animating
    ensures V.ValidateCode(parsed) && script.fault.Some? ==> r.2 == script.fault.value
    ensures V.ValidateCode(parsed) && script.fault.None? && script.elapsed > S.DefaultExecutor.timeout ==>
      r.2 == S.TimeoutMessage(S.DefaultExecutor)
    ensures V.ValidateCode(parsed) ==> r.0.player == S.Run(S.Env(g.player, g.grid, []), script.calls).player
    ensures !V.ValidateCode(parsed) ==> r.0.player == g.player
    ensures r.0.grid == g.grid && r.0.state == g.state && r.0.levelIndex == g.levelIndex
    ensures r.0.currentLevel == g.currentLevel && r.0.player.collected == g.player.collected
  {
    if !V.ValidateCode(parsed) then
      (g, false, "Invalid code: contains forbidden operations")
    else
      var (result, player) := S.Execute(S.DefaultExecutor, g.player, g.grid, script);
      if result.success then
        var queue := g.animationQueue + result.actions;
        (g.(player := player, animationQueue := queue, animating := if |queue| > 0 then true else g.animating),
         true, "Code executed successfully")
      else
        (g.(player := player), false, result.error.value)
  }

  /** Running `move_forward()` queues exactly one "move_forward" and starts animating. */
  lemma MoveForwardQueued(g: Game, elapsed: nat)
    requires G.Shaped(g.grid) && g.animationQueue == [] && elapsed <= S.DefaultExecutor.timeout
    ensures var parsed := Some(V.Other([V.Other([V.Call(V.Name("move_forward"), [])])]));
      var r := ExecuteCode(g, parsed, S.Script([S.MoveForward], None, elapsed));
      r.1 && r.0.animationQueue == ["move_forward"] && r.0.animating
  {
    V.MoveForwardAccepted();
  }

  /**
   * Scripts never collect gems, so a loaded level that lists gems can never be completed
   * by running code: after any run the next update leaves the game PLAYING.
   */
  lemma GemLevelsCannotCompleteByScript(g: Game, l: L.Level, parsed: Option<V.Node>, script: S.Script)
    requires |l.gems| > 0
    ensures var loaded := LoadLevelFromData(g, l).0;
      var ran := ExecuteCode(loaded, parsed, script).0;
      Update(ran) == ran && ran.state == Playing
  {
  }

  /** The facing as `load_level` leaves it: either a direction, or the bare string it assigns. */
  datatype Heading = Facing(d: P.Direction) | Text(s: string)

  /** A player whose facing may be a bare string, as after `load_level` as written. */
  datatype LoosePlayer = LoosePlayer(x: int, y: int, heading: Heading, collected: seq<Pos>, steps: nat)

  function Loosen(p: P.Player): LoosePlayer {
    LoosePlayer(p.x, p.y, Facing(p.direction), p.collected, p.steps)
  }

  /** `move_forward` over a loose facing: a string equals no direction, so every branch is skipped, but the step still counts. */
  function LooseMoveForward(p: LoosePlayer): (r: LoosePlayer)
    ensures p.heading.Facing? ==> r == Loosen(P.MoveForward(P.Player(p.x, p.y, p.heading.d, p.collected, p.steps)).0)
    ensures p.heading.Text? ==> r == p.(steps := p.steps + 1)
  {
    match p.heading
    case Facing(d) =>
      var moved := P.MoveForward(P.Player(p.x, p.y, d, p.collected, p.steps)).0;
      Loosen(moved)
    case Text(_) => p.(steps := p.steps + 1)
  }

  /** `turn_left` over a loose facing: the lookup table has no string key, so it raises `KeyError`. */
  function LooseTurnLeft(p: LoosePlayer): (r: Result<LoosePlayer, string>)
    ensures r.Failure? <==> p.heading.Text?
    ensures p.heading.Facing? ==> r == Success(Loosen(P.TurnLeft(P.Player(p.x, p.y, p.heading.d, p.collected, p.steps))))
  {
    match p.heading
    case Facing(d) => Success(Loosen(P.TurnLeft(P.Player(p.x, p.y, d, p.collected, p.steps))))
    case Text(s) => Failure("KeyError")
  }

  /** The player `load_level` leaves as written: at the test level's start, facing the string "north". */
  function LoadLevelPlayerAsWritten(p: P.Player): (r: LoosePlayer)
    ensures r.heading == Text("north") && r.collected == [] && r.steps == 0
    ensures Pos(r.x, r.y) == TestLevel().startPos
  {
    LoosePlayer(0, 0, Text("north"), [], 0)
  }

  /**
   * As written, after `load_level` the robot cannot move or turn: `move_forward` leaves it
   * at the origin and `turn_left` raises. With the direction NORTH, as corrected, the same
   * calls move it to (0, -1) and face it WEST.
   */
  lemma LoadLevelStrandsPlayer(g: Game)
    ensures var q := LoadLevelPlayerAsWritten(g.player);
      && Pos(LooseMoveForward(q).x, LooseMoveForward(q).y) == Pos(0, 0)
      && LooseTurnLeft(q).Failure?
    ensures var p := LoadLevel(g, 0).0.player;
      && P.Position(P.MoveForward(p).0) == Pos(0, -1)
      && P.TurnLeft(p).direction == P.West
  {
  }
}
