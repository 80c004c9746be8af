# Grid-world rules and script vetting of a Python coding game

This project models the core of a small educational game. In the game, a player
writes a Python script that drives a robot around a tile grid to collect gems and
reach a goal. The model is written in Dafny and proves properties of that core:

- **The world.** The model covers the grid and its tiles (`src/core/grid.py`) and
  the robot (`src/core/player.py`). Anything outside the grid reads as a wall. The
  grid keeps side lists of gem and goal positions. The robot has a position, one of
  four facings, the gems it has collected and a step counter.
- **Levels.** `src/core/level.py` describes a level. Obstacles, then gems, then the
  goal are stamped onto a fresh square grid. It defines the win test, gem counts,
  start-position validity, the default name and the save/load dictionary.
- **Script vetting.** `src/core/code_executor.py` accepts a parsed script exactly
  when every node of its syntax tree passes the local checks. It also defines the
  eleven wrapper functions a script can call, and the result record of one run.
- **The game.** In `src/core/game.py`, the `Game` class has its state fields, the
  MENU/PLAYING/LEVEL_COMPLETE transitions, level loading and the wrapper that vets
  a script, runs it and queues its actions for animation.
- **The preview.** `visualize_level` in `preview_levels.py` prints an ASCII
  picture of a level file, with its legend and statistics.

Modules:

| file | module |
|---|---|
| `wrappers.dfy` | `Wrappers`: `Option`, `Result` |
| `lists.dfy` | `Lists`: duplicate-free append and first-occurrence removal |
| `coords.dfy` | `Coords`: positions and Manhattan distance |
| `text.dfy` | `Text`: decimal rendering, `c * n`, `" ".join`, `"\n".join` |
| `grid.dfy` | `Grids` |
| `player.dfy` | `Players` |
| `level.dfy` | `Levels` |
| `vetting.dfy` | `Vetting` |
| `sandbox.dfy` | `Sandbox` |
| `game.dfy` | `Games` |
| `preview.dfy` | `Preview` |

Everything is a pure function over immutable datatypes. A Python method that
mutates an object becomes a function from the old record to the new one. A
Python exception becomes a `Result` or `Option` error value.

### Where the documentation and the code differ

The code is followed in each case:

- The grid's comments say the gem and goal lists are kept in sync with the tiles.
  `set_tile` keeps them in sync only one way. Writing GEM never removes the
  position from `goals`, and writing GOAL never removes it from `gems`. The model
  proves the one-way invariant `Grids.Synced`: every GEM cell is listed in `gems`,
  every GOAL cell is listed in `goals`, and neither list has duplicates.
  `Levels.GoalOverGemStaysCounted` shows a level whose gem count is 1 although no
  cell holds a gem.
- The docstring of `validate_code` says `os.system('rm -rf /')` is blocked. The
  walk only rejects method calls named `__import__`, `exec` or `eval`, so that
  script is accepted (`Vetting.AttributeCallAcceptedBareOpenRejected`).
- `load_level` does not rebuild the game's grid. After a new game, the test level's
  goal at (9, 9) is not a GOAL tile, yet the level completes when the robot stands
  there (`Games.NewGameGoalNotOnGrid`).
- No code path calls `Player.collect_gem` or `Grid.collect_gem` while a script
  runs. A script therefore never collects a gem, and a level that lists gems cannot
  be completed by running code (`Sandbox.ScriptsNeverCollect`,
  `Games.GemLevelsCannotCompleteByScript`).

## Model

| member | source | states |
|---|---|---|
| Grids.NewGrid | src/core/grid.py:118-135 | a fresh width-by-height grid is all EMPTY with empty gem and goal lists, and satisfies the one-way sync invariant |
| Grids.GetTile | src/core/grid.py:160-166 | every coordinate outside 0..width-1 by 0..height-1 reads as WALL; inside, the stored tile is returned |
| Grids.OutOfBoundsIsWall | src/core/grid.py:248-314 | outside the grid `is_wall` holds and `is_gem`/`is_goal` do not |
| Grids.SetTile | src/core/grid.py:199-220 | out of bounds nothing changes (tiles, gems, goals); in bounds the cell reads the new tile and every other cell is unchanged |
| Grids.SetTileLists | src/core/grid.py:206-220 | GEM adds the position to `gems` only, GOAL adds it to `goals` only, EMPTY/WALL removes it from both; each list grows by at most one |
| Grids.SetTileKeepsSynced | src/core/grid.py:199-220 | every `set_tile` keeps both lists duplicate-free and in bounds, every GEM cell in `gems` and every GOAL cell in `goals` |
| Grids.CollectGem | src/core/grid.py:343-348 | returns true iff the cell was GEM; then the cell is EMPTY, no other cell changes and the gem count drops by exactly one; otherwise nothing changes |
| Grids.CollectGemTwice | src/core/grid.py:337-339 | a second collection at the same cell returns false and changes nothing |
| Grids.Clear | src/core/grid.py:395-399 | same dimensions, every cell EMPTY, both lists empty: exactly a fresh grid |
| Grids.GetNeighbors | src/core/grid.py:428-447 | exactly the in-bounds cardinal neighbours, each one step away, at most four, in strictly increasing south/east/north/west order |
| Grids.MiddleNeighbors | src/core/grid.py:422-425 | (5, 5) on a 10x10 grid has neighbours (5,6), (6,5), (5,4), (4,5) |
| Grids.CornerNeighbors | src/core/grid.py:426-427 | the corner (0, 0) has exactly the neighbours (0,1) and (1,0), in that order |
| Lists.AppendIfAbsent | src/core/grid.py:208-209 | the value is present afterwards; the list is unchanged if it was already there, else it grows by exactly that value at the end; no duplicates are introduced |
| Lists.RemoveFirst | src/core/grid.py:217-220 | `list.remove` after a membership test: an absent value leaves the list as is, a present one shortens it by one; on a duplicate-free list the value is gone and all others stay |
| Players.ParseDirection | src/core/player.py:30-45 | `Direction(text)` succeeds exactly for "north", "east", "south", "west" and gives the member with that value |
| Players.ParseDirectionValue | src/core/player.py:42-45 | every direction's value parses back to that direction |
| Players.LeftOf | src/core/player.py:224-229 | the left-turn table moves three quarters round the clockwise cycle N, E, S, W |
| Players.RightOf | src/core/player.py:259-264 | the right-turn table moves one quarter round the cycle |
| Players.Opposite | src/core/player.py:292-299 | the turn-around table moves half way round the cycle |
| Players.NewPlayer | src/core/player.py:101-114 | a valid direction string gives a robot at (x, y) with that facing, nothing collected and 0 steps; any other string fails with the invalid-direction error |
| Players.MoveForward | src/core/player.py:180-197 | the robot moves one cell without any check: NORTH to y - 1, EAST to x + 1, SOUTH to y + 1, WEST to x - 1; it returns its new position, keeps facing and gems, and gains one step |
| Players.OriginNorthMovesUp | src/core/player.py:184-185 | a robot made at (0, 0) facing north moves to (0, -1) in one step |
| Players.TurnLeft | src/core/player.py:224-233 | the facing follows the left-turn table, the position and gems stay, one step |
| Players.TurnRight | src/core/player.py:259-268 | the facing follows the right-turn table, the position and gems stay, one step |
| Players.TurnAround | src/core/player.py:292-301 | the facing follows the turn-around table, the position and gems stay, one step |
| Players.NextPositionIsMoveTarget | src/core/player.py:442-453 | `get_next_position` is exactly where `move_forward` goes, and the look-ahead changes nothing |
| Players.CollectGem | src/core/player.py:332-333 | the gem is recorded afterwards; the collection grows by at most one, keeps every earlier entry, stays duplicate-free; position, facing and steps are unchanged |
| Players.CollectTwiceGrowsByAtMostOne | src/core/player.py:325-326 | collecting the same position twice is the same as collecting it once |
| Players.Reset | src/core/player.py:406-416 | a valid direction gives a fresh robot at (x, y) as the constructor would; an invalid one fails after the position has already been assigned, leaving facing, gems and steps as they were |
| Players.TurnLeftTimesFacing | src/core/player.py:224-233 | n left turns keep the position and gems, add n steps and move the facing 3n quarters round the cycle |
| Players.TurnRightTimesFacing | src/core/player.py:259-268 | n right turns keep the position and gems, add n steps and move the facing n quarters round the cycle |
| Players.FourLeftTurnsRestore | src/core/player.py:224-233 | four left turns give back the same robot with four more steps |
| Players.FourRightTurnsRestore | src/core/player.py:259-268 | four right turns give back the same robot with four more steps |
| Players.RightInvertsLeft | src/core/player.py:224-264 | the right-turn table inverts the left-turn table and vice versa |
| Players.TurnAroundIsTwoLeftsForOneStep | src/core/player.py:292-301 | turning around faces where two left turns face, for one step instead of two |
| Players.TurnAroundTwice | src/core/player.py:292-301 | turning around twice restores the facing at a cost of two steps |
| Players.MoveTurnAroundMoveReturns | src/core/player.py:180-197 | move, turn around, move brings the robot back to its start, facing the other way, after three steps |
| Text.NatToString | src/core/level.py:118 | the decimal text of a natural is non-empty, all digits, without leading zero, and reads back as the same number |
| Text.IntToString | src/core/level.py:118 | negative numbers get a leading '-' before the digits of the magnitude; the text reads back as the number |
| Text.Repeat | preview_levels.py:71 | `c * n` is `n` copies of `c`, and empty for `n <= 0` |
| Text.Spaced | preview_levels.py:73 | `" ".join` of single characters puts the characters at even offsets with single spaces between, 2n - 1 characters long |
| Text.SplitJoin | preview_levels.py:101 | splitting the `"\n".join` of one or more break-free lines at its line breaks gives back exactly those lines |
| Text.JoinSplit | preview_levels.py:101 | joining the pieces of any string split at its line breaks gives back the string |
| Levels.StampAllCells | src/core/level.py:150-158 | after a stamping loop a cell holds the stamped tile exactly when it is in range and listed, and is otherwise as before |
| Levels.StampAllKeepsSynced | src/core/level.py:150-158 | a stamping loop keeps the grid's one-way sync invariant |
| Levels.SetupGrid | src/core/level.py:122-165 | the level grid is n by n, synced, and every cell equals the reference layout: goal over gem over obstacle, out-of-range entries dropped |
| Levels.SetupLevel | src/core/level.py:150-165 | the three loops as written build a synced n-by-n grid whose every cell equals the reference layout |
| Levels.NewLevel | src/core/level.py:110-125 | an empty name becomes "Level {n}x{n}" and the name is never empty; the fields are kept; the grid follows the reference layout |
| Levels.DefaultNameExample | src/core/level.py:118 | an unnamed 6x6 level is called "Level 6x6" |
| Levels.IncompleteAwayFromGoal | src/core/level.py:192-193 | completion is false whenever the robot is not on the goal position |
| Levels.CompletedIffNoneRemaining | src/core/level.py:192-239 | completion holds exactly when the robot is on the goal and the remaining-gem count is at most zero |
| Levels.StartOnGoalWithoutGemsIsComplete | src/core/level.py:192-201 | a level whose start is its goal and lists no gems is complete for a robot just made at the start |
| Levels.TestLevelCompletion | src/core/level.py:192-201 | the 5x5 test layout has one gem and is complete exactly at (4, 4) with at least one gem collected; its wall, gem and goal tiles are in place |
| Levels.ValidStartIffUnoccupied | src/core/level.py:268-274 | a start is valid exactly when it is in range and no obstacle, gem or goal was authored there |
| Levels.GoalOverGemStaysCounted | src/core/level.py:160-165 | a goal stamped over a gem reads GOAL, no cell is a gem, yet the gem count is 1 |
| Levels.FromDict | src/core/level.py:357-365 | the authored fields are taken over; a missing `hint` reads as empty and a missing name becomes the default name; the grid is stamped from the fields, as the constructor does |
| Levels.DictRoundTrip | src/core/level.py:317-365 | loading a saved level reproduces start, goal, obstacles, gems, size, hint, name and grid |
| Vetting.ValidateIffEveryNodeOk | src/core/code_executor.py:252-285 | the recursive walk accepts a tree exactly when every node anywhere in it passes the local checks |
| Vetting.Validate | src/core/code_executor.py:252-285 | the early-exit walk returns true exactly when every node passes the local checks |
| Vetting.ValidateCode | src/core/code_executor.py:204-213 | unparsable text is rejected; a parsed tree is accepted exactly when every node passes the local checks |
| Vetting.ImportAnywhereRejects | src/core/code_executor.py:252-253 | an Import or ImportFrom node anywhere rejects the tree |
| Vetting.DeniedNameAnywhereRejects | src/core/code_executor.py:274-275 | a Name `__import__`, `exec`, `eval`, `open` or `file` anywhere rejects the tree, called or not |
| Vetting.AcceptedBareCallsAreAllowed | src/core/code_executor.py:258-261 | in an accepted tree every call by bare name is to one of the 11 game functions or 10 builtins |
| Vetting.AcceptedMethodCallsAreNotDenied | src/core/code_executor.py:264-269 | in an accepted tree no method call is named `__import__`, `exec` or `eval` |
| Vetting.ImportRejected | src/core/code_executor.py:197-200 | `import os` is rejected |
| Vetting.MovesAccepted | src/core/code_executor.py:197-200 | `move_forward()` followed by `turn_right()` is accepted |
| Vetting.MoveForwardAccepted | src/core/code_executor.py:197-200 | a lone `move_forward()` is accepted |
| Vetting.AttributeCallAcceptedBareOpenRejected | src/core/code_executor.py:264-275 | `os.system('rm -rf /')` passes the walk; `x = open` is rejected |
| Sandbox.CapabilitiesAreTheAllowList | src/core/code_executor.py:131-148 | the wrappers bound in the namespace are exactly the game functions vetting allows |
| Sandbox.Act | src/core/code_executor.py:432-472 | each mutating wrapper applies the robot's own `move_forward`, `turn_left`, `turn_right` or `turn_around`; the other wrappers leave the robot alone |
| Sandbox.Step | src/core/code_executor.py:432-472 | a mutating wrapper appends its own name to the shared action list and costs one step; no wrapper changes the grid or the collected gems |
| Sandbox.Call | src/core/code_executor.py:432-552 | mutators log their own name and delegate to the robot (the turns leave the facing the robot's own turn gives); `move_forward` returns the cell ahead; `is_clear` is "the tile ahead is not WALL"; `is_gem`, `is_goal` and `at_goal` read the tile under the robot; `get_position`, `get_direction` (the lowercase value, which parses back) and `get_gem_count` (the grid's gem list length) report state; sensors and getters change nothing; no wrapper changes the grid |
| Sandbox.AtGoalIsIsGoal | src/core/code_executor.py:522 | `at_goal` answers exactly as `is_goal` |
| Sandbox.MoveIgnoresWalls | src/core/code_executor.py:444-445 | when `is_clear` is false the cell ahead is a wall, and `move_forward` still puts the robot there |
| Sandbox.MutatorTrace | src/core/code_executor.py:444-472 | the logged names are at most one per call and each is one of the four mutator names; a single call logs its own name exactly when it is a mutator |
| Sandbox.MutatorTraceConcat | src/core/code_executor.py:444-472 | the trace of two call sequences in turn is the first trace followed by the second, so the trace is the mutators' names in call order |
| Sandbox.Run | src/core/code_executor.py:425-472 | a run appends exactly its mutator trace to the action list, never changes the grid or the collected gems, and costs one step per mutator |
| Sandbox.RunConcat | src/core/code_executor.py:425-472 | running two call sequences in turn is running their concatenation |
| Sandbox.Execute | src/core/code_executor.py:334-379 | success iff no exception and elapsed within the budget; on success the fresh per-run actions and the time, on failure no actions and the exception text or the timeout message; the robot keeps every call's effect |
| Sandbox.MoveForwardScript | src/core/code_executor.py:325-330 | the script `move_forward()` succeeds with the actions ["move_forward"] and the robot on the cell ahead |
| Sandbox.ScriptsNeverCollect | src/core/code_executor.py:425-552 | whatever a script does, the robot's collected gems are unchanged |
| Games.FreshPlayer | src/core/player.py:101-114 | the robot a level starts with is the constructor's robot facing "north" |
| Games.NewGame | src/core/game.py:153-196 | a new game is in MENU with no level, index 0, an empty synced 10x10 grid, the robot at the origin facing north, an empty queue and not animating |
| Games.CheckLevelCompletion | src/core/game.py:389-394 | the index advances exactly when a level is loaded and complete, and then the state is LEVEL_COMPLETE; otherwise nothing changes |
| Games.Update | src/core/game.py:336-341 | in PLAYING the completion check runs, so the game becomes LEVEL_COMPLETE exactly when a loaded level is complete; outside PLAYING nothing changes; the state can only move from PLAYING to LEVEL_COMPLETE |
| Games.UpdateIdempotent | src/core/game.py:336-394 | a second update changes nothing |
| Games.StampUncheckedIsStampAll | src/core/game.py:487-494 | on an n-by-n grid, relying on `set_tile`'s bounds check stamps the same grid as the level's explicit range check |
| Games.LoadedGrid | src/core/game.py:486-497 | the grid the game builds for a level equals the level's own stamped grid |
| Games.LoadLevelFromData | src/core/game.py:483-508 | the level becomes current, the grid follows the reference layout, the robot starts afresh at the start facing north, PLAYING, index 0, the queue untouched, success |
| Games.LoadedGridIsLevelGrid | src/core/game.py:483-497 | after loading, the game's grid equals the level's grid |
| Games.StartOnGoalCompletesAtOnce | src/core/game.py:389-394 | a level whose start is its goal and lists no gems completes on the first update after loading, with index 1 |
| Games.TestLevel | src/core/game.py:549-556 | the built-in level is 10x10 with start (0, 0), goal (9, 9), no gems, and is a constructed level |
| Games.LoadLevel | src/core/game.py:549-569 | (corrected facing) the test level becomes current, the robot is reset at (0, 0) facing north, PLAYING, success; grid, index and queue untouched |
| Games.StartNewGame | src/core/game.py:661-664 | (corrected facing, through `Games.LoadLevel`) a new game is PLAYING at index 0 with the test level current and the robot reset to (0, 0) facing NORTH with no gems and no steps; the grid and the animation queue are unchanged |
| Games.NextLevel | src/core/game.py:688-693 | (corrected facing, through `Games.LoadLevel`) advancing ends in PLAYING with the test level current and the robot reset to (0, 0) facing NORTH with no gems and no steps; the index, the grid and the animation queue are unchanged |
| Games.NextLevelNeverGameOver | src/core/game.py:688-693 | since loading never fails, advancing always ends in PLAYING |
| Games.NewGameGoalNotOnGrid | src/core/game.py:549-569 | after a new game the goal (9, 9) is not a GOAL tile, yet the level completes when the robot stands there |
| Games.ExecuteCode | src/core/game.py:613-642 | rejected code changes nothing and returns the forbidden-operations message; success iff vetting passes, no exception and within budget; on success the actions are appended in order and `animating` is set when the queue is non-empty; on failure the queue is untouched and the error text returned: the exception text, or the executor's timeout message when the run overran; after vetting the robot is left as the run left it, and rejected code leaves it untouched |
| Games.MoveForwardQueued | src/core/game.py:607-611 | running `move_forward()` on an empty queue succeeds, queues ["move_forward"] and starts animating |
| Games.GemLevelsCannotCompleteByScript | src/core/game.py:483-642 | after loading a level with gems, no script run lets the next update complete it |
| Games.LooseMoveForward | src/core/player.py:184-197 | with an enum facing it is `move_forward`; with a string facing every branch is skipped and only the step counter grows |
| Games.LooseTurnLeft | src/core/player.py:224-233 | with an enum facing it is `turn_left`; with a string facing the table lookup fails |
| Games.LoadLevelPlayerAsWritten | src/core/game.py:559-564 | as written, `load_level` leaves the robot at the start with the string "north" as its facing, no gems and 0 steps |
| Games.LoadLevelStrandsPlayer | src/core/game.py:559-564 | as written the robot neither moves nor turns after `load_level`; with the enum NORTH it moves to (0, -1) and turns to face WEST |
| Preview.Blank | preview_levels.py:43 | the initial picture is n by n, all '.' |
| Preview.Put | preview_levels.py:55-61 | one write changes exactly the one cell |
| Preview.PutAllCells | preview_levels.py:46-52 | after a placement loop a cell holds the mark exactly when listed, and is otherwise as before |
| Preview.Cells | preview_levels.py:43-61 | each cell shows the start ('S' if it is also the goal, else 'P'), else the goal 'G', else a gem '*', else an obstacle '#', else '.' |
| Preview.Border | preview_levels.py:71 | the border is "  +", then 2n - 1 dashes, then "+" |
| Preview.Row | preview_levels.py:73 | a row is 2n + 3 characters, framed by "  \|" and "\|", with cell i at offset 3 + 2i and a single space between neighbouring cells |
| Preview.RowsMatchBorder | preview_levels.py:71-74 | every row is exactly as wide as the border |
| Preview.LegendLines | preview_levels.py:77-86 | the "S = Start & Goal" line is listed exactly when the start is the goal |
| Preview.StatsLines | preview_levels.py:88-94 | the obstacle and gem counts are raw list lengths and the distance line carries the Manhattan distance |
| Preview.Lines | preview_levels.py:64-101 | n + 23 lines, one more when start is goal; the rule and name first; border, n rows, border; line n + 13 is the extra legend line exactly when start is goal; then the distance line |
| Preview.VisualizeLevel | preview_levels.py:31-101 | missing data gives exactly "❌ Level {n} not found"; otherwise the output starts with the rule of 60 '=' |
| Preview.LinesAreOneLine | preview_levels.py:64-101 | with a break-free name and hint, none of the joined lines holds a line break: no drawn cell, count or distance introduces one |
| Preview.VisualizeLevelSplits | preview_levels.py:64-101 | the printed picture splits back into exactly the model's lines, n + 23 of them (one more when the start is the goal) |
| Preview.DemoPicture | preview_levels.py:43-74 | a 3x3 demo level draws `P . *` / `. # .` / `. . G` |
| Preview.DemoStats | preview_levels.py:88-94 | the demo's gem count includes an off-grid gem, and its distance is 4 |

## Left out

- Parsing and executing Python (`ast.parse`, `exec`) is not modelled. A parse is an
  `Option` of an abstract syntax tree, and a run is the sequence of wrapper calls the
  script made, plus the text of the exception that ended it, if any.
- Wall-clock time is not modelled. The elapsed time and the budget are abstract
  naturals, and `MAX_EXECUTION_TIME = 5.0` appears as 5000 milliseconds with the
  printed form "5.0".
- The builtins table is not modelled. `restricted_builtins` is read from the host's
  `__builtins__`, whose form depends on the interpreter. Only the vetting allow-list
  of builtin names is modelled.
- Scripts that change `_actions` directly are not modelled. The namespace exposes
  the action list under `_actions`, and vetting allows `_actions.append(...)`, so a
  script can add arbitrary strings to the queue. The model's action list only
  receives what the wrappers log.
- Exception texts are abstract. A failing run carries its exception text as given,
  and `LooseTurnLeft` fails with "KeyError" rather than Python's `str(e)`.
- Sandbox.Execute: the `execution_time` float is an abstract natural.
- Games.StartNewGame: it is built on the corrected `Games.LoadLevel`. The program as
  written leaves the robot facing the string "north" (see "## Findings").
- Games.NextLevel: like `Games.StartNewGame`, it is built on the corrected
  `Games.LoadLevel` rather than on the string-facing `load_level` as written.
- The `except` branches of `load_level_from_data` and `load_level` are not
  modelled: neither can be reached from the modelled operations, and the model
  reports success for both loads.
- Vetting.ValidateCode: Python's recursion limit is not modelled. `_validate_ast`
  recurses once per tree level, so a script that parses but nests deeper than the
  limit (a chain of about a thousand attribute accesses, say) raises
  `RecursionError`. `validate_code` does not catch it, and the outer `except` of
  `Game.execute_code` turns it into (False, "Execution error: ..."). The model has
  no depth bound and accepts such a tree when every node passes, so
  `Games.ExecuteCode` does not cover this outer `except` either.
- `visualize_level` has unguarded goal and start writes. Python's negative indices
  wrap, and indices past the end raise. The model requires the start and goal to be
  on the grid (`Preview.Drawable`) instead of modelling those writes.
- Parts of `Game` are not modelled: `run`, `handle_events`, `handle_keydown`,
  `render`, the placeholder `update_animations`, the PAUSED transitions (which have
  no code) and all pygame state.
- Other files are not modelled: rendering and sprites (`renderer.py`,
  `sprite_manager.py`, the sprite scripts), `animation.py` (floating-point easing and
  random particles), the Tk user interface, the JSON level loader and `config.py`
  (constants only).
- Plain getters (`get_position`, `get_direction`, `get_hint`, `get_collected_gems`,
  `get_step_count`) are field reads. They appear as `Players.Position`,
  `Players.CollectedGems`, `Players.StepCount` and the record fields, without rows
  of their own.

## Findings

| source | as written | input that shows it | evidently intended | confidence | as-written member | corrected member |
|---|---|---|---|---|---|---|
| src/core/game.py:559-564 | `load_level` assigns the string "north" to `player.direction` instead of `Direction.NORTH`. `move_forward` compares the facing with enum members only, so every branch is skipped and the robot stays put. `turn_left`/`turn_right`/`turn_around` look the string up in enum-keyed tables and raise `KeyError`. | `start_new_game()` (which calls `load_level(0)`), then a script `move_forward()`: the robot stays at (0, 0) while its step count becomes 1; `turn_left()` raises. | The robot faces `Direction.NORTH`, as `Player(...)` and `reset(...)` would set it, so `move_forward()` reaches (0, -1). | not executed | Games.LoadLevelStrandsPlayer | Games.LoadLevel |
