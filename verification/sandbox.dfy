/**
 * The capability surface a player script sees (`_create_execution_environment` in
 * `src/core/code_executor.py`) and the result record of one run (`execute_code`).
 * A script run is modelled as the sequence of capability calls it makes.
 */
module Sandbox {
  import opened Coords
  import opened Wrappers
  import G = Grids
  import P = Players
  import V = Vetting

  /** The eleven wrapper closures of the execution namespace. */
  datatype Capability =
    | MoveForward | TurnLeft | TurnRight | TurnAround
    | IsClear | IsGem | IsGoal | AtGoal
    | GetPosition | GetDirection | GetGemCount

  /** The name under which each wrapper is bound, which is also the action it logs. */
  function NameOf(c: Capability): string {
    match c
    case MoveForward => "move_forward"
    case TurnLeft => "turn_left"
    case TurnRight => "turn_right"
    case TurnAround => "turn_around"
    case IsClear => "is_clear"
    case IsGem => "is_gem"
    case IsGoal => "is_goal"
    case AtGoal => "at_goal"
    case GetPosition => "get_position"
    case GetDirection => "get_direction"
    case GetGemCount => "get_gem_count"
  }

  /** The wrappers bound in the namespace are exactly the game functions vetting lets a script call. */
  lemma CapabilitiesAreTheAllowList(s: string)
    ensures s in V.AllowedFunctions <==> exists c :: NameOf(c) == s
  {
    if s in V.AllowedFunctions {
      var c :=
        if s == "move_forward" then MoveForward
        else if s == "turn_left" then TurnLeft
        else if s == "turn_right" then TurnRight
        else if s == "turn_around" then TurnAround
        else if s == "is_clear" then IsClear
        else if s == "is_gem" then IsGem
        else if s == "is_goal" then IsGoal
        else if s == "at_goal" then AtGoal
        else if s == "get_position" then GetPosition
        else if s == "get_direction" then GetDirection
        else GetGemCount;
      assert NameOf(c) == s;
    }
  }

  /** The four wrappers that move or turn the player and log themselves. */
  predicate IsMutator(c: Capability) {
    c.MoveForward? || c.TurnLeft? || c.TurnRight? || c.TurnAround?
  }

  /** What a wrapper hands back to the script. */
  datatype Value = NoValue | Flag(b: bool) | Place(p: Pos) | Word(s: string) | Count(n: int)

  /** The state the closures capture: the player, the grid and the shared action list. */
  datatype Env = Env(player: P.Player, grid: G.Grid, actions: seq<string>)

  /** `is_clear`: the cell ahead is not a wall, so it is false when facing off the grid. */
  predicate PathClear(e: Env)
    requires G.Shaped(e.grid)
  {
    var ahead := P.NextPosition(e.player);
    !G.IsWall(e.grid, ahead.x, ahead.y)
  }

  /** A mutator's effect on the player: it delegates to the player's own operation. Other calls leave the player alone. */
  function Act(p: P.Player, c: Capability): (r: P.Player)
    ensures r.collected == p.collected
    ensures r.steps == p.steps + (if IsMutator(c) then 1 else 0)
    ensures c == MoveForward ==> r == P.MoveForward(p).0
    ensures c == TurnLeft ==> r == P.TurnLeft(p)
    ensures c == TurnRight ==> r == P.TurnRight(p)
    ensures c == TurnAround ==> r == P.TurnAround(p)
    ensures !IsMutator(c) ==> r == p
  {
    match c
    case MoveForward => P.MoveForward(p).0
    case TurnLeft => P.TurnLeft(p)
    case TurnRight => P.TurnRight(p)
    case TurnAround => P.TurnAround(p)
    case _ => p
  }

  /** What one call leaves behind for the rest of the run: a mutator logs its name; nothing touches the grid. */
  function Step(e: Env, c: Capability): (r: Env)
    ensures r.grid == e.grid && r.player.collected == e.player.collected
    ensures r.actions == e.actions + (if IsMutator(c) then [NameOf(c)] else [])
    ensures r.player.steps == e.player.steps + (if IsMutator(c) then 1 else 0)
    ensures !IsMutator(c) ==> r == e
  {
    if IsMutator(c) then Env(Act(e.player, c), e.grid, e.actions + [NameOf(c)]) else e
  }

  /**
   * One wrapper call. Mutators log their own name and delegate to the player; sensor and
   * info wrappers change nothing. No wrapper touches the grid.
   */
  function Call(e: Env, c: Capability): (r: (Env, Value))
    requires G.Shaped(e.grid)
    ensures r.0.grid == e.grid
    ensures IsMutator(c) ==> r.0.actions == e.actions + [NameOf(c)]
    ensures !IsMutator(c) ==> r.0 == e
    ensures IsMutator(c) ==> r.0.player.collected == e.player.collected && r.0.player.steps == e.player.steps + 1
    ensures c == MoveForward ==> r.1 == Place(P.NextPosition(e.player)) && P.Position(r.0.player) == P.NextPosition(e.player)
    ensures (c == TurnLeft || c == TurnRight || c == TurnAround) ==> P.Position(r.0.player) == P.Position(e.player)
    ensures c == MoveForward ==> r.0.player == P.MoveForward(e.player).0
    ensures c == TurnLeft ==> r.0.player == P.TurnLeft(e.player) && r.1 == NoValue
    ensures c == TurnRight ==> r.0.player == P.TurnRight(e.player) && r.1 == NoValue
    ensures c == TurnAround ==> r.0.player == P.TurnAround(e.player) && r.1 == NoValue
    ensures c == IsClear ==>
      r.1 == Flag(G.GetTile(e.grid, P.NextPosition(e.player).x, P.NextPosition(e.player).y) != G.Wall)
    ensures c == IsGem ==> r.1 == Flag(G.GetTile(e.grid, e.player.x, e.player.y) == G.Gem)
    ensures (c == IsGoal || c == AtGoal) ==> r.1 == Flag(G.GetTile(e.grid, e.player.x, e.player.y) == G.Goal)
    ensures c == GetPosition ==> r.1 == Place(Pos(e.player.x, e.player.y))
    ensures c == GetDirection ==>
      r.1 == Word(P.DirectionValue(e.player.direction)) && P.ParseDirection(r.1.s) == Some(e.player.direction)
    ensures c == GetGemCount ==> r.1 == Count(|e.grid.gems|)
  {
    P.NextPositionIsMoveTarget(e.player);
    P.ParseDirectionValue(e.player.direction);
    var value := match c {
      case MoveForward => Place(P.NextPosition(e.player))
      case TurnLeft => NoValue
      case TurnRight => NoValue
      case TurnAround => NoValue
      case IsClear => Flag(PathClear(e))
      case IsGem => Flag(G.IsGem(e.grid, e.player.x, e.player.y))
      case IsGoal => Flag(G.IsGoal(e.grid, e.player.x, e.player.y))
      case AtGoal => Flag(G.IsGoal(e.grid, e.player.x, e.player.y))
      case GetPosition => Place(P.Position(e.player))
      case GetDirection => Word(P.DirectionValue(e.player.direction))
      case GetGemCount => Count(G.GemCount(e.grid))
    };
    (Step(e, c), value)
  }

  /** `at_goal` is an alias of `is_goal`. */
  lemma AtGoalIsIsGoal(e: Env)
    requires G.Shaped(e.grid)
    ensures Call(e, AtGoal) == Call(e, IsGoal)
  {
  }

  /**
   * `move_forward` checks neither walls nor bounds: even when `is_clear` says the path is
   * blocked, the player ends up on the cell ahead.
   */
  lemma MoveIgnoresWalls(e: Env)
    requires G.Shaped(e.grid) && !Call(e, IsClear).1.b
    ensures var ahead := P.NextPosition(e.player);
      && G.IsWall(e.grid, ahead.x, ahead.y)
      && P.Position(Call(e, MoveForward).0.player) == ahead
  {
  }

  /** The names the mutating calls of a run log, in call order. */
  function MutatorTrace(calls: seq<Capability>): (t: seq<string>)
    ensures |t| <= |calls|
    ensures forall i :: 0 <= i < |t| ==> t[i] in {"move_forward", "turn_left", "turn_right", "turn_around"}
    ensures |calls| == 1 ==> t == (if IsMutator(calls[0]) then [NameOf(calls[0])] else [])
  {
    if |calls| == 0 then []
    else (if IsMutator(calls[0]) then [NameOf(calls[0])] else []) + MutatorTrace(calls[1..])
  }

  /**
   * The trace of a concatenation is the concatenation of the traces; with the one-call
   * case above this pins the trace down as the mutators' names in call order.
   */
  lemma {:induction false} MutatorTraceConcat(a: seq<Capability>, b: seq<Capability>)
    ensures MutatorTrace(a + b) == MutatorTrace(a) + MutatorTrace(b)
    decreases |a|
  {
    if |a| == 0 {
      assert a + b == b;
    } else {
      assert (a + b)[0] == a[0];
      assert (a + b)[1..] == a[1..] + b;
      MutatorTraceConcat(a[1..], b);
    }
  }

  /**
   * The calls of a script in order. The action list grows by exactly the mutator trace,
   * the grid is never changed, no gem is ever collected, and each mutator costs one step.
   */
  function Run(e: Env, calls: seq<Capability>): (r: Env)
    requires G.Shaped(e.grid)
    ensures r.grid == e.grid
    ensures r.actions == e.actions + MutatorTrace(calls)
    ensures r.player.collected == e.player.collected
    ensures r.player.steps == e.player.steps + |MutatorTrace(calls)|
    decreases |calls|
  {
    if |calls| == 0 then e
    else
      var next := Step(e, calls[0]);
      var logged: seq<string> := if IsMutator(calls[0]) then [NameOf(calls[0])] else [];
      var r := Run(next, calls[1..]);
      assert MutatorTrace(calls) == logged + MutatorTrace(calls[1..]);
      assert e.actions + MutatorTrace(calls) == e.actions + logged + MutatorTrace(calls[1..]);
      r
  }

  /** Running two call sequences one after the other is running their concatenation. */
  lemma {:induction false} RunConcat(e: Env, a: seq<Capability>, b: seq<Capability>)
    requires G.Shaped(e.grid)
    ensures Run(e, a + b) == Run(Run(e, a), b)
    decreases |a|
  {
    if |a| > 0 {
      assert (a + b)[0] == a[0];
      assert (a + b)[1..] == a[1..] + b;
      RunConcat(Step(e, a[0]), a[1..], b);
    } else {
      assert a + b == b;
    }
  }

  /**
   * A script as far as its result record depends on it: the calls it made, the text of the
   * exception that ended it (if any), and the elapsed time in abstract units.
   */
  datatype Script = Script(calls: seq<Capability>, fault: Option<string>, elapsed: nat)

  /** The dictionary `execute_code` returns; `execution_time` is present only on success and `error` only on failure. */
  datatype ExecResult = ExecResult(success: bool, actions: seq<string>, executionTime: Option<nat>, error: Option<string>)

  /** The executor's time budget and the way that budget prints in the timeout message. */
  datatype Executor = Executor(timeout: nat, timeoutText: string)

  /** `MAX_EXECUTION_TIME = 5.0` seconds, in milliseconds. */
  const DefaultExecutor := Executor(5000, "5.0")

  function TimeoutMessage(x: Executor): string {
    "Code execution timeout (" + x.timeoutText + "s)"
  }

  /**
   * `execute_code`: the calls run against a fresh action list; an exception yields its
   * text, an over-budget run yields the timeout message, and both return no actions.
   * Otherwise the run succeeds with its actions and elapsed time. The player keeps the
   * effects of every call made, whatever the outcome; the grid is never changed.
   */
  function Execute(x: Executor, player: P.Player, grid: G.Grid, s: Script): (r: (ExecResult, P.Player))
    requires G.Shaped(grid)
    ensures r.0.success <==> s.fault.None? && s.elapsed <= x.timeout
    ensures r.0.success ==> r.0.actions == MutatorTrace(s.calls) && r.0.executionTime == Some(s.elapsed) && r.0.error.None?
    ensures !r.0.success ==> r.0.actions == [] && r.0.executionTime.None? && r.0.error.Some?
    ensures s.fault.Some? ==> r.0.error == s.fault
    ensures s.fault.None? && s.elapsed > x.timeout ==> r.0.error == Some(TimeoutMessage(x))
    ensures r.1 == Run(Env(player, grid, []), s.calls).player
  {
    var after := Run(Env(player, grid, []), s.calls);
    if s.fault.Some? then
      (ExecResult(false, [], None, s.fault), after.player)
    else if s.elapsed > x.timeout then
      (ExecResult(false, [], None, Some(TimeoutMessage(x))), after.player)
    else
      (ExecResult(true, after.actions, Some(s.elapsed), None), after.player)
  }

  /** Running `move_forward()` succeeds with the single action "move_forward"; the player has moved one cell. */
  lemma MoveForwardScript(player: P.Player, grid: G.Grid, elapsed: nat)
    requires G.Shaped(grid) && elapsed <= DefaultExecutor.timeout
    ensures var r := Execute(DefaultExecutor, player, grid, Script([MoveForward], None, elapsed));
      && r.0 == ExecResult(true, ["move_forward"], Some(elapsed), None)
      && P.Position(r.1) == P.NextPosition(player)
  {
  }

  /** Scripts never collect gems: whatever a run does, the player's collected list is as before. */
  lemma ScriptsNeverCollect(x: Executor, player: P.Player, grid: G.Grid, s: Script)
    requires G.Shaped(grid)
    ensures Execute(x, player, grid, s).1.collected == player.collected
  {
  }
}
