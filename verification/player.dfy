/** The robot of `src/core/player.py`: a position, a facing, the collected gems and a step counter. */
module Players {
  import opened Coords
  import opened Lists
  import opened Wrappers

  /** `Direction`; y grows downwards, so NORTH is up the screen. */
  datatype Direction = North | East | South | West

  /** The string value of each `Direction` member. */
  function DirectionValue(d: Direction): string {
    match d
    case North => "north"
    case East => "east"
    case South => "south"
    case West => "west"
  }

  /** `Direction(text)`: the member whose value is `text`, or nothing (Python raises `ValueError`). */
  function ParseDirection(text: string): (r: Option<Direction>)
    ensures r.Some? <==> text == "north" || text == "east" || text == "south" || text == "west"
    ensures r.Some? ==> DirectionValue(r.value) == text
  {
    if text == "north" then Some(North)
    else if text == "east" then Some(East)
    else if text == "south" then Some(South)
    else if text == "west" then Some(West)
    else None
  }

  /** Every direction's value parses back to that direction. */
  lemma ParseDirectionValue(d: Direction)
    ensures ParseDirection(DirectionValue(d)) == Some(d)
  {
  }

  /** Quarter turns clockwise from NORTH: an independent account of the four facings as a cycle of length 4. */
  function Ordinal(d: Direction): nat {
    match d
    case North => 0
    case East => 1
    case South => 2
    case West => 3
  }

  /** The `turn_left` table: a quarter turn counter-clockwise. */
  function LeftOf(d: Direction): (r: Direction)
    ensures Ordinal(r) == (Ordinal(d) + 3) % 4
  {
    match d
    case North => West
    case East => North
    case South => East
    case West => South
  }

  /** The `turn_right` table: a quarter turn clockwise. */
  function RightOf(d: Direction): (r: Direction)
    ensures Ordinal(r) == (Ordinal(d) + 1) % 4
  {
    match d
    case North => East
    case East => South
    case South => West
    case West => North
  }

  /** The `turn_around` table: a half turn. */
  function Opposite(d: Direction): (r: Direction)
    ensures Ordinal(r) == (Ordinal(d) + 2) % 4
  {
    match d
    case North => South
    case East => West
    case South => North
    case West => East
  }

  /** `Player`. The step counter starts at 0 and only ever grows. */
  datatype Player = Player(x: int, y: int, direction: Direction, collected: seq<Pos>, steps: nat)

  /** The error `Direction(text)` raises for a string that is not one of the four values. */
  datatype DirectionError = InvalidDirection(text: string)

  /**
   * `Player(x, y, direction)`: at `(x, y)` with the parsed facing, nothing collected, no
   * steps; a string that is not a direction value raises instead.
   */
  function NewPlayer(x: int, y: int, direction: string): (r: Result<Player, DirectionError>)
    ensures r.Success? <==> ParseDirection(direction).Some?
    ensures r.Success? ==>
      r.value.x == x && r.value.y == y && DirectionValue(r.value.direction) == direction &&
      r.value.collected == [] && r.value.steps == 0
    ensures r.Failure? ==> r.error == InvalidDirection(direction)
  {
    match ParseDirection(direction)
    case Some(d) => Success(Player(x, y, d, [], 0))
    case None => Failure(InvalidDirection(direction))
  }

  /** `get_position` */
  function Position(p: Player): Pos {
    Pos(p.x, p.y)
  }

  /**
   * `move_forward`: one cell along the facing (NORTH is y - 1, EAST x + 1, SOUTH y + 1,
   * WEST x - 1) with no bounds or wall check. The step counter grows by one, and the new
   * position is returned.
   */
  function MoveForward(p: Player): (r: (Player, Pos))
    ensures r.1 == Position(r.0)
    ensures p.direction == North ==> r.1 == Pos(p.x, p.y - 1)
    ensures p.direction == East ==> r.1 == Pos(p.x + 1, p.y)
    ensures p.direction == South ==> r.1 == Pos(p.x, p.y + 1)
    ensures p.direction == West ==> r.1 == Pos(p.x - 1, p.y)
    ensures Manhattan(Position(p), r.1) == 1
    ensures r.0.direction == p.direction && r.0.collected == p.collected
    ensures r.0.steps == p.steps + 1
  {
    var moved := match p.direction
      case North => p.(y := p.y - 1)
      case East => p.(x := p.x + 1)
      case South => p.(y := p.y + 1)
      case West => p.(x := p.x - 1);
    var moved := moved.(steps := p.steps + 1);
    (moved, Position(moved))
  }

  /** A robot made at the origin facing north moves up the screen to `(0, -1)`. */
  lemma OriginNorthMovesUp()
    ensures var p := NewPlayer(0, 0, "north");
      p.Success? && MoveForward(p.value).1 == Pos(0, -1) && MoveForward(p.value).0.steps == 1
  {
  }

  /** `turn_left`: the facing turns a quarter counter-clockwise; the position stays; one step. */
  function TurnLeft(p: Player): (r: Player)
    ensures Position(r) == Position(p) && r.collected == p.collected
    ensures r.direction == LeftOf(p.direction) && r.steps == p.steps + 1
  {
    p.(direction := LeftOf(p.direction), steps := p.steps + 1)
  }

  /** `turn_right`: the facing turns a quarter clockwise; the position stays; one step. */
  function TurnRight(p: Player): (r: Player)
    ensures Position(r) == Position(p) && r.collected == p.collected
    ensures r.direction == RightOf(p.direction) && r.steps == p.steps + 1
  {
    p.(direction := RightOf(p.direction), steps := p.steps + 1)
  }

  /** `turn_around`: the facing turns half way round; the position stays; a single step. */
  function TurnAround(p: Player): (r: Player)
    ensures Position(r) == Position(p) && r.collected == p.collected
    ensures r.direction == Opposite(p.direction) && r.steps == p.steps + 1
  {
    p.(direction := Opposite(p.direction), steps := p.steps + 1)
  }

  /**
   * `get_next_position`: where `move_forward` would go, computed without moving; the
   * same if/elif chain as `move_forward`, written out separately as in the source.
   */
  function NextPosition(p: Player): Pos {
    match p.direction
    case North => Pos(p.x, p.y - 1)
    case East => Pos(p.x + 1, p.y)
    case South => Pos(p.x, p.y + 1)
    case West => Pos(p.x - 1, p.y)
  }

  /** The look-ahead and the real move agree on every player, and the look-ahead leaves the player as it was. */
  lemma NextPositionIsMoveTarget(p: Player)
    ensures NextPosition(p) == MoveForward(p).1
    ensures MoveForward(p).0 == p.(x := NextPosition(p).x, y := NextPosition(p).y, steps := p.steps + 1)
  {
  }

  /** `collect_gem`: record a gem position unless already recorded; the step counter does not change. */
  function CollectGem(p: Player, gem: Pos): (r: Player)
    ensures gem in r.collected
    ensures forall q :: q in r.collected <==> q in p.collected || q == gem
    ensures |p.collected| <= |r.collected| <= |p.collected| + 1
    ensures NoDup(p.collected) ==> NoDup(r.collected)
    ensures Position(r) == Position(p) && r.direction == p.direction && r.steps == p.steps
  {
    p.(collected := AppendIfAbsent(p.collected, gem))
  }

  /** Collecting the same position twice grows the collection by at most one. */
  lemma CollectTwiceGrowsByAtMostOne(p: Player, gem: Pos)
    ensures CollectGem(CollectGem(p, gem), gem) == CollectGem(p, gem)
    ensures |CollectGem(CollectGem(p, gem), gem).collected| <= |p.collected| + 1
  {
  }

  /** `get_collected_gems` */
  function CollectedGems(p: Player): seq<Pos> {
    p.collected
  }

  /** `get_step_count` */
  function StepCount(p: Player): nat {
    p.steps
  }

  /**
   * `reset(x, y, direction)`. The position is assigned before the direction string is
   * converted, so a bad string raises with the position already moved and the facing,
   * collection and counter left as they were. Otherwise the player is at `(x, y)` with
   * the parsed facing, nothing collected and no steps. The result pairs the player as
   * left by the call with the error raised, if any.
   */
  function Reset(p: Player, x: int, y: int, direction: string): (r: (Player, Option<DirectionError>))
    ensures r.1.Some? <==> ParseDirection(direction).None?
    ensures r.1.None? ==> NewPlayer(x, y, direction) == Success(r.0)
    ensures r.1.Some? ==> r.0 == p.(x := x, y := y) && r.1.value == InvalidDirection(direction)
  {
    var moved := p.(x := x, y := y);
    match ParseDirection(direction)
    case Some(d) => (moved.(direction := d, collected := [], steps := 0), None)
    case None => (moved, Some(InvalidDirection(direction)))
  }

  /** n quarter turns to the left, as a script of n `turn_left` calls would make. */
  function TurnLeftTimes(p: Player, n: nat): Player
    decreases n
  {
    if n == 0 then p else TurnLeftTimes(TurnLeft(p), n - 1)
  }

  /** n quarter turns to the right. */
  function TurnRightTimes(p: Player, n: nat): Player
    decreases n
  {
    if n == 0 then p else TurnRightTimes(TurnRight(p), n - 1)
  }

  /** Reducing a summand modulo 4 first does not change the sum modulo 4. */
  lemma ModAbsorbs(a: nat, b: nat)
    ensures (a % 4 + b) % 4 == (a + b) % 4
  {
    var q := a / 4;
    assert a == 4 * q + a % 4;
    assert a + b == 4 * q + (a % 4 + b);
  }

  /** Repeated left turns never move the robot; each costs one step and advances the cycle by three quarters. */
  lemma {:induction false} TurnLeftTimesFacing(p: Player, n: nat)
    ensures var q := TurnLeftTimes(p, n);
      && Position(q) == Position(p) && q.collected == p.collected
      && q.steps == p.steps + n
      && Ordinal(q.direction) == (Ordinal(p.direction) + 3 * n) % 4
    decreases n
  {
    if n > 0 {
      var l := TurnLeft(p);
      TurnLeftTimesFacing(l, n - 1);
      var a := Ordinal(p.direction) + 3;
      var b := 3 * (n - 1);
      assert Ordinal(l.direction) == a % 4;
      ModAbsorbs(a, b);
      assert a + b == Ordinal(p.direction) + 3 * n;
    }
  }

  /** Repeated right turns never move the robot; each costs one step and advances the cycle by one quarter. */
  lemma {:induction false} TurnRightTimesFacing(p: Player, n: nat)
    ensures var q := TurnRightTimes(p, n);
      && Position(q) == Position(p) && q.collected == p.collected
      && q.steps == p.steps + n
      && Ordinal(q.direction) == (Ordinal(p.direction) + n) % 4
    decreases n
  {
    if n > 0 {
      var r := TurnRight(p);
      TurnRightTimesFacing(r, n - 1);
      var a := Ordinal(p.direction) + 1;
      assert Ordinal(r.direction) == a % 4;
      ModAbsorbs(a, n - 1);
    }
  }

  /** Two directions with the same place in the cycle are the same direction. */
  lemma OrdinalInjective(a: Direction, b: Direction)
    requires Ordinal(a) == Ordinal(b)
    ensures a == b
  {
  }

  /** Four left turns restore the facing and the position and cost four steps. */
  lemma FourLeftTurnsRestore(p: Player)
    ensures TurnLeftTimes(p, 4) == p.(steps := p.steps + 4)
  {
    var q := TurnLeftTimes(p, 4);
    TurnLeftTimesFacing(p, 4);
    assert Ordinal(q.direction) == (Ordinal(p.direction) + 12) % 4 == Ordinal(p.direction);
    OrdinalInjective(q.direction, p.direction);
  }

  /** Four right turns restore the facing and the position and cost four steps. */
  lemma FourRightTurnsRestore(p: Player)
    ensures TurnRightTimes(p, 4) == p.(steps := p.steps + 4)
  {
    var q := TurnRightTimes(p, 4);
    TurnRightTimesFacing(p, 4);
    assert Ordinal(q.direction) == (Ordinal(p.direction) + 4) % 4 == Ordinal(p.direction);
    OrdinalInjective(q.direction, p.direction);
  }

  /** The right-turn table undoes the left-turn table, and the left-turn table undoes the right-turn table. */
  lemma RightInvertsLeft(d: Direction)
    ensures RightOf(LeftOf(d)) == d && LeftOf(RightOf(d)) == d
  {
  }

  /** A turn-around faces the way two left turns do, but costs one step where they cost two. */
  lemma TurnAroundIsTwoLeftsForOneStep(p: Player)
    ensures TurnAround(p).direction == TurnLeft(TurnLeft(p)).direction
    ensures TurnAround(p).steps == p.steps + 1 && TurnLeft(TurnLeft(p)).steps == p.steps + 2
  {
  }

  /** Turning around twice restores the facing at a cost of two steps. */
  lemma TurnAroundTwice(p: Player)
    ensures TurnAround(TurnAround(p)) == p.(steps := p.steps + 2)
  {
  }

  /** Moving, turning around and moving again brings the robot back where it started, facing the other way. */
  lemma MoveTurnAroundMoveReturns(p: Player)
    ensures var q := MoveForward(TurnAround(MoveForward(p).0)).0;
      Position(q) == Position(p) && q.direction == Opposite(p.direction) && q.steps == p.steps + 3
  {
  }
}
