/** `visualize_level` in `preview_levels.py`: the ASCII picture and statistics of a level file. */
module Preview {
  import opened Coords
  import opened Wrappers
  import opened Text
  import L = Levels

  /** The level-file fields the preview reads; `hint` is an optional key there. */
  datatype LevelData = LevelData(
    name: string, gridSize: int, startPos: Pos, goalPos: Pos,
    obstacles: seq<Pos>, gems: seq<Pos>, hint: Option<string>)

  /** An n-by-n character grid, indexed `[y][x]`. */
  predicate Square(rows: seq<seq<char>>, n: int) {
    n >= 0 && |rows| == n && forall y :: 0 <= y < n ==> |rows[y]| == n
  }

  /** The grid before anything is placed: all floor. */
  function Blank(n: nat): (rows: seq<seq<char>>)
    ensures Square(rows, n)
    ensures forall x, y :: 0 <= x < n && 0 <= y < n ==> rows[y][x] == '.'
  {
    seq(n, _ => seq(n, _ => '.'))
  }

  /** `grid[p.y][p.x] = c` */
  function Put(rows: seq<seq<char>>, n: int, p: Pos, c: char): (r: seq<seq<char>>)
    requires Square(rows, n) && L.InRange(n, p)
    ensures Square(r, n)
    ensures forall x, y :: 0 <= x < n && 0 <= y < n ==> r[y][x] == (if Pos(x, y) == p then c else rows[y][x])
  {
    rows[p.y := rows[p.y][p.x := c]]
  }

  /** One placement loop: `c` at every in-range position of `ps`. */
  function PutAll(rows: seq<seq<char>>, n: int, ps: seq<Pos>, c: char): (r: seq<seq<char>>)
    requires Square(rows, n)
    ensures Square(r, n)
    decreases |ps|
  {
    if |ps| == 0 then rows
    else PutAll(if L.InRange(n, ps[0]) then Put(rows, n, ps[0], c) else rows, n, ps[1..], c)
  }

  /** After a placement loop a cell holds `c` exactly when it is listed, and is otherwise as it was. */
  lemma {:induction false} PutAllCells(rows: seq<seq<char>>, n: int, ps: seq<Pos>, c: char)
    requires Square(rows, n)
    ensures forall x, y :: 0 <= x < n && 0 <= y < n ==>
      PutAll(rows, n, ps, c)[y][x] == (if Pos(x, y) in ps then c else rows[y][x])
    decreases |ps|
  {
    if |ps| > 0 {
      var next := if L.InRange(n, ps[0]) then Put(rows, n, ps[0], c) else rows;
      PutAllCells(next, n, ps[1..], c);
      assert forall q :: q in ps <==> q == ps[0] || q in ps[1..];
    }
  }

  /** The unguarded goal and start writes need both positions on the grid. */
  predicate Drawable(d: LevelData) {
    L.InRange(d.gridSize, d.startPos) && L.InRange(d.gridSize, d.goalPos)
  }

  /**
   * The character each cell should show, independently of the placement order: the start
   * wins ('S' when it is also the goal, else 'P'), then the goal 'G', then a gem '*',
   * then an obstacle '#', else floor '.'.
   */
  function CellChar(d: LevelData, x: int, y: int): char {
    if Pos(x, y) == d.startPos then (if d.startPos == d.goalPos then 'S' else 'P')
    else if Pos(x, y) == d.goalPos then 'G'
    else if Pos(x, y) in d.gems then '*'
    else if Pos(x, y) in d.obstacles then '#'
    else '.'
  }

  /** The character grid: floor, obstacles, gems, the goal, then the start. */
  function Cells(d: LevelData): (rows: seq<seq<char>>)
    requires Drawable(d)
    ensures Square(rows, d.gridSize)
    ensures forall x, y :: 0 <= x < d.gridSize && 0 <= y < d.gridSize ==> rows[y][x] == CellChar(d, x, y)
  {
    var n := d.gridSize;
    var r0 := Blank(n);
    var r1 := PutAll(r0, n, d.obstacles, '#');
    var r2 := PutAll(r1, n, d.gems, '*');
    var r3 := Put(r2, n, d.goalPos, 'G');
    PutAllCells(r0, n, d.obstacles, '#');
    PutAllCells(r1, n, d.gems, '*');
    Put(r3, n, d.startPos, if d.startPos == d.goalPos then 'S' else 'P')
  }

  /** The top and bottom border: two spaces, '+', 2n - 1 dashes, '+'. */
  function Border(n: int): (s: string)
    requires n >= 1
    ensures |s| == 2 * n + 3
    ensures s[..3] == "  +" && s[|s| - 1] == '+'
    ensures forall i :: 3 <= i < 2 * n + 2 ==> s[i] == '-'
  {
    "  +" + Repeat('-', 2 * n - 1) + "+"
  }

  /** One grid row: two spaces, '|', the cells separated by single spaces, '|'. */
  function Row(cells: seq<char>): (s: string)
    requires |cells| >= 1
    ensures |s| == 2 * |cells| + 3
    ensures s[..3] == "  |" && s[|s| - 1] == '|'
    ensures forall i :: 0 <= i < |cells| ==> s[3 + 2 * i] == cells[i]
    ensures forall i :: 0 <= i < |cells| - 1 ==> s[4 + 2 * i] == ' '
  {
    "  |" + Spaced(cells) + "|"
  }

  /** Every row of an n-wide grid is exactly as wide as the border. */
  lemma RowsMatchBorder(cells: seq<char>, n: int)
    requires n >= 1 && |cells| == n
    ensures |Row(cells)| == |Border(n)|
  {
  }

  /** `"=" * 60` */
  const Rule := Repeat('=', 60)
  const LegendS := "  S = Start & Goal (same position)"

  function HeaderLines(name: string): (ls: seq<string>)
    ensures |ls| == 4 && ls[0] == Rule && ls[1] == "\U{1F4DA} " + name
  {
    [Rule, "\U{1F4DA} " + name, Rule, ""]
  }

  /** The bordered grid: border, one line per row, border, blank line. */
  function GridLines(rows: seq<seq<char>>, n: int): (ls: seq<string>)
    requires Square(rows, n) && n >= 1
    ensures |ls| == n + 3
    ensures ls[0] == Border(n) && ls[n + 1] == Border(n) && ls[n + 2] == ""
    ensures forall y :: 0 <= y < n ==> ls[y + 1] == Row(rows[y])
  {
    [Border(n)] + seq(n, y requires 0 <= y < n => Row(rows[y])) + [Border(n), ""]
  }

  /** The legend, with the extra 'S' line only when the start is the goal. */
  function LegendLines(sameSpot: bool): (ls: seq<string>)
    ensures |ls| == (if sameSpot then 8 else 7)
    ensures LegendS in ls <==> sameSpot
    ensures ls[6] == (if sameSpot then LegendS else "")
  {
    ["Legend:", "  P = Player Start", "  G = Goal", "  # = Wall/Obstacle", "  * = Gem", "  . = Empty floor"]
    + (if sameSpot then [LegendS] else []) + [""]
  }

  function DistanceLine(start: Pos, goal: Pos): string {
    "  Distance: " + IntToString(Manhattan(start, goal)) + " tiles (Manhattan)"
  }

  /** The statistics: size, raw obstacle and gem counts (out-of-range entries included), Manhattan distance. */
  function StatsLines(d: LevelData): (ls: seq<string>)
    ensures |ls| == 6
    ensures ls[2] == "  Obstacles: " + IntToString(|d.obstacles|) && ls[3] == "  Gems: " + IntToString(|d.gems|)
    ensures ls[4] == DistanceLine(d.startPos, d.goalPos)
  {
    [ "\U{1F4CA} Level Stats:",
      "  Grid Size: " + IntToString(d.gridSize) + "x" + IntToString(d.gridSize),
      "  Obstacles: " + IntToString(|d.obstacles|),
      "  Gems: " + IntToString(|d.gems|),
      DistanceLine(d.startPos, d.goalPos),
      "" ]
  }

  /** The hint, or "No hint available" only when the key is missing (an empty hint stays empty). */
  function HintLines(hint: Option<string>): (ls: seq<string>)
    ensures |ls| == 3
  {
    ["\U{1F4A1} Hint:", "  " + hint.GetOr("No hint available"), ""]
  }

  /** Where each section's lines land once the five sections are concatenated. */
  lemma SectionOffsets(
    header: seq<string>, grid: seq<string>, legend: seq<string>, stats: seq<string>, hint: seq<string>, n: nat)
    requires |header| == 4 && |grid| == n + 3 && |stats| == 6 && |hint| == 3
    requires |legend| == 7 || |legend| == 8
    ensures var ls := header + grid + (legend + stats + hint);
      && |ls| == n + 16 + |legend|
      && ls[0] == header[0] && ls[1] == header[1]
      && (forall y :: 4 <= y < n + 7 ==> ls[y] == grid[y - 4])
      && ls[n + 13] == legend[6]
      && ls[n + 11 + |legend|] == stats[4]
  {
  }

  /**
   * The lines `visualize_level` joins, in order: header, bordered grid, legend, stats, hint.
   * There are n + 23 of them, one more when the start is the goal; line n + 13 is the
   * extra legend line exactly when the start is the goal, and the distance line follows.
   */
  function Lines(d: LevelData): (ls: seq<string>)
    requires Drawable(d)
    ensures |ls| == d.gridSize + 23 + (if d.startPos == d.goalPos then 1 else 0)
    ensures ls[0] == Rule && ls[1] == "\U{1F4DA} " + d.name
    ensures ls[4] == Border(d.gridSize) && ls[d.gridSize + 5] == Border(d.gridSize)
    ensures forall y :: 0 <= y < d.gridSize ==> ls[y + 5] == Row(Cells(d)[y])
    ensures ls[d.gridSize + 13] == (if d.startPos == d.goalPos then LegendS else "")
    ensures ls[d.gridSize + (if d.startPos == d.goalPos then 19 else 18)] == DistanceLine(d.startPos, d.goalPos)
  {
    var n := d.gridSize;
    var header := HeaderLines(d.name);
    var grid := GridLines(Cells(d), n);
    var legend := LegendLines(d.startPos == d.goalPos);
    var stats := StatsLines(d);
    var hint := HintLines(d.hint);
    SectionOffsets(header, grid, legend, stats, hint, n);
    header + grid + (legend + stats + hint)
  }

  /**
   * `visualize_level`: missing level data gives the not-found message; otherwise the
   * lines joined by newlines, starting with the rule.
   */
  function VisualizeLevel(data: Option<LevelData>, levelNum: int): (s: string)
    requires data.Some? ==> Drawable(data.value)
    ensures data.None? ==> s == "\U{274C} Level " + IntToString(levelNum) + " not found"
    ensures data.Some? ==> Rule <= s
  {
    match data
    case None => "\U{274C} Level " + IntToString(levelNum) + " not found"
    case Some(d) => JoinLines(Lines(d))
  }

  /** No drawn cell is a line break, so every grid line is a single line. */
  lemma GridIsOneLine(d: LevelData)
    requires Drawable(d)
    ensures AllOneLine(GridLines(Cells(d), d.gridSize))
  {
    var n := d.gridSize;
    var rows := Cells(d);
    forall y | 0 <= y < n
      ensures OneLine(Row(rows[y]))
    {
      forall x | 0 <= x < n
        ensures rows[y][x] != '\n'
      {
        assert rows[y][x] == CellChar(d, x, y);
      }
      assert OneLine(rows[y]);
      assert OneLine(Spaced(rows[y]));
    }
    var body := seq(n, y requires 0 <= y < n => Row(rows[y]));
    assert AllOneLine(body);
    assert OneLine(Border(n));
    AllOneLineConcat([Border(n)], body);
    AllOneLineConcat([Border(n)] + body, [Border(n), ""]);
  }

  lemma HeaderIsOneLine(name: string)
    requires OneLine(name)
    ensures AllOneLine(HeaderLines(name))
  {
    assert OneLine(Rule);
  }

  lemma LegendIsOneLine(sameSpot: bool)
    ensures AllOneLine(LegendLines(sameSpot))
  {
  }

  lemma StatsAreOneLine(d: LevelData)
    ensures AllOneLine(StatsLines(d))
  {
    var stats := StatsLines(d);
    forall i | 0 <= i < 6
      ensures OneLine(stats[i])
    {
      if i == 1 {
        var size := IntToString(d.gridSize);
        OneLineConcat("  Grid Size: ", size);
        OneLineConcat("  Grid Size: " + size, "x");
        OneLineConcat("  Grid Size: " + size + "x", size);
      } else if i == 2 {
        OneLineConcat("  Obstacles: ", IntToString(|d.obstacles|));
      } else if i == 3 {
        OneLineConcat("  Gems: ", IntToString(|d.gems|));
      } else if i == 4 {
        var dist := IntToString(Manhattan(d.startPos, d.goalPos));
        OneLineConcat("  Distance: ", dist);
        OneLineConcat("  Distance: " + dist, " tiles (Manhattan)");
      }
    }
  }

  lemma HintIsOneLine(hint: Option<string>)
    requires hint.Some? ==> OneLine(hint.value)
    ensures AllOneLine(HintLines(hint))
  {
    OneLineConcat("  ", hint.GetOr("No hint available"));
  }

  /** With a one-line name and hint, none of the lines `visualize_level` joins breaks. */
  lemma LinesAreOneLine(d: LevelData)
    requires Drawable(d) && OneLine(d.name) && (d.hint.Some? ==> OneLine(d.hint.value))
    ensures AllOneLine(Lines(d))
  {
    var header := HeaderLines(d.name);
    var grid := GridLines(Cells(d), d.gridSize);
    var legend := LegendLines(d.startPos == d.goalPos);
    var stats := StatsLines(d);
    var hint := HintLines(d.hint);
    HeaderIsOneLine(d.name);
    GridIsOneLine(d);
    LegendIsOneLine(d.startPos == d.goalPos);
    StatsAreOneLine(d);
    HintIsOneLine(d.hint);
    AllOneLineConcat(legend, stats);
    AllOneLineConcat(legend + stats, hint);
    AllOneLineConcat(header, grid);
    AllOneLineConcat(header + grid, legend + stats + hint);
  }

  /**
   * The printed picture splits back, at its line breaks, into exactly the model's lines:
   * n + 23 of them (one more when the start is the goal), so nothing in the picture runs
   * two lines together or breaks one apart.
   */
  lemma VisualizeLevelSplits(d: LevelData, levelNum: int)
    requires Drawable(d) && OneLine(d.name) && (d.hint.Some? ==> OneLine(d.hint.value))
    ensures SplitLines(VisualizeLevel(Some(d), levelNum)) == Lines(d)
    ensures |SplitLines(VisualizeLevel(Some(d), levelNum))| == d.gridSize + 23 + (if d.startPos == d.goalPos then 1 else 0)
  {
    LinesAreOneLine(d);
    SplitJoin(Lines(d));
  }

  /** A 3x3 level with start (0, 0), goal (2, 2), an obstacle at (1, 1), a gem at (2, 0) and another gem off the grid. */
  function Demo(): LevelData {
    LevelData("Demo", 3, Pos(0, 0), Pos(2, 2), [Pos(1, 1)], [Pos(2, 0), Pos(7, 7)], None)
  }

  /** The demo level's picture is `P . *` / `. # .` / `. . G`. */
  lemma DemoPicture()
    ensures Cells(Demo()) == ["P.*", ".#.", "..G"]
    ensures Lines(Demo())[5] == "  |P . *|"
  {
    var c := Cells(Demo());
    assert c[0][0] == 'P' && c[0][1] == '.' && c[0][2] == '*';
    assert c[1][0] == '.' && c[1][1] == '#' && c[1][2] == '.';
    assert c[2][0] == '.' && c[2][1] == '.' && c[2][2] == 'G';
    assert c[0] == "P.*" && c[1] == ".#." && c[2] == "..G";
    assert Spaced("P.*") == "P . *";
  }

  /** The demo level's gem count includes the off-grid gem, and its distance is 4. */
  lemma DemoStats()
    ensures StatsLines(Demo())[3] == "  Gems: 2"
    ensures StatsLines(Demo())[4] == "  Distance: 4 tiles (Manhattan)"
  {
  }
}
