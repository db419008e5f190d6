/**
 * The experiment generation's maze (python3, pypy3, rust/src): the grid is
 * given as one string of height * width characters read row by row, the
 * reward looks at the goal first and treats leaving the grid like entering
 * a wall ("dead"), and every action other than 0, 1, 2 moves right.
 */
module ExperimentMaze {
  import opened Wrappers
  import Discretize
  import Environments
  import ConfigMaze

  type Pos = ConfigMaze.Pos

  /** res is the height-by-width grid whose cell (h, w) is character h * width + w of maze. */
  ghost predicate RowMajor(res: seq<seq<char>>, height: nat, width: nat, maze: string) {
    |res| == height && forall h :: 0 <= h < height ==> RowAt(res[h], h, width, maze)
  }

  /** row is row h of the grid: its cell w is character h * width + w of maze. */
  ghost predicate RowAt(row: seq<char>, h: nat, width: nat, maze: string) {
    |row| == width && forall w :: 0 <= w < width ==> h * width + w < |maze| && row[w] == maze[h * width + w]
  }

  /** The rows of a grid, concatenated. */
  function Flatten(rows: seq<seq<char>>): seq<char> {
    if |rows| == 0 then [] else Flatten(rows[..|rows| - 1]) + rows[|rows| - 1]
  }

  lemma MulSucc(h: nat, width: nat)
    ensures (h + 1) * width == h * width + width
  {
  }

  /**
   * `_parse_maze` / `parse_maze`: the nested loops over rows and columns.
   * The source fails (IndexError, index panic) as soon as an index passes
   * the end of the string, which happens exactly when the string is shorter
   * than height * width: then the result is None.
   */
  method ParseMaze(height: nat, width: nat, maze: string) returns (res: Option<seq<seq<char>>>)
    ensures res.Some? <==> height * width <= |maze|
    ensures res.Some? ==> RowMajor(res.value, height, width, maze)
  {
    var rows: seq<seq<char>> := [];
    var h := 0;
    var base := 0;
    while h < height
      invariant 0 <= h <= height
      invariant base == h * width && base <= |maze|
      invariant RowMajor(rows, h, width, maze)
    {
      var row: seq<char> := [];
      var w := 0;
      while w < width
        invariant 0 <= w <= width
        invariant base + w <= |maze|
        invariant |row| == w && forall j :: 0 <= j < w ==> row[j] == maze[base + j]
      {
        var s := base + w;
        if s >= |maze| {
          Discretize.MixedRadixStep(h, w, height, width);
          return None;
        }
        row := row + [maze[s]];
        w := w + 1;
      }
      rows := rows + [row];
      MulSucc(h, width);
      h := h + 1;
      base := base + width;
    }
    res := Some(rows);
  }

  /** Dropping the last row of a row-major grid leaves the row-major grid of one row fewer. */
  lemma {:induction false} RowMajorPrefix(res: seq<seq<char>>, height: nat, width: nat, maze: string)
    requires RowMajor(res, height, width, maze) && height > 0
    ensures RowMajor(res[..height - 1], height - 1, width, maze)
  {
    var prev := res[..height - 1];
    forall h | 0 <= h < height - 1
      ensures RowAt(prev[h], h, width, maze)
    {
      assert prev[h] == res[h];
    }
  }

  /** The last row of a row-major grid is the last width characters it reads. */
  lemma {:induction false} RowMajorLastRow(res: seq<seq<char>>, height: nat, width: nat, maze: string)
    requires RowMajor(res, height, width, maze) && height > 0
    ensures (height - 1) * width + width <= |maze|
    ensures res[height - 1] == maze[(height - 1) * width .. (height - 1) * width + width]
  {
    var base := (height - 1) * width;
    var row := res[height - 1];
    if width > 0 {
      assert row[width - 1] == maze[base + (width - 1)];
    }
    forall w | 0 <= w < width
      ensures row[w] == maze[base..base + width][w]
    {
      assert row[w] == maze[base + w];
    }
  }

  /** Reading a parsed grid row after row gives back the first height * width characters. */
  lemma {:induction false} FlattenRowMajor(res: seq<seq<char>>, height: nat, width: nat, maze: string)
    requires RowMajor(res, height, width, maze)
    ensures height * width <= |maze|
    ensures Flatten(res) == maze[..height * width]
    decreases height
  {
    if height > 0 {
      var prev := res[..height - 1];
      RowMajorPrefix(res, height, width, maze);
      FlattenRowMajor(prev, height - 1, width, maze);
      RowMajorLastRow(res, height, width, maze);
      MulSucc(height - 1, width);
      var base := (height - 1) * width;
      assert Flatten(res) == Flatten(prev) + res[height - 1];
      assert maze[..height * width] == maze[..base] + maze[base..base + width];
    }
  }

  /** The maze as configured: its size, its parsed grid and the three rewards. */
  datatype Layout = Layout(height: nat, width: nat, cells: seq<seq<char>>,
                           goalReward: real, deadReward: real, defaultReward: real)

  /** The grid has the configured shape, as ParseMaze builds it. */
  ghost predicate Shaped(l: Layout) {
    |l.cells| == l.height && forall h :: 0 <= h < l.height ==> |l.cells[h]| == l.width
  }

  /** The shape, with every cell of the outermost rows and columns a wall. */
  ghost predicate Walled(l: Layout) {
    && Shaped(l) && l.height >= 1 && l.width >= 1
    && (forall w :: 0 <= w < l.width ==> l.cells[0][w] == '#' && l.cells[l.height - 1][w] == '#')
    && (forall h :: 0 <= h < l.height ==> l.cells[h][0] == '#' && l.cells[h][l.width - 1] == '#')
  }

  const Start: Pos := ConfigMaze.Pos(1, 1)

  function Goal(l: Layout): Pos {
    ConfigMaze.Pos(l.height - 2, l.width - 2)
  }

  predicate IsGoal(l: Layout, p: Pos) {
    p == Goal(l)
  }

  /** `_is_in_maze` / `is_in_maze`: signed coordinates inside the grid. */
  predicate InMaze(l: Layout, p: Pos) {
    0 <= p.h < l.height && 0 <= p.w < l.width
  }

  /** `_is_in_wall`: reads the cell, so only for a position in the maze. */
  predicate InWall(l: Layout, p: Pos)
    requires Shaped(l) && InMaze(l, p)
  {
    l.cells[p.h][p.w] == '#'
  }

  /** `r`: the goal first; then off the grid or in a wall is dead; otherwise the default. */
  function Reward(l: Layout, p: Pos): real
    requires Shaped(l)
  {
    if IsGoal(l, p) then l.goalReward
    else if !InMaze(l, p) || InWall(l, p) then l.deadReward
    else l.defaultReward
  }

  /** `is_done`: `is_goal || !is_in_maze || is_in_wall`. */
  predicate IsDone(l: Layout, p: Pos)
    requires Shaped(l)
  {
    IsGoal(l, p) || !InMaze(l, p) || InWall(l, p)
  }

  /** `is_success`: at the goal. */
  predicate IsSuccess(l: Layout, p: Pos) {
    IsGoal(l, p)
  }

  /**
   * Success ends the episode, and the end is rewarded as the goal or as dead,
   * any other position with the default. A goal drawn as a wall is still the
   * goal, unlike in the config generation's maze.
   */
  lemma DoneRewards(l: Layout, p: Pos)
    requires Shaped(l)
    ensures IsSuccess(l, p) ==> IsDone(l, p)
    ensures IsDone(l, p) && !IsGoal(l, p) ==> Reward(l, p) == l.deadReward
    ensures !IsDone(l, p) ==> Reward(l, p) == l.defaultReward
    ensures IsGoal(l, p) ==> Reward(l, p) == l.goalReward
  {
  }

  /** `_pos_to_s` / `pos_to_s`: row-major state index. */
  function PosToS(l: Layout, p: Pos): (s: int)
    ensures InMaze(l, p) ==> 0 <= s < l.height * l.width
  {
    if InMaze(l, p) then Discretize.MixedRadixStep(p.h, p.w, l.height, l.width); p.h * l.width + p.w
    else p.h * l.width + p.w
  }

  /**
   * `_s_to_pos`: `(s // w, s % w)`. Python's // and % round toward minus
   * infinity, which for a positive width is what Dafny's / and % do.
   */
  function SToPos(l: Layout, s: int): Pos
    requires l.width > 0
  {
    ConfigMaze.Pos(s / l.width, s % l.width)
  }

  /** The two conversions are inverse whenever the column is inside the grid, whatever the row. */
  lemma {:induction false} SToPosOfPosToS(l: Layout, p: Pos)
    requires 0 <= p.w < l.width
    ensures SToPos(l, PosToS(l, p)) == p
  {
    var s := PosToS(l, p);
    assert s == p.h * l.width + p.w;
    var q, r := s / l.width, s % l.width;
    assert s == q * l.width + r && 0 <= r < l.width;
    Discretize.MixedRadixUnique(q, r, p.h, p.w, l.width);
  }

  /** With the column off the grid the round trip fails: in a width-3 maze, (1, -1) comes back as (0, 2). */
  lemma SToPosOffGrid()
    ensures var l := Layout(3, 3, [], 0.0, 0.0, 0.0);
            PosToS(l, ConfigMaze.Pos(1, -1)) == 2 && SToPos(l, 2) == ConfigMaze.Pos(0, 2)
  {
  }

  /** python3's `is_done(s)` and `is_success(s)`, which decode the state index first. */
  predicate IsDoneAt(l: Layout, s: int)
    requires Shaped(l) && l.width > 0
  {
    IsDone(l, SToPos(l, s))
  }

  predicate IsSuccessAt(l: Layout, s: int)
    requires l.width > 0
  {
    IsSuccess(l, SToPos(l, s))
  }

  /** Asking through the state index is asking about the position, for every position in the maze. */
  lemma DoneAtStateIsDone(l: Layout, p: Pos)
    requires Shaped(l) && InMaze(l, p)
    ensures IsDoneAt(l, PosToS(l, p)) == IsDone(l, p)
    ensures IsSuccessAt(l, PosToS(l, p)) == IsSuccess(l, p)
  {
    SToPosOfPosToS(l, p);
  }

  /** `_move` / `run_step`: 0 up, 1 down, 2 left, and every other action right. */
  function Move(p: Pos, a: int): (q: Pos)
    ensures ConfigMaze.Adjacent(p, q)
  {
    if a == 0 then ConfigMaze.Pos(p.h - 1, p.w)
    else if a == 1 then ConfigMaze.Pos(p.h + 1, p.w)
    else if a == 2 then ConfigMaze.Pos(p.h, p.w - 1)
    else ConfigMaze.Pos(p.h, p.w + 1)
  }

  /** On 0..3 the move is the config generation's; any other action is the move right, 3. */
  lemma MoveAgreesWithConfigMaze(p: Pos, a: int)
    ensures 0 <= a < ConfigMaze.ActionSize ==> Move(p, a) == ConfigMaze.Move(p, a).value
    ensures !(0 <= a < 3) ==> Move(p, a) == ConfigMaze.Move(p, 3).value
  {
  }

  /** In a walled maze, a position in the maze that is not done is interior, and every move keeps it in the maze. */
  lemma {:induction false} OpenCellIsInterior(l: Layout, p: Pos, a: int)
    requires Walled(l) && InMaze(l, p) && !IsDone(l, p)
    ensures 1 <= p.h <= l.height - 2 && 1 <= p.w <= l.width - 2
    ensures InMaze(l, Move(p, a))
  {
    assert p.h != 0 && p.h != l.height - 1 by {
      assert l.cells[0][p.w] == '#' && l.cells[l.height - 1][p.w] == '#';
    }
    assert p.w != 0 && p.w != l.width - 1 by {
      assert l.cells[p.h][0] == '#' && l.cells[p.h][l.width - 1] == '#';
    }
  }

  /** The maze behind the experiment generation's environment interface. */
  function Env(l: Layout): (env: Environments.ExperimentEnv<Pos>)
    requires Shaped(l)
    ensures env.stateSize == l.height * l.width && env.actionSize == 4 && env.reset == Start
  {
    Environments.ExperimentEnv(
      l.height * l.width,
      4,
      p => InMaze(l, p),
      Start,
      (p: Pos, a: nat) => Move(p, a),
      p requires InMaze(l, p) => PosToS(l, p) as nat,
      p => Reward(l, p),
      p => ConfigMaze.Info(p),
      p => IsDone(l, p),
      p => IsSuccess(l, p))
  }

  /** In a walled maze at least three cells high and wide, the environment meets what the loops rely on. */
  lemma {:induction false} EnvValid(l: Layout)
    requires Walled(l) && l.height >= 3 && l.width >= 3
    ensures Environments.ExperimentEnvValid(Env(l))
  {
    var env := Env(l);
    forall p, a: nat | env.ok(p) && a < env.actionSize && (p == env.reset || !env.isDone(p))
      ensures env.ok(env.step(p, a))
    {
      if p != Start {
        OpenCellIsInterior(l, p, a);
      }
    }
  }

  class Maze {
    const layout: Layout
    var pos: Pos
    /** python3's `_step`, the number of steps since the last reset (pypy3 and rust/src keep none). */
    var step: nat

    /**
     * `Maze.__init__` / `Maze::new`: parses the maze string, which must hold
     * height * width characters (the source fails otherwise), and starts at
     * (1, 1).
     */
    constructor (height: nat, width: nat, maze: string, goalReward: real, deadReward: real, defaultReward: real)
      requires height * width <= |maze|
      ensures Shaped(layout) && RowMajor(layout.cells, height, width, maze)
      ensures layout.height == height && layout.width == width
      ensures layout.goalReward == goalReward && layout.deadReward == deadReward
      ensures layout.defaultReward == defaultReward
      ensures pos == Start && step == 0
    {
      var cells := ParseMaze(height, width, maze);
      layout := Layout(height, width, cells.value, goalReward, deadReward, defaultReward);
      pos := Start;
      step := 0;
    }

    /** `reset`: back to the start, and (python3) the step count to 0. */
    method Reset()
      modifies this
      ensures pos == Start && step == 0
    {
      pos := Start;
      step := 0;
    }

    /** `run_step(a)`: python3 counts the step, then moves. */
    method RunStep(a: int)
      modifies this
      ensures step == old(step) + 1
      ensures pos == Move(old(pos), a)
    {
      step := step + 1;
      if a == 0 {
        pos := ConfigMaze.Pos(pos.h - 1, pos.w);
      } else if a == 1 {
        pos := ConfigMaze.Pos(pos.h + 1, pos.w);
      } else if a == 2 {
        pos := ConfigMaze.Pos(pos.h, pos.w - 1);
      } else {
        pos := ConfigMaze.Pos(pos.h, pos.w + 1);
      }
    }
  }
}
