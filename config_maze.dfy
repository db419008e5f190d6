/**
 * The config generation's maze (C_GCC, Go_go, Rust_rustc, Python3_CPython,
 * Ruby_MRI_JIT): a grid of characters read from a file, '#' marking walls,
 * an agent position that starts at (1, 1) and a goal at
 * (height - 2, width - 2). The reward looks at the wall before the goal; an
 * episode finishes on the goal or on a wall; an action outside 0..3 stops
 * the program.
 */
module ConfigMaze {
  import opened Wrappers
  import Decimal
  import Discretize
  import Environments

  /** A position: row h, column w. */
  datatype Pos = Pos(h: int, w: int)

  /** The maze as loaded: its lines of characters and the three rewards. */
  datatype Layout = Layout(cells: seq<seq<char>>, defaultReward: real, goalReward: real, wallReward: real)

  /** The maze file had at least one line; the width is read from the first. */
  predicate Loaded(l: Layout) {
    |l.cells| > 0
  }

  function Height(l: Layout): nat {
    |l.cells|
  }

  function Width(l: Layout): nat
    requires Loaded(l)
  {
    |l.cells[0]|
  }

  /** Every line is as long as the first. */
  ghost predicate Rectangular(l: Layout) {
    Loaded(l) && forall h :: 0 <= h < |l.cells| ==> |l.cells[h]| == Width(l)
  }

  /** A rectangular maze whose outermost rows and columns are all walls. */
  ghost predicate Walled(l: Layout) {
    && Rectangular(l) && Width(l) >= 1
    && (forall w :: 0 <= w < Width(l) ==> l.cells[0][w] == '#' && l.cells[Height(l) - 1][w] == '#')
    && (forall h :: 0 <= h < Height(l) ==> l.cells[h][0] == '#' && l.cells[h][Width(l) - 1] == '#')
  }

  const InitPos: Pos := Pos(1, 1)

  function GoalPos(l: Layout): Pos
    requires Loaded(l)
  {
    Pos(Height(l) - 2, Width(l) - 2)
  }

  predicate InGrid(l: Layout, p: Pos)
    requires Loaded(l)
  {
    0 <= p.h < Height(l) && 0 <= p.w < Width(l)
  }

  /** The character at p exists (the source reads it without a bounds check). */
  predicate HasCell(l: Layout, p: Pos) {
    0 <= p.h < |l.cells| && 0 <= p.w < |l.cells[p.h]|
  }

  predicate IsWall(l: Layout, p: Pos)
    requires HasCell(l, p)
  {
    l.cells[p.h][p.w] == '#'
  }

  predicate IsGoal(l: Layout, p: Pos)
    requires Loaded(l)
  {
    p == GoalPos(l)
  }

  function StateSize(l: Layout): nat
    requires Loaded(l)
  {
    Height(l) * Width(l)
  }

  const ActionSize: nat := 4

  /** `pos_to_s`: row-major, and inside the grid a valid Q-table row. */
  function State(l: Layout, p: Pos): (s: int)
    requires Loaded(l)
    ensures InGrid(l, p) ==> 0 <= s < StateSize(l)
  {
    if InGrid(l, p) then Discretize.MixedRadixStep(p.h, p.w, Height(l), Width(l)); p.h * Width(l) + p.w
    else p.h * Width(l) + p.w
  }

  /** Distinct cells of the grid have distinct states, and a state gives back its cell. */
  lemma StateInjective(l: Layout, p: Pos, q: Pos)
    requires Loaded(l) && InGrid(l, p) && InGrid(l, q)
    ensures State(l, p) == State(l, q) <==> p == q
    ensures State(l, p) / Width(l) == p.h && State(l, p) % Width(l) == p.w
  {
    if State(l, p) == State(l, q) {
      Discretize.MixedRadixUnique(p.h, p.w, q.h, q.w, Width(l));
    }
    Discretize.MixedRadixDecode(p.h, p.w, Width(l));
  }

  /** `reward`: the wall test comes first, then the goal test. */
  function Reward(l: Layout, p: Pos): real
    requires Loaded(l) && HasCell(l, p)
  {
    if IsWall(l, p) then l.wallReward
    else if IsGoal(l, p) then l.goalReward
    else l.defaultReward
  }

  /** `is_finish`: `is_goal || is_wall`; the cell is read only off the goal. */
  predicate IsFinish(l: Layout, p: Pos)
    requires Loaded(l) && (IsGoal(l, p) || HasCell(l, p))
  {
    IsGoal(l, p) || IsWall(l, p)
  }

  /** `info`: "h,w". */
  function Info(p: Pos): string {
    Decimal.CoordinateString(p.h, p.w)
  }

  /**
   * A finished position is rewarded as a wall or as the goal, an unfinished
   * one with the default reward, and a goal drawn as a wall counts as a wall.
   */
  lemma RewardOfFinish(l: Layout, p: Pos)
    requires Loaded(l) && HasCell(l, p)
    ensures IsFinish(l, p) ==> Reward(l, p) == l.wallReward || Reward(l, p) == l.goalReward
    ensures !IsFinish(l, p) ==> Reward(l, p) == l.defaultReward
    ensures IsWall(l, p) ==> Reward(l, p) == l.wallReward
  {
  }

  /** The info string identifies the position. */
  lemma InfoInjective(p: Pos, q: Pos)
    ensures Info(p) == Info(q) <==> p == q
  {
    if Info(p) == Info(q) {
      Decimal.CoordinateStringInjective(p.h, p.w, q.h, q.w);
    }
  }

  /**
   * `run_step` as a function: 0 up, 1 down, 2 left, 3 right; any other
   * action is the source's abort (exit, panic, raise), here None.
   */
  function Move(p: Pos, a: int): (r: Option<Pos>)
    ensures r.Some? <==> 0 <= a < ActionSize
  {
    if a == 0 then Some(Pos(p.h - 1, p.w))
    else if a == 1 then Some(Pos(p.h + 1, p.w))
    else if a == 2 then Some(Pos(p.h, p.w - 1))
    else if a == 3 then Some(Pos(p.h, p.w + 1))
    else None
  }

  /** Two positions one step apart: exactly one coordinate differs, by one. */
  predicate Adjacent(p: Pos, q: Pos) {
    (p.h == q.h && (q.w == p.w + 1 || q.w == p.w - 1))
    || (p.w == q.w && (q.h == p.h + 1 || q.h == p.h - 1))
  }

  /** The action that undoes a: up and down, left and right. */
  function Opposite(a: nat): (b: nat)
    requires a < ActionSize
    ensures b < ActionSize && b != a
  {
    if a == 0 then 1 else if a == 1 then 0 else if a == 2 then 3 else 2
  }

  /** Every valid action moves to a neighbouring cell, and the opposite action moves back. */
  lemma MoveIsReversible(p: Pos, a: nat)
    requires a < ActionSize
    ensures Adjacent(p, Move(p, a).value)
    ensures Move(Move(p, a).value, Opposite(a)) == Some(p)
  {
  }

  /**
   * In a walled maze, a cell that does not finish the episode is an
   * interior cell, so every move from it stays in the grid. In Rust_rustc,
   * whose positions are unsigned, this is why `pos.0 - 1` never underflows.
   */
  lemma {:induction false} OpenCellIsInterior(l: Layout, p: Pos, a: nat)
    requires Walled(l) && InGrid(l, p) && !IsFinish(l, p) && a < ActionSize
    ensures 1 <= p.h <= Height(l) - 2 && 1 <= p.w <= Width(l) - 2
    ensures InGrid(l, Move(p, a).value) && Move(p, a).value.h >= 0 && Move(p, a).value.w >= 0
  {
    assert |l.cells[p.h]| == Width(l);
    assert p.h != 0 && p.h != Height(l) - 1 by {
      assert l.cells[0][p.w] == '#' && l.cells[Height(l) - 1][p.w] == '#';
    }
    assert p.w != 0 && p.w != Width(l) - 1 by {
      assert l.cells[p.h][0] == '#' && l.cells[p.h][Width(l) - 1] == '#';
    }
  }

  /** The maze behind the config generation's environment interface; its states are the grid's cells. */
  function Env(l: Layout): (env: Environments.RlEnv<Pos>)
    requires Rectangular(l)
    ensures env.stateSize == StateSize(l) && env.actionSize == ActionSize && env.reset == InitPos
  {
    Environments.RlEnv(
      StateSize(l),
      ActionSize,
      p => InGrid(l, p),
      InitPos,
      (p: Pos, a: nat) requires a < ActionSize => Move(p, a).value,
      p requires InGrid(l, p) => State(l, p) as nat,
      p requires HasCell(l, p) => Reward(l, p),
      p => Info(p),
      p requires HasCell(l, p) => IsFinish(l, p))
  }

  /** In a walled maze at least three cells high and wide, the environment meets what the loops rely on. */
  lemma {:induction false} EnvValid(l: Layout)
    requires Walled(l) && Height(l) >= 3 && Width(l) >= 3
    ensures Environments.RlEnvValid(Env(l))
  {
    var env := Env(l);
    forall p | InGrid(l, p)
      ensures HasCell(l, p)
    {
      assert |l.cells[p.h]| == Width(l);
    }
    forall p, a: nat | env.ok(p) && a < env.actionSize && (p == env.reset || !env.isFinish(p))
      ensures env.ok(env.step(p, a))
    {
      if p != InitPos {
        OpenCellIsInterior(l, p, a);
      }
    }
  }

  /** The maze object: the loaded layout and the current position. */
  class Maze {
    const layout: Layout
    var pos: Pos

    /**
     * `new_env_maze_params` / `NewMaze` / `Maze::new`: the position starts
     * at (1, 1). Height and width are the number of lines and the length of
     * the first one, which must therefore exist.
     */
    constructor (cells: seq<seq<char>>, defaultReward: real, goalReward: real, wallReward: real)
      requires |cells| > 0
      ensures Loaded(layout)
      ensures layout == Layout(cells, defaultReward, goalReward, wallReward)
      ensures pos == InitPos
    {
      layout := Layout(cells, defaultReward, goalReward, wallReward);
      pos := InitPos;
    }

    /** `run_step(a)`: ok is false, and nothing moves, for an action the source aborts on. */
    method RunStep(a: int) returns (ok: bool)
      modifies this
      ensures ok <==> 0 <= a < ActionSize
      ensures ok ==> pos == Move(old(pos), a).value && Adjacent(old(pos), pos)
      ensures !ok ==> pos == old(pos)
    {
      ok := true;
      if a == 0 {
        pos := Pos(pos.h - 1, pos.w);
      } else if a == 1 {
        pos := Pos(pos.h + 1, pos.w);
      } else if a == 2 {
        pos := Pos(pos.h, pos.w - 1);
      } else if a == 3 {
        pos := Pos(pos.h, pos.w + 1);
      } else {
        ok := false;
      }
    }

    /** `reset`: back to (1, 1). */
    method Reset()
      modifies this
      ensures pos == InitPos
    {
      pos := InitPos;
    }
  }
}
