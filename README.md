# anylang-rl in Dafny

anylang-rl writes the same small tabular reinforcement-learning programme in
many languages. This project models its core and proves what that core
promises. The programme exists in three generations.

- **First generation** (c_clang, c_clang_sfmt, go, pypy3, python3, ruby,
  rust/src/agent.rs). A hard-coded cartpole Q-learning agent.
  - Each of the four state components is cut by bin edges from `make_bins`.
  - The component indices are combined with x least significant.
  - `one_episode` runs exactly `fps * 10` steps and stores the state, action
    and reward of each.
  - `run` sums each episode's stored rewards.
  - `test` stops learning and exploring, then replays one episode.
- **Config generation** (C_GCC, Go_go, Rust_rustc, Python3_CPython,
  Python3_PyPy3, Ruby_MRI, Ruby_MRI_JIT). An `RL` runner chooses a Q-learning
  or Sarsa agent and a Maze or Cartpole environment by name.
  - It stores a dense Q-table.
  - Each episode records a history of (action, reward, state, info) entries.
  - A terminal state's row is zeroed before learning.
  - The runner keeps one return per episode.
- **Experiment generation** (rust/src, python3, and the pypy3 maze and
  pendulum).
  - An `Experiment` runs at most max_episode episodes.
  - It keeps a streak of consecutive successful episodes and stops once the
    streak reaches max_succeeded_episode.
  - It supports a Maze, a Cartpole and a Pendulum.

The model is organised by the programme's own parts.

- `Discretize` has both binning rules and the mixed-radix state indices.
- `Angles` has the three spellings of angle renormalisation. `RealMath` has
  floor, truncation and the two floating remainders.
- `QTables` has the table.
- `Agents` has epsilon-greedy choice, `argmax`/`max`, and the Q-learning and
  Sarsa updates.
- `CartpoleAgent` is the first-generation agent.
- `Histories` has the recorders.
- `ConfigMaze`, `ExperimentMaze`, `Cartpole` and `Pendulum` are the
  environments. `Environments` has the interfaces the loops use, and
  `Decimal` the maze's "h,w" info string.
- The three runners are `FixedEpisode` (first generation), `RlLoop` (config
  generation) and `ExperimentLoop` (experiment generation).

Each runner's episode and training loop is specified as a function over
values. The imperative classes, which update fields in place as the source
does, are proved to compute exactly those functions. The properties the
runners promise are lemmas about the functions.

Values are modelled as follows.

- Q-values, rewards and continuous states are exact reals.
- Pi is the double closest to pi.
- Randomness is a stream `rng: nat -> Draw` of (uniform u, index pick). The
  agent's stream object counts the draws it has taken.
- The equations of motion are a parameter of the model (see "Left out").

## Model

| member | source | states |
|---|---|---|
| Discretize.BinWidth | C_GCC/environment.c:573-587 | the interior bins are positive and exactly tile [lo, hi) in num - 2 pieces |
| Discretize.Digitize | C_GCC/environment.c:573-587 | the reserved-bin index is below num; it is 0 exactly below lo and num - 1 exactly at or above hi; an interior index k holds the value in [lo + (k-1)w, lo + kw) |
| Discretize.InteriorBin | python3/environment/cartpole.py:66-73 | inside [lo, hi) the floored and truncated quotients pick the same interior bin, which brackets the value |
| Discretize.DigitizeMonotone | C_GCC/environment.c:573-587 | the reserved-bin index never decreases as the value grows |
| Discretize.DigitizeAtLowerBound | C_GCC/environment.c:575-586 | the lower bound lies in bin 1, not in bin 0 |
| Discretize.Edges | c_clang/agent.c:80-94 | `make_bins` gives num - 1 edges, edge i being lo + i(hi - lo)/(num - 2) |
| Discretize.EdgesSpanBounds | python3/agent.py:64-66 | the edges start at lo, end at hi and strictly increase |
| Discretize.MakeBins | c_clang/agent.c:80-94 | the loop fills exactly the edges Edges describes |
| Discretize.FirstAbove | c_clang/agent.c:118-127 | the bin-edge index: every edge before it is at or below x, and the edge at it is above x |
| Discretize.FirstAboveUnique | go/agent.go:134-141 | those two conditions determine the index |
| Discretize.FirstAboveMonotone | ruby/agent.rb:69-76 | over increasing edges the index never decreases as x grows |
| Discretize.BinDigitize | c_clang/agent.c:118-127 | the scan that returns at the first edge above x computes FirstAbove |
| Discretize.EdgeRuleIsReservedBinRule | rust/src/agent.rs:96-112 | over `make_bins` edges the bin-edge rule gives the reserved-bin index for every x |
| Discretize.InteriorEdges | python3/agent.py:68-72 | inside [lo, hi), every edge before the reserved-bin index is at or below x and the edge at it is above x |
| Discretize.MixedRadixUnique | C_GCC/environment.c:483-500 | two-digit mixed-radix numbers with digits in range have unique digits |
| Discretize.MixedRadixDecode | python3/environment/pendulum.py:44-51 | division and remainder give back both digits |
| Discretize.PendulumIndexInRange | rust/src/environment/pendulum.rs:118-123 | theta_idx * thetadot_space + thetadot_idx is a row of the table and decodes to its digits |
| Discretize.CartpoleIndexInRange | C_GCC/environment.c:483-500 | the four-digit cartpole index is below the product of the bin counts |
| Discretize.CartpoleIndexInjective | C_GCC/environment.c:483-500 | distinct bin tuples get distinct rows |
| Discretize.AgentIndexInRange | c_clang/agent.c:129-136 | the x-least-significant index is below the product of the bin counts |
| Discretize.AgentIndexIsReversedCartpoleIndex | go/agent.go:151-154 | the first generation's order is the other order with the digits reversed |
| RealMath.Trunc | C_GCC/environment.c:586 | a C `(int)` cast rounds toward zero: it brackets the quotient from the side of zero |
| RealMath.FlooredMod | Python3_PyPy3/environment/cartpole.py:96-97 | Python's float `%` lies in [0, m) and differs from x by whole multiples of m |
| RealMath.TruncMod | C_GCC/environment.c:589-592 | `fmod` has the sign of x, lies strictly inside (-m, m) and differs from x by whole multiples of m |
| RealMath.TruncModIsFlooredModWhenNonNegative | Rust_rustc/src/environment/cartpole.rs:205-207 | on a non-negative dividend the two remainders coincide |
| RealMath.FlooredModPeriodic | python3/environment/pendulum.py:112-113 | the floored remainder is periodic in its dividend |
| RealMath.FlooredModOfReduced | python3/environment/pendulum.py:112-113 | a value already in [0, m) is left unchanged |
| Angles.NormalizeFloor3Pi | Python3_PyPy3/environment/cartpole.py:96-97 | the result is in [-pi, pi) and differs from theta by whole turns |
| Angles.NormalizeFloorPi | python3/environment/cartpole.py:118 | the result is in [-pi, pi) and differs from theta by whole turns |
| Angles.NormalizeTrunc3Pi | C_GCC/environment.c:589-592 | whole turns away from theta; in [-pi, pi) for theta at or above -3 pi, in (-3 pi, -pi] below |
| Angles.Normalize | Go_go/environment.go:380-382 | every spelling changes the angle by whole turns, and lands in [-pi, pi) except the truncated one below -3 pi |
| Angles.NormalizationsAgree | rust/src/environment/cartpole.rs:209-211 | above -3 pi all spellings compute the same angle |
| Angles.FlooredSpellingsAgree | Ruby_MRI_JIT/environment/cartpole.rb:136-138 | the +3 pi and +pi floored spellings agree everywhere |
| Angles.TruncatedAgreesAboveMinus3Pi | C_GCC/environment.c:589-592 | above -3 pi the truncated spelling agrees with the floored one |
| Angles.TruncatedEscapesBelowMinus3Pi | C_GCC/environment.c:589-592 | below -3 pi the truncated spelling leaves [-pi, pi): -4 pi becomes -2 pi, where the floored spelling gives 0 |
| Angles.NormalizeFloorPiFixesReduced | pypy3/environment/pendulum.py:132-134 | an angle already in [-pi, pi) is unchanged |
| QTables.Filled | C_GCC/qtable.c:4-36 | n rows of m entries, every cell the initial value |
| QTables.Assign | C_GCC/agent.c:79-94 | exactly cell (s, a) takes the new value; the shape and every other cell stay |
| QTables.Zeros | C_GCC/rl.c:163-166 | a row of m zeros |
| QTables.QTable.constructor | C_GCC/qtable.c:4-36 | a fresh table of state_size rows of action_size entries, all init_qvalue |
| QTables.QTable.FromInitial | rust/src/q_table.rs:17-24 | `QTable::new(init_q, s_space, a_space)` builds the same filled table |
| QTables.QTable.ZeroRow | C_GCC/rl.c:161-167 | row s becomes all zeros and no other row changes |
| QTables.QTable.Set | python3/agent/sarsa.py:24-27 | one cell is written and every other cell keeps its value |
| Agents.FirstMaxUnique | C_GCC/agent.c:208-220 | at most one index is a first maximum |
| Agents.FirstMax | C_GCC/agent.c:208-220 | the first index of a maximum of the row, 0 on an empty row |
| Agents.ArgMax | C_GCC/agent.c:208-220 | `argmax` returns the first index of the maximum: ties go to the earliest |
| Agents.MaxOf | C_GCC/agent.c:194-206 | an entry of the row that no entry exceeds |
| Agents.MaxUnique | C_GCC/agent.c:194-206 | an entry that dominates the row is its maximum |
| Agents.RowMax | C_GCC/agent.c:194-206 | `max` returns the row maximum |
| Agents.FoldMaxFrom | rust/src/agent/q_learning.rs:73-75 | folding `f64::max` from a value gives the maximum of that value and the row |
| Agents.FoldMaxIsMaxOf | Rust_rustc/src/agent/q_learning.rs:51-53 | folding from minus infinity (or NaN) gives the row maximum |
| Agents.TdUpdateBetween | C_GCC/agent.c:79-94 | for alpha in [0, 1] the new value lies between the old value and the target |
| Agents.TdUpdateFixedPoint | C_GCC/agent.c:174-186 | a value equal to its target stays, whatever alpha |
| Agents.AssignSameValue | C_GCC/agent.c:79-94 | writing a cell's own value leaves the table as it was |
| Agents.QLearnedFrozen | C_GCC/agent.c:96-100 | after `fix` (alpha 0) Q-learning leaves the table as it was |
| Agents.SarsaLearnedFrozen | C_GCC/agent.c:188-192 | after `fix` Sarsa leaves the table as it was |
| Agents.TerminalRowTargets | C_GCC/rl.c:161-169 | on a zeroed terminal row Q-learning and Sarsa make the same update, toward the reward alone |
| Agents.Choice | C_GCC/agent.c:66-77 | epsilon-greedy picks a valid action |
| Agents.FrozenChoiceIsGreedy | C_GCC/agent.c:96-100 | with eps 0 and a draw in [0, 1) the choice is the first maximum of the row |
| Agents.Learned | C_GCC/agent.c:79-94 | learning keeps the table's shape |
| Agents.LearnedFrame | C_GCC/agent.c:174-186 | learning changes no cell but (s1, a1) |
| Agents.LearnedFrozen | python3/agent/sarsa.py:29-31 | after `fix` neither algorithm changes the table |
| Agents.FnsImplements | C_GCC/agent.c:7-35 | the function-pointer agent built from an algorithm behaves as Choice and Learned of that algorithm |
| Agents.ImplementsValid | C_GCC/agent.c:102-130 | such an agent picks valid actions and keeps the table's shape |
| Agents.Stream.constructor | c_clang_sfmt/experiment.c:44-50 | the random stream starts with no draws taken |
| Agents.Agent.constructor | C_GCC/agent.c:36-64 | an agent with the given algorithm, alpha, gamma and eps |
| Agents.Agent.Action | C_GCC/agent.c:66-77 | the action is valid and is Choice on the row of s |
| Agents.Agent.QLearningLearn | C_GCC/agent.c:79-94 | the table becomes QLearned of the old one; a2 is ignored |
| Agents.Agent.SarsaLearn | C_GCC/agent.c:174-186 | the table becomes SarsaLearned of the old one |
| Agents.Agent.Learn | rust/src/agent/sarsa.rs:41-44 | the table becomes Learned, dispatched on the algorithm |
| Agents.Agent.Fix | rust/src/agent/q_learning.rs:57-60 | alpha and eps become 0 and the agent then behaves as the frozen one |
| Histories.History.Entries | C_GCC/history.c:27-54 | one entry per push, in push order |
| Histories.History.constructor | rust/src/history.rs:14-21 | four empty lists |
| Histories.History.Push | rust/src/history.rs:23-29 | one element at the end of each list, nothing else changed |
| Histories.CapacityAfterBounds | C_GCC/history.c:31-40 | after n pushes the capacity is the least power of two holding n entries |
| Histories.Buffer.constructor | C_GCC/history.c:7-25 | length 0, capacity 1 |
| Histories.Buffer.Push | C_GCC/history.c:27-54 | the entry is appended; a full buffer doubles its capacity and copies its entries |
| Histories.FixedHistory.constructor | c_clang_sfmt/experiment.c:3-29 | three arrays of exactly steps_num slots |
| Decimal.DigitChar | C_GCC/environment.c:205 | a digit character with the digit's value |
| Decimal.Digits | C_GCC/environment.c:205 | a non-empty string of digits without a leading zero |
| Decimal.ValueOfDigits | Go_go/environment.go:121 | reading the digits back gives the number |
| Decimal.IntToString | Rust_rustc/src/environment/maze.rs:101-103 | comma-free, and it starts with '-' exactly for a negative number |
| Decimal.IntToStringInjective | python3/environment/maze.py:83-85 | different integers render differently |
| Decimal.CoordinateString | rust/src/environment/maze.rs:103-105 | row, comma, column |
| Decimal.FirstComma | pypy3/environment/maze.py:80-82 | the index of the first comma |
| Decimal.FirstCommaAfter | C_GCC/environment.c:205 | in head + "," + tail with a comma-free head, the first comma ends the head |
| Decimal.SplitAtComma | C_GCC/environment.c:205 | a comma-free head and the tail are recovered from head + "," + tail |
| Decimal.CoordinateStringInjective | C_GCC/environment.c:193-207 | different positions give different info strings |
| ConfigMaze.State | C_GCC/environment.c:152-155 | a cell of the grid has a valid row-major state |
| ConfigMaze.StateInjective | C_GCC/environment.c:143-155 | distinct cells have distinct states, and / and % give the cell back |
| ConfigMaze.RewardOfFinish | C_GCC/environment.c:157-172 | a finished position is rewarded as wall or goal, an open one with the default, and a wall always as wall |
| ConfigMaze.InfoInjective | C_GCC/environment.c:193-207 | the info string identifies the position |
| ConfigMaze.Move | C_GCC/environment.c:209-237 | a move exists exactly for actions 0 to 3; the source aborts on any other |
| ConfigMaze.Opposite | C_GCC/environment.c:209-237 | the undoing action is a different, valid action |
| ConfigMaze.MoveIsReversible | C_GCC/environment.c:209-237 | each move goes to a neighbouring cell and the opposite move comes back |
| ConfigMaze.OpenCellIsInterior | Rust_rustc/src/environment/maze.rs:105-113 | in a walled maze an unfinished cell is interior, so every move stays in the grid with non-negative coordinates |
| ConfigMaze.Env | C_GCC/environment.c:9-41 | the maze behind the interface: state size height * width, 4 actions, reset at (1, 1) |
| ConfigMaze.EnvValid | C_GCC/environment.c:248-255 | a walled maze at least 3 by 3 meets everything the episode loop relies on |
| ConfigMaze.Maze.constructor | C_GCC/environment.c:43-86 | at (1, 1) with the loaded layout |
| ConfigMaze.Maze.RunStep | C_GCC/environment.c:209-237 | a valid action moves to Move and to a neighbour; an invalid one is reported and nothing moves |
| ConfigMaze.Maze.Reset | C_GCC/environment.c:239-246 | back to (1, 1) |
| ExperimentMaze.ParseMaze | python3/environment/maze.py:31-39 | a grid exists exactly when the string holds height * width characters, and cell (h, w) is character h * width + w |
| ExperimentMaze.RowMajorPrefix | rust/src/environment/maze.rs:50-62 | dropping the last row leaves the grid of one row fewer |
| ExperimentMaze.RowMajorLastRow | rust/src/environment/maze.rs:50-62 | the last row is the last width characters read |
| ExperimentMaze.FlattenRowMajor | pypy3/environment/maze.py:28-36 | reading the grid row after row gives back the first height * width characters |
| ExperimentMaze.DoneRewards | python3/environment/maze.py:57-65 | success is done; done off the goal is dead; not done is default; the goal wins even over a wall |
| ExperimentMaze.PosToS | python3/environment/maze.py:53-55 | a position in the maze has a valid row-major state |
| ExperimentMaze.SToPosOfPosToS | python3/environment/maze.py:79-81 | `_s_to_pos` undoes `_pos_to_s` whenever the column is in range |
| ExperimentMaze.SToPosOffGrid | python3/environment/maze.py:79-81 | with the column out of range the round trip fails: (1, -1) comes back as (0, 2) |
| ExperimentMaze.DoneAtStateIsDone | python3/environment/maze.py:108-118 | python3's `is_done(s)` and `is_success(s)` through the state index agree with the position's own answers |
| ExperimentMaze.Move | python3/environment/maze.py:97-106 | every action moves to a neighbouring cell |
| ExperimentMaze.MoveAgreesWithConfigMaze | rust/src/environment/maze.rs:111-118 | on 0 to 3 the move is the config maze's; every other action moves right |
| ExperimentMaze.OpenCellIsInterior | rust/src/environment/maze.rs:120-122 | in a walled maze a position that is not done is interior, and every move stays in the maze |
| ExperimentMaze.Env | rust/src/environment/maze.rs:81-91 | the maze behind the interface: height * width states, 4 actions, start (1, 1) |
| ExperimentMaze.EnvValid | rust/src/environment/maze.rs:120-126 | a walled maze at least 3 by 3 meets everything the episode loop relies on |
| ExperimentMaze.Maze.constructor | python3/environment/maze.py:10-30 | the parsed row-major grid, starting at (1, 1) with a step count of 0 |
| ExperimentMaze.Maze.Reset | python3/environment/maze.py:87-90 | back to the start, step count 0 |
| ExperimentMaze.Maze.RunStep | python3/environment/maze.py:92-95 | one more step counted, and the position moved |
| Cartpole.RewardBounds | C_GCC/environment.c:524-539 | off [-2, 2] the reward is the penalty; on it, at most pi/2, reached exactly upright at the centre, and above -pi/2 - 2c for a normalised angle |
| Cartpole.PositionTermBounds | python3/environment/cartpole.py:79-85 | the position term lies in [0, 2c] and is 0 only at the centre |
| Cartpole.Bins | C_GCC/environment.c:483-500 | four bin indices, each below its bin count |
| Cartpole.StateIndex | C_GCC/environment.c:483-500 | a row of the Q-table |
| Cartpole.SameRowIffSameBins | rust/src/environment/cartpole.rs:154-162 | two states share a row exactly when they fall in the same four bins |
| Cartpole.StateIndexMonotoneInX | Rust_rustc/src/environment/cartpole.rs:154-162 | moving the cart right never lowers the row |
| Cartpole.IndexMonotoneInLeading | Python3_PyPy3/environment/cartpole.py:105-114 | the index never decreases in its leading digit |
| Cartpole.NextNormalizesOnlyTheta | C_GCC/environment.c:384-421 | a step changes the integrated angle only by whole turns, keeps x and the rates, and lands in [-pi, pi) except the truncated spelling below -3 pi |
| Cartpole.RlEnv | C_GCC/environment.c:568-571 | the cartpole behind the config interface: the product of the bin counts as state size, and it never finishes |
| Cartpole.ExperimentEnv | rust/src/environment/cartpole.rs:187-193 | behind the experiment interface it is never done and never successful |
| Cartpole.EnvValid | C_GCC/environment.c:469-500 | both interfaces meet what the loops rely on |
| Cartpole.Cartpole.constructor | C_GCC/environment.c:306-382 | starts in the initial state (0, pi, 0, 0) |
| Cartpole.Cartpole.RunStep | C_GCC/environment.c:552-566 | the state becomes Next of the old state under `actions[a]` |
| Cartpole.Cartpole.Reset | C_GCC/environment.c:541-550 | the initial state again |
| Pendulum.StateIndex | python3/environment/pendulum.py:44-51 | a row of the Q-table that gives back both bin indices by / and % |
| Pendulum.SameRowIffSameBins | rust/src/environment/pendulum.rs:118-123 | two states share a row exactly when they share both bins |
| Pendulum.RewardBounds | python3/environment/pendulum.py:67-70 | at most pi/2, reached exactly upright, and at least -pi/2 for a normalised angle |
| Pendulum.NormalizeS | python3/environment/pendulum.py:112-113 | the rate is kept and the angle changes by whole turns into [-pi, pi) |
| Pendulum.NormalizeSFixesReduced | pypy3/environment/pendulum.py:132-134 | a state with its angle already in [-pi, pi) is unchanged |
| Pendulum.Env | rust/src/environment/pendulum.rs:146-153 | the pendulum behind the experiment interface is never done and never successful |
| Pendulum.EnvValid | python3/environment/pendulum.py:36-51 | it meets what the experiment loop relies on |
| Pendulum.Pendulum.constructor | rust/src/environment/pendulum.rs:28-72 | starts in the configured initial state with no last acceleration |
| Pendulum.Pendulum.Reset | rust/src/environment/pendulum.rs:136-139 | the initial state, and the last acceleration cleared |
| Pendulum.Pendulum.RunStep | rust/src/environment/pendulum.rs:141-144 | the state becomes Next under `actions[a]` |
| CartpoleAgent.StandardAxes | c_clang/agent.c:3-44 | four well-formed axes with the limits every port uses |
| CartpoleAgent.FirstIndex | c_clang/agent.c:154-167 | present exactly when x is in the list, and then its first occurrence |
| CartpoleAgent.FindIdx | go/agent.go:169-177 | the scan computes FirstIndex |
| CartpoleAgent.LastAboveFirst | python3/agent.py:85-91 | the as-written scan's result: the last index above entry 0, or 0 |
| CartpoleAgent.ArgMaxAsWritten | ruby/agent.rb:91-100 | the loop computes LastAboveFirst |
| CartpoleAgent.ArgMaxAsWrittenMissesMaximum | python3/agent.py:85-91 | on [0, 2, 1] the as-written scan returns 2, which is not the maximum's index 1 |
| CartpoleAgent.ArgMaxAsWrittenAgreesOnPairs | ruby/agent.rb:91-100 | on the two-action rows the first generation uses, the as-written scan is right |
| CartpoleAgent.Agent.StateIndex | c_clang/agent.c:129-136 | a row of the table |
| CartpoleAgent.Agent.constructor | c_clang/agent.c:3-44 | bins from `make_bins` and a table of the product of the bin counts, filled with the initial value |
| CartpoleAgent.Agent.SIndex | c_clang/agent.c:129-136 | `s_index` computes StateIndex, a row of the table |
| CartpoleAgent.Agent.StateIndexIsReservedBinIndex | rust/src/agent.rs:82-93 | the bin-edge state index is the reserved-bin index of each component, x least significant |
| CartpoleAgent.Agent.Action | c_clang/agent.c:46-59 | one of the candidate actions: epsilon-greedy on the row of s, greedy meaning the first maximum (the same index python3 and ruby find on two-action rows) |
| CartpoleAgent.Agent.Learn | c_clang/agent.c:61-71 | the cell (s, a) moves toward r + gamma * max of the row of snext; an action that is not a candidate is reported and no cell changes |
| CartpoleAgent.Agent.LearnAsWritten | python3/agent.py:44-51 | python3 bootstraps from the row of s, not of snext |
| CartpoleAgent.Agent.SetTestParams | c_clang/agent.c:73-78 | alpha and eps become 0 |
| CartpoleAgent.IntendedLearnKeepsConsistentCell | go/agent.go:98-107 | a cell at its target r + gamma * max of the next row stays |
| CartpoleAgent.LearnAsWrittenMovesConsistentCell | python3/agent.py:44-51 | the as-written update moves such a cell: 5 becomes 7.5 |
| CartpoleAgent.StandardStateCount | c_clang/agent.c:3-44 | 180000 rows with 90 theta bins (c_clang, python3, ruby), 80000 with 40 (go, rust/src/agent.rs) |
| RlLoop.Choose | C_GCC/rl.c:147 | a valid action |
| RlLoop.Start | C_GCC/rl.c:141-149 | after the reset the loop can begin |
| RlLoop.Step | C_GCC/rl.c:153-177 | an unfinished step leaves the loop ready, and the table keeps its shape |
| RlLoop.Steps | C_GCC/rl.c:151-178 | the environment and table after at most n passes stay valid |
| RlLoop.Episode | C_GCC/rl.c:128-181 | `run_episode` ends in a valid environment state with a well-shaped table |
| RlLoop.StepsNext | Rust_rustc/src/rl.rs:87-126 | before the break one more pass is one more Step |
| RlLoop.StepsStayDone | C_GCC/rl.c:171-174 | after the break further passes change nothing |
| RlLoop.StepsHistory | C_GCC/rl.c:151-178 | earlier records stay, one record per step, at least one step, fewer than n only after a terminal step |
| RlLoop.StepsVisited | C_GCC/rl.c:161-174 | the loop leaves on a terminal state, the last one visited, and no earlier visited state was terminal |
| RlLoop.EpisodeShape | C_GCC/rl.c:141-178 | first the reset record with the first chosen action, then 1 to max_step step records, fewer only at a terminal state |
| RlLoop.StepRecordsExecutedAction | C_GCC/rl.c:153-169 | each record holds the action just executed, chosen for the previous state, and only that cell learns, apart from a zeroed terminal row |
| RlLoop.TerminalStepTarget | C_GCC/rl.c:161-169 | on the terminal step both algorithms move the cell toward the reward alone |
| RlLoop.FrozenStep | C_GCC/rl.c:161-169 | with alpha 0 a step changes the table only by zeroing a terminal row |
| RlLoop.FrozenStepsOnlyZero | C_GCC/rl.c:183-191 | a test episode leaves the table as it was, except the row of the terminal state it ends on |
| RlLoop.RewardsOf | C_GCC/rl.c:112-115 | the rewards of a history, in order |
| RlLoop.SumFront | C_GCC/rl.c:111-115 | the sum can also be taken from the front |
| RlLoop.ReturnIncludesResetReward | C_GCC/rl.c:143-149 | a return includes the reset state's reward |
| RlLoop.Episodes | Rust_rustc/src/rl.rs:80-85 | one return per episode |
| RlLoop.EpisodesNext | C_GCC/rl.c:104-118 | each episode runs from where the previous one left the table, the environment and the stream |
| RlLoop.AllLast | C_GCC/rl.c:120-123 | every slot holds the last return |
| RlLoop.OverwriteLosesEarlierReturns | C_GCC/rl.c:120-123 | returns 1 and 2 are reported as 2 and 2 |
| RlLoop.ChooseAgent | C_GCC/rl.c:57-75 | "Q-learning" and "Sarsa" select their algorithm, anything else nothing |
| RlLoop.ChooseEnvironment | C_GCC/rl.c:77-96 | "Maze" and "Cartpole" select their environment, anything else nothing |
| RlLoop.ChooseByName | Rust_rustc/src/rl.rs:62-78 | every agent and environment has a name that selects it, and a name selects nothing exactly when it is none of those |
| RlLoop.TotalReward | C_GCC/rl.c:111-115 | the running total is the sum of the rewards |
| RlLoop.Rl.constructor | C_GCC/rl.c:9-55 | a filled table, no returns, an empty test history, the environment reset |
| RlLoop.Rl.StepOnce | C_GCC/rl.c:153-177 | the loop body computes Step |
| RlLoop.Rl.Begin | C_GCC/rl.c:141-149 | the start of an episode is Start |
| RlLoop.Rl.StepLoop | C_GCC/rl.c:151-178 | the loop computes max_step passes of Steps |
| RlLoop.Rl.RunEpisode | C_GCC/rl.c:128-181 | the history, table, environment and stream are those of Episode |
| RlLoop.Rl.RunAndRecord | C_GCC/rl.c:104-118 | one episode and its return appended |
| RlLoop.Rl.Run | Rust_rustc/src/rl.rs:80-85 | the returns are Episodes' returns, the sum of each episode's recorded rewards, in order |
| RlLoop.Rl.RunAsWritten | C_GCC/rl.c:98-126 | C_GCC's run ends with every slot AllLast of the true returns |
| RlLoop.Rl.RunTest | C_GCC/rl.c:183-191 | `fix`, then one frozen episode whose history is the test history |
| ExperimentLoop.Choose | rust/src/experiment.rs:97 | a valid action |
| ExperimentLoop.Start | rust/src/experiment.rs:93-101 | after the reset the loop can begin and nothing is done yet |
| ExperimentLoop.Step | rust/src/experiment.rs:104-117 | a step that is not done leaves the loop ready, and the table keeps its shape |
| ExperimentLoop.Python3StepAddsReward | python3/experiment.py:77-80 | a python3 step adds the reward of the state it reaches to the running total |
| ExperimentLoop.Steps | rust/src/experiment.rs:103-118 | the environment and table after at most n passes stay valid |
| ExperimentLoop.StepsPass | python3/experiment.py:75-84 | pass n keeps the loop's validity |
| ExperimentLoop.StepsAdvance | python3/experiment.py:75-84 | an unbroken pass keeps the loop's validity |
| ExperimentLoop.Episode | rust/src/experiment.rs:90-121 | an episode ends in a valid environment state with a well-shaped table |
| ExperimentLoop.StepsUnfold | rust/src/experiment.rs:103-118 | pass n is nothing after the break and one more Step otherwise |
| ExperimentLoop.StepsNext | python3/experiment.py:75-84 | before the break one more pass is one more Step |
| ExperimentLoop.StepsStayDone | rust/src/experiment.rs:115-117 | after the break further passes change nothing |
| ExperimentLoop.StepsCount | rust/src/experiment.rs:103-118 | rust/src adds one record per step, python3 one reward; at least one step, fewer than n only after a done step |
| ExperimentLoop.RustEpisodeShape | rust/src/experiment.rs:93-118 | the reset record with the first choice, then 1 to max_step records, fewer only on a done state |
| ExperimentLoop.Python3EpisodeShape | python3/experiment.py:68-86 | no records, and 1 to max_step rewards, fewer only on a done state |
| ExperimentLoop.RustFirstStepRunsFirstChoice | rust/src/experiment.rs:97-105 | the first step executes the action chosen at the reset |
| ExperimentLoop.StepsFirstRecord | rust/src/experiment.rs:104-111 | the first record added holds the pending action |
| ExperimentLoop.StepLearnsOneCell | rust/src/experiment.rs:109 | only the cell (s1, a1) can change, no terminal row is zeroed, and python3 passes action 0 as a2 |
| ExperimentLoop.FrozenStep | rust/src/experiment.rs:123-125 | with alpha 0 a step leaves the table as it was |
| ExperimentLoop.FrozenStepsKeepTable | python3/experiment.py:45-48 | a test episode leaves the table as it was |
| ExperimentLoop.TrainStep | rust/src/experiment.rs:75-86 | one pass of run records one return and one outcome |
| ExperimentLoop.Train | rust/src/experiment.rs:73-88 | at most k returns, one per outcome |
| ExperimentLoop.TrainPass | python3/experiment.py:34-43 | pass k keeps the training's invariants |
| ExperimentLoop.Advance | python3/experiment.py:34-43 | an unbroken pass keeps the training's invariants |
| ExperimentLoop.TrainUnfold | rust/src/experiment.rs:74-87 | pass k is nothing after the break and one more TrainStep otherwise |
| ExperimentLoop.TrainNext | python3/experiment.py:34-43 | before the break one more pass is one more TrainStep |
| ExperimentLoop.TrainStayStopped | rust/src/experiment.rs:84-86 | after the break further passes change nothing |
| ExperimentLoop.StreakIsTrailingSuccesses | rust/src/experiment.rs:76-80 | the streak counts the trailing successes, and the outcome just before them failed |
| ExperimentLoop.TrainStreak | rust/src/experiment.rs:73-88 | training keeps the streak, breaks exactly when it reaches max_succeeded_episode, and runs fewer than k episodes only by that break |
| ExperimentLoop.TrainStepStreak | python3/experiment.py:35-43 | one pass adds its outcome to the streak and takes the break test on it |
| ExperimentLoop.ZeroStreakRunsOneEpisode | rust/src/experiment.rs:84-86 | with max_succeeded_episode 0 exactly one episode runs |
| ExperimentLoop.EnvObject.constructor | rust/src/experiment.rs:37 | the environment object starts in its reset state |
| ExperimentLoop.RustExperiment.constructor | rust/src/experiment.rs:34-71 | a table of s_space by a_space filled with init_q, no returns, a streak of 0 |
| ExperimentLoop.RustExperiment.Begin | rust/src/experiment.rs:93-101 | the start of an episode is Start |
| ExperimentLoop.RustExperiment.StepOnce | rust/src/experiment.rs:104-117 | the loop body computes Step |
| ExperimentLoop.RustExperiment.Pass | rust/src/experiment.rs:103-118 | pass i computes pass i + 1 of Steps, and after the break the whole loop |
| ExperimentLoop.RustExperiment.StepLoop | rust/src/experiment.rs:103-118 | the loop computes max_step passes of Steps |
| ExperimentLoop.RustExperiment.RunEpisode | rust/src/experiment.rs:90-121 | the history and success flag are those of Episode |
| ExperimentLoop.RustExperiment.RunAndRecord | rust/src/experiment.rs:75-86 | one pass of run, its break flag that of Train |
| ExperimentLoop.RustExperiment.Run | rust/src/experiment.rs:73-88 | the returns, streak, table and environment are those of Train |
| ExperimentLoop.RustExperiment.TestAndSave | rust/src/experiment.rs:123-130 | `fix`, then one episode; the table saved is the table as it was |
| ExperimentLoop.Python3Experiment.constructor | python3/experiment.py:10-30 | a table of s_space by a_space filled with init_q, no returns, a streak of 0 |
| ExperimentLoop.Python3Experiment.Begin | python3/experiment.py:68-74 | the start of an episode is Start |
| ExperimentLoop.Python3Experiment.StepOnce | python3/experiment.py:76-84 | the loop body computes Step, and the total adds up its rewards |
| ExperimentLoop.Python3Experiment.Pass | python3/experiment.py:75-84 | pass i computes pass i + 1 of Steps |
| ExperimentLoop.Python3Experiment.StepLoop | python3/experiment.py:75-84 | the loop computes max_step passes of Steps |
| ExperimentLoop.Python3Experiment.RunEpisode | python3/experiment.py:58-86 | the total and success flag are those of Episode |
| ExperimentLoop.Python3Experiment.RunAndRecord | python3/experiment.py:35-43 | one pass of run, its break flag that of Train |
| ExperimentLoop.Python3Experiment.Run | python3/experiment.py:32-43 | the returns, streak, table and environment are those of Train |
| ExperimentLoop.Python3Experiment.TestAndSave | python3/experiment.py:45-50 | `fix`, then one episode; the table is left as it was |
| FixedEpisode.Env.constructor | c_clang_sfmt/experiment.c:51 | the cartpole in its initial state |
| FixedEpisode.Env.Reset | c_clang_sfmt/experiment.c:101 | the initial state again |
| FixedEpisode.Env.Step | c_clang_sfmt/experiment.c:111 | one integration step under the force |
| FixedEpisode.Choose | c_clang_sfmt/experiment.c:110 | one of the agent's actions |
| FixedEpisode.Start | c_clang_sfmt/experiment.c:95-102 | nothing stored yet |
| FixedEpisode.Step | c_clang_sfmt/experiment.c:104-117 | the loop stays ready |
| FixedEpisode.Steps | go/experiment.go:55-77 | n passes store exactly n slots |
| FixedEpisode.StepsTrail | c_clang_sfmt/experiment.c:104-117 | the first new slot holds the starting loop variables, earlier slots stay, and each entry of the trail is one step on from the one before |
| FixedEpisode.StepsUnfold | c_clang_sfmt/experiment.c:104-117 | pass n is one more Step |
| FixedEpisode.Episode | c_clang_sfmt/experiment.c:90-122 | an episode stores exactly n slots |
| FixedEpisode.EpisodeRecords | c_clang_sfmt/experiment.c:98-116 | slot 0 is the initial state with action 0.0 and reward 0.0, and slot k + 1 holds the state, action and reward of step k |
| FixedEpisode.ReturnSkipsLastStep | c_clang_sfmt/experiment.c:74-77 | adding the last step's reward, never stored, gives the sum over all n steps |
| FixedEpisode.SumAtMost | pypy3/experiment.py:20-27 | values at most b add up to at most b times their number |
| FixedEpisode.ReturnAtMost | c_clang_sfmt/experiment.c:71-79 | when no state earns more than b, an episode's kept sum is at most (n - 1) * b |
| FixedEpisode.TrailReturnAtMost | ruby/experiment.rb:41-64 | on a linked trail starting with reward 0, the stored rewards add up to at most b times one less than their number |
| FixedEpisode.StepLearnsOneCell | c_clang_sfmt/experiment.c:114 | only the cell of (s, a) changes, toward r plus gamma times the best value of the new state's row |
| FixedEpisode.FrozenStepsKeepTable | c_clang_sfmt/experiment.c:84-88 | with alpha 0 the steps leave the table as it was |
| FixedEpisode.Train | c_clang_sfmt/experiment.c:57-82 | one return per episode |
| FixedEpisode.TrainReturnsAtMost | go/experiment.go:35-47 | when no state earns more than b, each kept return is at most (n - 1) * b |
| FixedEpisode.AddRewards | c_clang_sfmt/experiment.c:74-77 | only the episode's slot changes, by the sum of its rewards |
| FixedEpisode.Experiment.constructor | c_clang_sfmt/experiment.c:44-55 | steps_num is fps * 10 |
| FixedEpisode.Experiment.StepOnce | c_clang_sfmt/experiment.c:110-116 | the step body computes Step |
| FixedEpisode.Experiment.Pass | c_clang_sfmt/experiment.c:105-116 | storing slot i, then one Step, gives pass i + 1 of Steps |
| FixedEpisode.Experiment.OneEpisode | c_clang_sfmt/experiment.c:90-122 | the stored slots, table, cartpole and stream are those of Episode |
| FixedEpisode.Experiment.Run | c_clang_sfmt/experiment.c:57-82 | the returns, table, cartpole and stream are those of Train |
| FixedEpisode.Experiment.Test | c_clang_sfmt/experiment.c:84-88 | learning and exploring off, then one episode, and the table untouched |

## Left out

- The equations of motion and their Runge-Kutta/Euler integration (cartpole and pendulum) are a parameter. They are floating point, and the model keeps only the action lookup and the angle renormalisation around them.
- The pypy3 and python3 pendulum derivative reads `self._s` instead of its argument (pypy3/environment/pendulum.py:104-119, python3/environment/pendulum.py:97-106). This is part of the integration, so it is not modelled.
- IEEE-754 doubles: every quantity is an exact real. Rounding, NaN and infinity are not modelled. The one exception is Rust's NaN/minus-infinity fold seed, modelled as a value below every entry.
- Random number generation (`rand`, SFMT, `random.random`) is a stream of draws passed in. The random branch reduces pick modulo the action count.
- File and configuration I/O are not modelled. This covers:
  - reading the config and the maze file, for which the model takes the maze lines or string as given;
  - saving the returns, histories and Q-tables;
  - loading a Q-table;
  - the `%.15f` and `{:.15f}` formatting of cartpole and pendulum info strings.
- C memory management: `malloc`/`realloc` failure, `free`, and which structure owns a state array. `Histories.Buffer.Push` always succeeds.
- Entry points, runners, `_tools` and `_plotter` are not modelled.
- ConfigMaze.Maze.constructor requires at least one line, because the width is read from the first. Rows of other lengths are handled as the source's cell reads allow: `HasCell` guards each read.
- ExperimentMaze.Maze.constructor requires the string to hold height * width characters. Where it is shorter the source fails; `ExperimentMaze.ParseMaze` models that failure as None.
- ExperimentLoop.Python3Experiment: python3's experiment calls `is_done(s)` and `is_success(s)` with a state index. Only the maze accepts it (python3/environment/maze.py:108-118); the cartpole (python3/environment/cartpole.py:158-165) and pendulum (python3/environment/pendulum.py:115-122) take no argument. The model asks the environment about its current state, which `ExperimentMaze.DoneAtStateIsDone` shows is the same for the maze.
- Python negative indexing and Rust `usize` arithmetic are not modelled. A position off the grid is never read for a cell, as `ConfigMaze.OpenCellIsInterior` and `ExperimentMaze.OpenCellIsInterior` show for walled mazes.
- Go's first-generation experiment resets the cartpole in `Run` and `Test` rather than in `oneEpisode`. The model resets in the episode, which gives the same states.
- FixedEpisode.Experiment.constructor takes episodes_num as a parameter. It is 20000000 in c_clang_sfmt and go and 10000000 in pypy3 and ruby.
- Python3 `History` is modelled by `Histories.History`. Its `save` is file I/O.
- ExperimentLoop.Python3Experiment.TestAndSave: python3's `test_and_save` calls `self.env.save_history(path)` (python3/experiment.py:49), which no python3 environment defines. So it fails before `self.q_table.save` on the next line, and python3 saves neither a history nor a table. The model stops after the episode; saving is file I/O either way.
- Runtime-typed agents (Python's duck typing, Rust trait objects) are one `Agents.Agent` class dispatching on an algorithm tag, as C_GCC's function pointers do.

## Findings

| source | as written | input that shows it | evidently intended | confidence | as-written member | corrected member |
|---|---|---|---|---|---|---|
| python3/agent.py:85-91, ruby/agent.rb:91-100 | `argmax` never updates `max_val`, so it returns the last index whose entry exceeds entry 0 | row [0, 2, 1] gives 2, not 1 | the first index of the maximum, as c_clang and go compute it | not executed; harmless on the two-action rows the first generation uses (CartpoleAgent.ArgMaxAsWrittenAgreesOnPairs) | CartpoleAgent.ArgMaxAsWrittenMissesMaximum | Agents.ArgMax |
| python3/agent.py:44-51 | `learn` computes the bootstrap row with `get_s_idx(s)`, so snext is unused | rows [5, 5] and [0, 0], reward 5, gamma 1, alpha 1/2: cell (0, 0) already at its target 5 becomes 7.5 | bootstrap from the row of snext, as the other first-generation ports do | not executed | CartpoleAgent.LearnAsWrittenMovesConsistentCell | CartpoleAgent.IntendedLearnKeepsConsistentCell |
| C_GCC/rl.c:120-123 | after the episodes, a second loop writes the last episode's return into every slot | returns 1 and 2 are reported as 2 and 2 | one return per episode, as Rust_rustc `run` keeps them | not executed | RlLoop.OverwriteLosesEarlierReturns | RlLoop.Rl.Run |
