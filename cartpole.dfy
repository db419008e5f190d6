/**
 * The cartpole environment of the config and experiment generations
 * (C_GCC, Go_go, Rust_rustc, Python3_PyPy3, Ruby_MRI_JIT, rust/src,
 * python3): a cart position x, a pole angle theta and their rates, four
 * reserved-bin discretisations composed into one state index, a reward that
 * punishes leaving [-2, 2] and favours an upright pole, and an episode that
 * never finishes by itself.
 *
 * The equations of motion and their Runge-Kutta integration are a parameter
 * (`integrate`); what the model keeps of a step is the action lookup and the
 * renormalisation of the angle, which each port spells differently.
 */
module Cartpole {
  import opened RealMath
  import opened Discretize
  import Angles
  import Environments

  datatype CartState = CartState(x: real, theta: real, xdot: real, thetadot: real)

  /** `init_state`: the cart at 0 with the pole hanging down (theta = pi), at rest. */
  const InitState: CartState := CartState(0.0, Angles.Pi, 0.0, 0.0)

  /**
   * The reward: `penalty` when the cart is more than 2 from the centre,
   * otherwise -|theta| + pi/2 - coefficient * |x|.
   */
  datatype RewardRule = RewardRule(penalty: real, coefficient: real)

  /** C_GCC, Go_go, Rust_rustc, Python3_PyPy3 and Ruby_MRI_JIT. */
  const CommonReward: RewardRule := RewardRule(-2.0, 0.01)
  /** rust/src. */
  const HeavyPenaltyReward: RewardRule := RewardRule(-100.0, 0.01)
  /** python3. */
  const LightCoefficientReward: RewardRule := RewardRule(-2.0, 0.001)

  function Reward(rule: RewardRule, s: CartState): real {
    if Abs(s.x) > 2.0 then rule.penalty
    else -Abs(s.theta) + Angles.Pi / 2.0 - rule.coefficient * Abs(s.x)
  }

  /**
   * Off the track the reward is the penalty. On it, the reward never
   * exceeds pi/2 and reaches it exactly with the pole upright at the centre;
   * with the angle in [-pi, pi) it is above -pi/2 - 2 * coefficient.
   */
  lemma {:induction false} RewardBounds(rule: RewardRule, s: CartState)
    requires rule.coefficient > 0.0
    ensures Abs(s.x) > 2.0 ==> Reward(rule, s) == rule.penalty
    ensures Abs(s.x) <= 2.0 ==> Reward(rule, s) <= Angles.Pi / 2.0
    ensures Abs(s.x) <= 2.0 ==> (Reward(rule, s) == Angles.Pi / 2.0 <==> s.x == 0.0 && s.theta == 0.0)
    ensures Abs(s.x) <= 2.0 && -Angles.Pi <= s.theta < Angles.Pi ==>
              Reward(rule, s) >= -Angles.Pi / 2.0 - 2.0 * rule.coefficient
  {
    if Abs(s.x) <= 2.0 {
      var m := rule.coefficient * Abs(s.x);
      PositionTermBounds(rule.coefficient, Abs(s.x));
      assert Reward(rule, s) == -Abs(s.theta) + Angles.Pi / 2.0 - m;
      if -Angles.Pi <= s.theta < Angles.Pi {
        assert -Abs(s.theta) >= -Angles.Pi;
      }
    }
  }

  /** The position term coefficient * |x| on the track lies in [0, 2 * coefficient] and is 0 only at the centre. */
  lemma PositionTermBounds(c: real, ax: real)
    requires c > 0.0 && 0.0 <= ax <= 2.0
    ensures 0.0 <= c * ax <= 2.0 * c
    ensures c * ax == 0.0 <==> ax == 0.0
  {
    MulMonoLe(0.0, ax, c);
    MulMonoLe(ax, 2.0, c);
    if ax > 0.0 {
      MulMonoLt(0.0, ax, c);
    }
  }

  /** What configures one cartpole. */
  datatype Params = Params(
    actions: seq<real>,
    axes: seq<Axis>,          // x, theta, x-dot, theta-dot
    rule: RewardRule,
    norm: Angles.Normalization,
    integrate: (CartState, real) -> CartState,  // one Runge-Kutta step under force u, before renormalisation
    show: CartState -> string)                  // the "%.15f,%.15f,%.15f,%.15f" info string

  ghost predicate ParamsOk(p: Params) {
    |p.actions| > 0 && |p.axes| == 4 && forall i :: 0 <= i < 4 ==> AxisOk(p.axes[i])
  }

  /** `state_size`: the product of the four bin counts. */
  function StateSize(p: Params): nat
    requires |p.axes| == 4
  {
    p.axes[0].num * p.axes[1].num * p.axes[2].num * p.axes[3].num
  }

  /** The four bin indices of a state. */
  function Bins(p: Params, s: CartState): (b: seq<nat>)
    requires ParamsOk(p)
    ensures |b| == 4 && forall i :: 0 <= i < 4 ==> b[i] < p.axes[i].num
  {
    var ax := p.axes;
    assert AxisOk(ax[0]) && AxisOk(ax[1]) && AxisOk(ax[2]) && AxisOk(ax[3]);
    [Digitize(ax[0].lo, ax[0].hi, ax[0].num, s.x), Digitize(ax[1].lo, ax[1].hi, ax[1].num, s.theta),
     Digitize(ax[2].lo, ax[2].hi, ax[2].num, s.xdot), Digitize(ax[3].lo, ax[3].hi, ax[3].num, s.thetadot)]
  }

  /** `state` / `s`: ((x * theta_size + theta) * xdot_size + xdot) * thetadot_size + thetadot, a row of the Q-table. */
  function StateIndex(p: Params, s: CartState): (k: nat)
    requires ParamsOk(p)
    ensures k < StateSize(p)
  {
    var b := Bins(p, s);
    CartpoleIndexInRange(b[0], b[1], b[2], b[3], p.axes[0].num, p.axes[1].num, p.axes[2].num, p.axes[3].num);
    CartpoleIndex(b[0], b[1], b[2], b[3], p.axes[1].num, p.axes[2].num, p.axes[3].num)
  }

  /** Two states share a Q-table row exactly when they fall in the same four bins. */
  lemma SameRowIffSameBins(p: Params, s: CartState, t: CartState)
    requires ParamsOk(p)
    ensures StateIndex(p, s) == StateIndex(p, t) <==> Bins(p, s) == Bins(p, t)
  {
    var b, c := Bins(p, s), Bins(p, t);
    if StateIndex(p, s) == StateIndex(p, t) {
      CartpoleIndexInjective(b[0], b[1], b[2], b[3], c[0], c[1], c[2], c[3], p.axes[1].num, p.axes[2].num, p.axes[3].num);
      assert b == c;
    }
  }

  /**
   * The state index depends monotonically on x: with the other three
   * components fixed, moving the cart right never lowers the row.
   */
  lemma {:induction false} StateIndexMonotoneInX(p: Params, s: CartState, x': real)
    requires ParamsOk(p) && s.x <= x'
    ensures StateIndex(p, s) <= StateIndex(p, s.(x := x'))
  {
    var t := s.(x := x');
    var b, c := Bins(p, s), Bins(p, t);
    var ax := p.axes;
    assert AxisOk(ax[0]);
    DigitizeMonotone(ax[0].lo, ax[0].hi, ax[0].num, s.x, x');
    assert b[0] <= c[0] && b[1] == c[1] && b[2] == c[2] && b[3] == c[3];
    IndexMonotoneInLeading(b[0], c[0], b[1], b[2], b[3], ax[1].num, ax[2].num, ax[3].num);
  }

  lemma {:induction false} IndexMonotoneInLeading(x: nat, x': nat, t: nat, xd: nat, td: nat, ts: nat, xds: nat, tds: nat)
    requires x <= x'
    ensures CartpoleIndex(x, t, xd, td, ts, xds, tds) <= CartpoleIndex(x', t, xd, td, ts, xds, tds)
  {
    MulMonoNat(x, x', ts);
    MulMonoNat(x * ts + t, x' * ts + t, xds);
    MulMonoNat((x * ts + t) * xds + xd, (x' * ts + t) * xds + xd, tds);
  }

  lemma MulMonoNat(a: nat, b: nat, m: nat)
    requires a <= b
    ensures a * m <= b * m
  {
  }

  /** `run_step(a)`: force `actions[a]`, one integration step, then the angle renormalised. */
  function Next(p: Params, s: CartState, a: nat): (t: CartState)
    requires a < |p.actions|
  {
    var raw := p.integrate(s, p.actions[a]);
    raw.(theta := Angles.Normalize(p.norm, raw.theta))
  }

  /**
   * A step changes the integrated angle only by whole turns and leaves the
   * other components alone; the result lies in [-pi, pi) except for the
   * truncated spelling below -3 pi.
   */
  lemma NextNormalizesOnlyTheta(p: Params, s: CartState, a: nat)
    requires a < |p.actions|
    ensures var raw := p.integrate(s, p.actions[a]);
            var t := Next(p, s, a);
            && t.x == raw.x && t.xdot == raw.xdot && t.thetadot == raw.thetadot
            && Angles.WholeTurns(raw.theta - t.theta)
            && (p.norm != Angles.TruncatedPlus3Pi || raw.theta >= -3.0 * Angles.Pi ==> -Angles.Pi <= t.theta < Angles.Pi)
  {
  }

  /** The cartpole behind the config generation's interface: it never finishes. */
  function RlEnv(p: Params): (env: Environments.RlEnv<CartState>)
    requires ParamsOk(p)
    ensures env.stateSize == StateSize(p) && env.actionSize == |p.actions| && env.reset == InitState
    ensures forall s :: !env.isFinish.requires(s) || !env.isFinish(s)
  {
    Environments.RlEnv(
      StateSize(p), |p.actions|, _ => true, InitState,
      (s: CartState, a: nat) requires a < |p.actions| => Next(p, s, a),
      s => StateIndex(p, s),
      s => Reward(p.rule, s),
      p.show,
      _ => false)
  }

  /** The cartpole behind the experiment generation's interface: neither done nor successful, ever. */
  function ExperimentEnv(p: Params): (env: Environments.ExperimentEnv<CartState>)
    requires ParamsOk(p)
    ensures env.stateSize == StateSize(p) && env.actionSize == |p.actions| && env.reset == InitState
    ensures forall s :: !env.isDone.requires(s) || !env.isDone(s)
    ensures forall s :: !env.isSuccess.requires(s) || !env.isSuccess(s)
  {
    Environments.ExperimentEnv(
      StateSize(p), |p.actions|, _ => true, InitState,
      (s: CartState, a: nat) requires a < |p.actions| => Next(p, s, a),
      s => StateIndex(p, s),
      s => Reward(p.rule, s),
      p.show,
      _ => false,
      _ => false)
  }

  lemma EnvValid(p: Params)
    requires ParamsOk(p)
    ensures Environments.RlEnvValid(RlEnv(p))
    ensures Environments.ExperimentEnvValid(ExperimentEnv(p))
  {
  }

  class Cartpole {
    const params: Params
    var s: CartState

    /** Starts in the initial state. */
    constructor (params: Params)
      requires ParamsOk(params)
      ensures this.params == params && s == InitState
    {
      this.params := params;
      s := InitState;
    }

    /** `run_step(a)`: indexing `actions[a]` requires a valid action. */
    method RunStep(a: nat)
      requires a < |params.actions|
      modifies this
      ensures s == Next(params, old(s), a)
    {
      var u := params.actions[a];
      var raw := params.integrate(s, u);
      s := raw.(theta := Angles.Normalize(params.norm, raw.theta));
    }

    /** `reset`: a copy of the initial state. */
    method Reset()
      modifies this
      ensures s == InitState
    {
      s := InitState;
    }
  }
}
