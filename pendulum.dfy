/**
 * The inverted pendulum of the experiment generation (python3, pypy3,
 * rust/src): an angle and its rate, two reserved-bin discretisations
 * composed into one state index, a reward that favours the upright
 * position, and an episode that is never done and never succeeds.
 *
 * The equations of motion and their integration are a parameter
 * (`integrate`); a step keeps the action lookup and the renormalisation
 * of the angle.
 */
module Pendulum {
  import opened RealMath
  import opened Discretize
  import Angles
  import Environments

  datatype PendState = PendState(theta: real, thetadot: real)

  /** python3 and pypy3 start hanging down: (pi, 0). */
  const HangingInit: PendState := PendState(Angles.Pi, 0.0)
  /** rust/src starts at (pi/3, 0). */
  const TiltedInit: PendState := PendState(Angles.Pi / 3.0, 0.0)

  /** What configures one pendulum. */
  datatype Params = Params(
    actions: seq<real>,
    thetaAxis: Axis,
    thetadotAxis: Axis,
    init: PendState,
    norm: Angles.Normalization,                    // FlooredPlusPi in Python, TruncatedPlus3Pi in Rust
    integrate: (PendState, real) -> PendState,     // one Runge-Kutta step under torque u, before renormalisation
    show: PendState -> string)                     // the "%.15f,%.15f" info string

  predicate ParamsOk(p: Params) {
    |p.actions| > 0 && AxisOk(p.thetaAxis) && AxisOk(p.thetadotAxis)
  }

  /** `s_space`: theta_space * thetadot_space. */
  function StateSize(p: Params): nat {
    p.thetaAxis.num * p.thetadotAxis.num
  }

  function ThetaBin(p: Params, s: PendState): nat
    requires ParamsOk(p)
  {
    Digitize(p.thetaAxis.lo, p.thetaAxis.hi, p.thetaAxis.num, s.theta)
  }

  function ThetadotBin(p: Params, s: PendState): nat
    requires ParamsOk(p)
  {
    Digitize(p.thetadotAxis.lo, p.thetadotAxis.hi, p.thetadotAxis.num, s.thetadot)
  }

  /**
   * `s`: theta_idx * thetadot_space + thetadot_idx. It is a row of the
   * Q-table, and the two bin indices are read back from it by / and %.
   */
  function StateIndex(p: Params, s: PendState): (k: nat)
    requires ParamsOk(p)
    ensures k < StateSize(p)
    ensures k / p.thetadotAxis.num == ThetaBin(p, s) && k % p.thetadotAxis.num == ThetadotBin(p, s)
  {
    PendulumIndexInRange(ThetaBin(p, s), ThetadotBin(p, s), p.thetaAxis.num, p.thetadotAxis.num);
    PendulumIndex(ThetaBin(p, s), ThetadotBin(p, s), p.thetadotAxis.num)
  }

  /** Two states share a row exactly when they share both bins. */
  lemma SameRowIffSameBins(p: Params, s: PendState, t: PendState)
    requires ParamsOk(p)
    ensures StateIndex(p, s) == StateIndex(p, t) <==>
              ThetaBin(p, s) == ThetaBin(p, t) && ThetadotBin(p, s) == ThetadotBin(p, t)
  {
  }

  /** `r`: -|theta| + pi/2. */
  function Reward(s: PendState): real {
    -Abs(s.theta) + Angles.Pi / 2.0
  }

  /**
   * The reward never exceeds pi/2 and reaches it exactly when the pendulum
   * is upright; for a normalised angle it is at least -pi/2.
   */
  lemma RewardBounds(s: PendState)
    ensures Reward(s) <= Angles.Pi / 2.0
    ensures Reward(s) == Angles.Pi / 2.0 <==> s.theta == 0.0
    ensures -Angles.Pi <= s.theta < Angles.Pi ==> Reward(s) >= -Angles.Pi / 2.0
  {
  }

  /** `_normalize_s`: the angle is renormalised, the rate is kept. */
  function NormalizeS(n: Angles.Normalization, s: PendState): (t: PendState)
    ensures t.thetadot == s.thetadot
    ensures Angles.WholeTurns(s.theta - t.theta)
    ensures n != Angles.TruncatedPlus3Pi || s.theta >= -3.0 * Angles.Pi ==> -Angles.Pi <= t.theta < Angles.Pi
  {
    s.(theta := Angles.Normalize(n, s.theta))
  }

  /** A state whose angle is already in [-pi, pi) is left alone by the Python spelling. */
  lemma NormalizeSFixesReduced(s: PendState)
    requires -Angles.Pi <= s.theta < Angles.Pi
    ensures NormalizeS(Angles.FlooredPlusPi, s) == s
  {
    Angles.NormalizeFloorPiFixesReduced(s.theta);
  }

  /** `run_step(a)`: torque `actions[a]`, one integration step, the angle renormalised. */
  function Next(p: Params, s: PendState, a: nat): PendState
    requires a < |p.actions|
  {
    NormalizeS(p.norm, p.integrate(s, p.actions[a]))
  }

  /** The pendulum behind the experiment generation's interface: never done, never successful. */
  function Env(p: Params): (env: Environments.ExperimentEnv<PendState>)
    requires ParamsOk(p)
    ensures env.stateSize == StateSize(p) && env.actionSize == |p.actions| && env.reset == p.init
    ensures forall s :: !env.isDone.requires(s) || !env.isDone(s)
    ensures forall s :: !env.isSuccess.requires(s) || !env.isSuccess(s)
  {
    Environments.ExperimentEnv(
      StateSize(p), |p.actions|, _ => true, p.init,
      (s: PendState, a: nat) requires a < |p.actions| => Next(p, s, a),
      s => StateIndex(p, s),
      s => Reward(s),
      p.show,
      _ => false,
      _ => false)
  }

  lemma EnvValid(p: Params)
    requires ParamsOk(p)
    ensures Environments.ExperimentEnvValid(Env(p))
  {
  }

  class Pendulum {
    const params: Params
    var s: PendState
    /** rust/src keeps the last angular acceleration; it is only ever set to 0. */
    var lastThetaddot: real

    constructor (params: Params)
      requires ParamsOk(params)
      ensures this.params == params && s == params.init && lastThetaddot == 0.0
    {
      this.params := params;
      s := params.init;
      lastThetaddot := 0.0;
    }

    /** `reset`: back to the initial state, and in rust/src the last acceleration cleared. */
    method Reset()
      modifies this
      ensures s == params.init && lastThetaddot == 0.0
    {
      s := params.init;
      lastThetaddot := 0.0;
    }

    /** `run_step(a)`: indexing `actions[a]` requires a valid action. */
    method RunStep(a: nat)
      requires a < |params.actions|
      modifies this
      ensures s == Next(params, old(s), a) && lastThetaddot == old(lastThetaddot)
    {
      var u := params.actions[a];
      s := NormalizeS(params.norm, params.integrate(s, u));
    }
  }
}
