/**
 * Renormalisation of the pole angle after each integration step.
 *
 * Three spellings occur in the repository:
 *   - `(theta + 3 pi) mod 2 pi - pi` with a floored remainder
 *     (Python3_PyPy3 and Ruby_MRI_JIT cartpoles);
 *   - `(theta + pi) mod 2 pi - pi` with a floored remainder
 *     (python3 cartpole, python3 and pypy3 pendulums);
 *   - `(theta + 3 pi) mod 2 pi - pi` with a truncated remainder
 *     (`fmod` in C_GCC, `math.Mod` in Go_go, `%` on f64 in both Rust trees).
 * All three return an angle equal to theta up to whole turns; the floored ones
 * always land in [-pi, pi), the truncated one only when theta >= -3 pi.
 */
module Angles {
  import opened RealMath

  /** The double closest to pi, as `M_PI`, `math.Pi` and `f64::consts::PI` give it. */
  const Pi: real := 3.141592653589793

  const TwoPi: real := 2.0 * Pi

  /** d is a whole number of turns. */
  ghost predicate WholeTurns(d: real) {
    (d / TwoPi).Floor as real == d / TwoPi
  }

  /** Floored `(theta + 3 pi) mod 2 pi - pi`. */
  function NormalizeFloor3Pi(theta: real): (r: real)
    ensures -Pi <= r < Pi
    ensures WholeTurns(theta - r)
  {
    var x := theta + 3.0 * Pi;
    var f := (x / TwoPi).Floor;
    assert (theta - (FlooredMod(x, TwoPi) - Pi)) / TwoPi == (f - 1) as real;
    FlooredMod(x, TwoPi) - Pi
  }

  /** Floored `(theta + pi) mod 2 pi - pi`. */
  function NormalizeFloorPi(theta: real): (r: real)
    ensures -Pi <= r < Pi
    ensures WholeTurns(theta - r)
  {
    var x := theta + Pi;
    var f := (x / TwoPi).Floor;
    assert (theta - (FlooredMod(x, TwoPi) - Pi)) / TwoPi == f as real;
    FlooredMod(x, TwoPi) - Pi
  }

  /** Truncated `(theta + 3 pi) mod 2 pi - pi`, as `fmod` computes it. */
  function NormalizeTrunc3Pi(theta: real): (r: real)
    ensures theta >= -3.0 * Pi ==> -Pi <= r < Pi
    ensures theta < -3.0 * Pi ==> -3.0 * Pi < r <= -Pi
    ensures WholeTurns(theta - r)
  {
    var x := theta + 3.0 * Pi;
    var t := Trunc(x / TwoPi);
    assert (theta - (TruncMod(x, TwoPi) - Pi)) / TwoPi == (t - 1) as real;
    TruncMod(x, TwoPi) - Pi
  }

  /** How the angle is brought back after a step, one constructor per spelling. */
  datatype Normalization =
    | FlooredPlus3Pi
    | FlooredPlusPi
    | TruncatedPlus3Pi

  function Normalize(n: Normalization, theta: real): (r: real)
    ensures WholeTurns(theta - r)
    ensures n != TruncatedPlus3Pi || theta >= -3.0 * Pi ==> -Pi <= r < Pi
  {
    match n
    case FlooredPlus3Pi => NormalizeFloor3Pi(theta)
    case FlooredPlusPi => NormalizeFloorPi(theta)
    case TruncatedPlus3Pi => NormalizeTrunc3Pi(theta)
  }

  /** Whatever the spelling, an angle above -3 pi is normalised to the same value. */
  lemma NormalizationsAgree(n: Normalization, m: Normalization, theta: real)
    requires theta >= -3.0 * Pi
    ensures Normalize(n, theta) == Normalize(m, theta)
  {
    FlooredSpellingsAgree(theta);
    TruncatedAgreesAboveMinus3Pi(theta);
  }

  /** The `+3 pi` and `+pi` floored spellings compute the same angle. */
  lemma {:induction false} FlooredSpellingsAgree(theta: real)
    ensures NormalizeFloor3Pi(theta) == NormalizeFloorPi(theta)
  {
    FlooredModPeriodic(theta + Pi, TwoPi);
    assert theta + Pi + TwoPi == theta + 3.0 * Pi;
  }

  /** Above -3 pi the truncated spelling agrees with the floored ones. */
  lemma {:induction false} TruncatedAgreesAboveMinus3Pi(theta: real)
    requires theta >= -3.0 * Pi
    ensures NormalizeTrunc3Pi(theta) == NormalizeFloor3Pi(theta)
  {
    TruncModIsFlooredModWhenNonNegative(theta + 3.0 * Pi, TwoPi);
  }

  /** Below -3 pi the truncated spelling leaves [-pi, pi): -4 pi maps to -2 pi. */
  lemma TruncatedEscapesBelowMinus3Pi()
    ensures NormalizeTrunc3Pi(-4.0 * Pi) == -2.0 * Pi
    ensures NormalizeFloor3Pi(-4.0 * Pi) == 0.0
  {
    assert (-Pi / TwoPi).Floor == -1;
    assert Trunc(-Pi / TwoPi) == 0;
  }

  /** An angle already in [-pi, pi) is left unchanged. */
  lemma {:induction false} NormalizeFloorPiFixesReduced(theta: real)
    requires -Pi <= theta < Pi
    ensures NormalizeFloorPi(theta) == theta
  {
    FlooredModOfReduced(theta + Pi, TwoPi);
  }
}
