/** The deterministic right-hand side: drug A, plasmid copies P, mRNA M, efflux protein Q. */
module Odes {
  import opened Parameters

  /** A point (A, P, M, Q) of the state space, or a vector of its derivatives. */
  datatype State = State(A: real, P: real, M: real, Q: real)

  /** Host growth rate G(A) = G_max / (1 + (A/IC50)^h): at most G_max, equal to it
      without drug, and never negative. */
  function GrowthRate(A: real, p: Params, hill: Hill): (g: real)
    ensures p.G_max >= 0.0 ==> 0.0 <= g <= p.G_max
    ensures hill(A) == 0.0 ==> g == p.G_max
  {
    p.G_max * (1.0 / (1.0 + hill(A)))
  }

  /** More drug inhibition never speeds growth: G decreases as the Hill power grows. */
  lemma GrowthRateDecreasing(p: Params, hill: Hill, a1: real, a2: real)
    requires p.G_max >= 0.0
    requires hill(a1) <= hill(a2)
    ensures GrowthRate(a2, p, hill) <= GrowthRate(a1, p, hill)
  {
    var d1, d2 := 1.0 + hill(a1), 1.0 + hill(a2);
    var q1, q2 := 1.0 / d1, 1.0 / d2;
    assert q2 <= q1 by {
      assert q1 * d1 == 1.0 && q2 * d2 == 1.0 && q2 > 0.0;
      assert q2 * d1 <= q2 * d2;
      assert (q2 - q1) * d1 <= 0.0;
    }
    assert p.G_max * q1 - p.G_max * q2 == p.G_max * (q1 - q2);
    assert p.G_max * (q1 - q2) >= 0.0;
  }

  /** Effective efflux E = E_h + beta * Q: intrinsic plus plasmid-borne pumps. */
  function Efflux(p: Params, q: real): (e: real)
    ensures q == 0.0 ==> e == p.E_h
    ensures p.beta >= 0.0 && q >= 0.0 ==> e >= p.E_h
    ensures p.beta > 0.0 && q > 0.0 ==> e > p.E_h
  {
    p.E_h + p.beta * q
  }

  /** The autonomous vector field (dA, dP, dM, dQ); time does not enter it. */
  function OdeSystem(p: Params, hill: Hill, y: State): (d: State)
    // logistic-damped plasmid growth: dP = P * (r_P G - c_P - gamma P)
    ensures d.P == y.P * (p.r_P * GrowthRate(y.A, p, hill) - p.c_P - p.gamma * y.P)
    // a plasmid-free cell makes no plasmid, mRNA or efflux protein
    ensures y.P == 0.0 ==> d.P == 0.0
    ensures y.P == 0.0 && y.M == 0.0 ==> d.M == 0.0
    ensures y.M == 0.0 && y.Q == 0.0 ==> d.Q == 0.0
    // without efflux protein only the intrinsic efflux removes drug
    ensures y.Q == 0.0 ==> d.A == p.k_in * p.A_ext - p.k_out * p.E_h * y.A
  {
    var E := Efflux(p, y.Q);
    var G := GrowthRate(y.A, p, hill);
    State(
      p.k_in * p.A_ext - p.k_out * E * y.A,
      p.r_P * G * y.P - p.c_P * y.P - p.gamma * y.P * y.P,
      p.k_m * y.P - p.delta_m * y.M,
      p.k_q * y.M - p.delta_q * y.Q)
  }

  /** With non-negative rates the vector field points into the non-negative
      orthant on each of its faces, so A, P, M and Q cannot turn negative. */
  lemma NonNegativeOrthantInvariant(p: Params, hill: Hill, y: State)
    requires NonNegativeRates(p)
    requires y.A >= 0.0 && y.P >= 0.0 && y.M >= 0.0 && y.Q >= 0.0
    ensures y.A == 0.0 ==> OdeSystem(p, hill, y).A >= 0.0
    ensures y.P == 0.0 ==> OdeSystem(p, hill, y).P >= 0.0
    ensures y.M == 0.0 ==> OdeSystem(p, hill, y).M >= 0.0
    ensures y.Q == 0.0 ==> OdeSystem(p, hill, y).Q >= 0.0
  {
    var d := OdeSystem(p, hill, y);
    if y.A == 0.0 {
      assert p.k_out * Efflux(p, y.Q) * y.A == 0.0;
      assert p.k_in * p.A_ext >= 0.0;
    }
    if y.M == 0.0 {
      assert p.k_m * y.P >= 0.0;
    }
    if y.Q == 0.0 {
      assert p.k_q * y.M >= 0.0;
    }
  }
}
