/** Rates of the two discrete plasmid events at a state with integer copy number P. */
module Propensities {
  import opened Parameters
  import opened Odes

  /** Replication propensity r_P G(A) P; zero once no plasmid is left. */
  function A1(p: Params, hill: Hill, A: real, P: int): (a1: real)
    ensures P <= 0 ==> a1 == 0.0
    ensures NonNegativeRates(p) && P > 0 ==> 0.0 <= a1 <= p.r_P * p.G_max * (P as real)
    ensures P > 0 && hill(A) == 0.0 ==> a1 == p.r_P * p.G_max * (P as real)
  {
    if P <= 0 then 0.0
    else
      var G := GrowthRate(A, p, hill);
      var a := p.r_P * G * (P as real);
      assert NonNegativeRates(p) ==> a <= p.r_P * p.G_max * (P as real) by {
        if NonNegativeRates(p) {
          assert p.r_P * G <= p.r_P * p.G_max;
        }
      }
      a
  }

  /** Loss propensity c_P P + gamma P^2; zero once no plasmid is left. */
  function A2(p: Params, P: int): (a2: real)
    ensures P <= 0 ==> a2 == 0.0
    ensures P > 0 && p.c_P >= 0.0 && p.gamma >= 0.0 ==> a2 >= 0.0
    ensures P > 0 && p.c_P >= 0.0 && p.gamma >= 0.0 && (p.c_P > 0.0 || p.gamma > 0.0) ==> a2 > 0.0
  {
    if P <= 0 then 0.0
    else
      var x := P as real;
      assert p.c_P >= 0.0 && p.gamma >= 0.0 ==> p.gamma * x * x >= 0.0 && p.c_P * x >= 0.0;
      assert p.c_P > 0.0 ==> p.c_P * x > 0.0;
      assert p.gamma > 0.0 ==> p.gamma * x * x > 0.0 by {
        if p.gamma > 0.0 { assert p.gamma * x > 0.0; }
      }
      p.c_P * x + p.gamma * x * x
  }

  /** The two propensities are never negative, and their total vanishes at a
      living state only when every rate of the plasmid equation is switched off. */
  lemma TotalPropensityZero(p: Params, hill: Hill, A: real, P: int)
    requires NonNegativeRates(p)
    ensures A1(p, hill, A, P) >= 0.0 && A2(p, P) >= 0.0
    ensures A1(p, hill, A, P) + A2(p, P) == 0.0 ==>
              P <= 0 || (p.c_P == 0.0 && p.gamma == 0.0 && p.r_P * GrowthRate(A, p, hill) == 0.0)
  {
    if P > 0 && A1(p, hill, A, P) + A2(p, P) == 0.0 {
      var G := GrowthRate(A, p, hill);
      assert A1(p, hill, A, P) == (p.r_P * G) * (P as real);
    }
  }

  /** The mean jump rate A1 - A2 of the copy number equals the deterministic dP at
      the same state: the jump process and the ODE share one drift. */
  lemma DriftMatchesOde(p: Params, hill: Hill, A: real, P: int, M: real, Q: real)
    requires P > 0
    ensures A1(p, hill, A, P) - A2(p, P) == OdeSystem(p, hill, State(A, P as real, M, Q)).P
  {
    var x := P as real;
    var G := GrowthRate(A, p, hill);
    assert x * (p.r_P * G - p.c_P - p.gamma * x) == p.r_P * G * x - (p.c_P * x + p.gamma * x * x);
  }
}
