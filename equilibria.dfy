/** The drug level of the plasmid-free steady state and the plasmid's invasion rate there. */
module Equilibria {
  import opened Parameters
  import opened Odes

  /** A* = k_in A_ext / (k_out E_h): influx balances intrinsic efflux. When
      k_out E_h is zero there is no balancing efflux and the value is 0. */
  function PlasmidFreeEquilibrium(p: Params): (aStar: real)
    ensures p.k_out * p.E_h != 0.0 ==> aStar * (p.k_out * p.E_h) == p.k_in * p.A_ext
    ensures p.k_out * p.E_h == 0.0 ==> aStar == 0.0
    ensures NonNegativeRates(p) ==> aStar >= 0.0
  {
    var a := p.k_in * p.A_ext;
    var b := p.k_out * p.E_h;
    if b != 0.0 then a / b else 0.0
  }

  /** (A*, 0, 0, 0) is a rest point of the vector field whenever k_out E_h is non-zero. */
  lemma PlasmidFreeEquilibriumIsRestPoint(p: Params, hill: Hill)
    requires p.k_out * p.E_h != 0.0
    ensures OdeSystem(p, hill, State(PlasmidFreeEquilibrium(p), 0.0, 0.0, 0.0)) == State(0.0, 0.0, 0.0, 0.0)
  {
    var aStar := PlasmidFreeEquilibrium(p);
    var d := OdeSystem(p, hill, State(aStar, 0.0, 0.0, 0.0));
    assert d.A == p.k_in * p.A_ext - aStar * (p.k_out * p.E_h);
  }

  /** The drug balance at A* holds for every plasmid state that carries no efflux
      protein: dA vanishes at A = A*, Q = 0. */
  lemma EquilibriumZeroesDrugFlux(p: Params, hill: Hill, P: real, M: real)
    requires p.k_out * p.E_h != 0.0
    ensures OdeSystem(p, hill, State(PlasmidFreeEquilibrium(p), P, M, 0.0)).A == 0.0
  {
    var aStar := PlasmidFreeEquilibrium(p);
    assert p.k_out * p.E_h * aStar == aStar * (p.k_out * p.E_h);
  }

  /** With drug influx but no efflux the fallback value 0 is not a rest point:
      dA at A = 0 is the full influx k_in A_ext. */
  lemma FallbackIsNotRestPoint(p: Params, hill: Hill)
    requires p.k_out * p.E_h == 0.0 && p.k_in * p.A_ext != 0.0
    ensures OdeSystem(p, hill, State(PlasmidFreeEquilibrium(p), 0.0, 0.0, 0.0)).A == p.k_in * p.A_ext
    ensures OdeSystem(p, hill, State(PlasmidFreeEquilibrium(p), 0.0, 0.0, 0.0)).A != 0.0
  {
    assert PlasmidFreeEquilibrium(p) == 0.0;
  }

  /** lambda_P = r_P G(A*) - c_P, the per-copy growth rate of a rare plasmid at the
      plasmid-free equilibrium; it lies between -c_P and r_P G_max - c_P. */
  function InvasionEigenvalue(p: Params, hill: Hill): (lambda: real)
    ensures p.r_P >= 0.0 && p.G_max >= 0.0 ==> -p.c_P <= lambda <= p.r_P * p.G_max - p.c_P
  {
    var aStar := PlasmidFreeEquilibrium(p);
    var gStar := GrowthRate(aStar, p, hill);
    p.r_P * gStar - p.c_P
  }

  /** At A = A*, the plasmid equation is dP = lambda_P P - gamma P^2: lambda_P is the
      linearisation of dP at P = 0. */
  lemma InvasionEigenvalueLinearisesPlasmidRate(p: Params, hill: Hill, P: real, M: real, Q: real)
    ensures OdeSystem(p, hill, State(PlasmidFreeEquilibrium(p), P, M, Q)).P
            == P * InvasionEigenvalue(p, hill) - p.gamma * P * P
  {
    var g := GrowthRate(PlasmidFreeEquilibrium(p), p, hill);
    assert P * (p.r_P * g - p.c_P - p.gamma * P) == P * (p.r_P * g - p.c_P) - p.gamma * P * P;
  }

  /** Without drug influx A* = 0, so lambda_P takes its largest value r_P G_max - c_P. */
  lemma NoDrugInvasionEigenvalue(p: Params, hill: Hill)
    requires VanishesAtZero(hill)
    requires p.k_in * p.A_ext == 0.0
    ensures InvasionEigenvalue(p, hill) == p.r_P * p.G_max - p.c_P
  {
    assert PlasmidFreeEquilibrium(p) == 0.0 by {
      if p.k_out * p.E_h != 0.0 {
        assert PlasmidFreeEquilibrium(p) * (p.k_out * p.E_h) == 0.0;
      }
    }
  }
}
