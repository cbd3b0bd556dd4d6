/** Parameter sets of the plasmid/efflux model and the scenario overrides. */
module Parameters {

  /** A non-negative real, the range of the Hill power (A/IC50)^h. */
  type NonNegReal = r: real | r >= 0.0

  /** The Hill power A |-> (A/IC50)^h. Fractional powers are not available over
      `real`, so the model takes this term as a function; it depends only on
      IC50 and h, which no scenario overrides. */
  type Hill = real -> NonNegReal

  /** True of the Hill power of a drug-free cell: (0/IC50)^h == 0 for h > 0. */
  predicate VanishesAtZero(hill: Hill) {
    hill(0.0) == 0.0
  }

  /** The named coefficients of a parameter file. */
  datatype Params = Params(
    k_in: real, k_out: real, A_ext: real, E_h: real, beta: real,
    G_max: real, IC50: real, h: real,
    r_P: real, c_P: real, gamma: real,
    k_m: real, delta_m: real, k_q: real, delta_q: real)

  /** Every rate constant, the drug level and the efflux level are non-negative. */
  predicate NonNegativeRates(p: Params) {
    && p.k_in >= 0.0 && p.k_out >= 0.0 && p.A_ext >= 0.0 && p.E_h >= 0.0 && p.beta >= 0.0
    && p.G_max >= 0.0 && p.r_P >= 0.0 && p.c_P >= 0.0 && p.gamma >= 0.0
    && p.k_m >= 0.0 && p.delta_m >= 0.0 && p.k_q >= 0.0 && p.delta_q >= 0.0
  }

  /** `params = base_params.copy(); params['E_h'] = e; params['A_ext'] = a`:
      a fresh parameter set that differs from `p` in the two overridden entries only. */
  function WithScenario(p: Params, aExt: real, eH: real): (q: Params)
    ensures q.A_ext == aExt && q.E_h == eH
    ensures q.(A_ext := p.A_ext, E_h := p.E_h) == p
    ensures NonNegativeRates(p) && aExt >= 0.0 && eH >= 0.0 ==> NonNegativeRates(q)
  {
    p.(E_h := eH, A_ext := aExt)
  }
}
