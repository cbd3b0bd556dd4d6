# efflux_dynamics — a Dafny model of the plasmid/efflux simulator

efflux_dynamics studies a bacterial cell that carries a plasmid encoding an efflux
pump. The state is the intracellular drug level A, the plasmid copy number P, the
plasmid mRNA M and the efflux protein Q. Two models are built from one vector
field:

- **Stochastic (PDMP).** A piecewise-deterministic Markov process. The copy number P
  jumps by ±1, with replication rate `a1 = r_P G(A) P` and loss rate
  `a2 = c_P P + gamma P^2` (Gillespie direct method). Between jumps, A, M and Q
  follow the ODEs. Ensembles of runs are summarised by the extinction and rescue
  probabilities, and the `ssa_model` driver resamples every run onto a 500-point
  time grid.
- **Deterministic.** The plasmid-free equilibrium `A* = k_in A_ext / (k_out E_h)`, the
  invasion eigenvalue `lambda_P = r_P G(A*) - c_P`, a map of lambda_P over
  (E_h, A_ext), and a sweep of the equilibrium growth rate over E_h.

Modules, one per source file, plus one of generic lemmas. Copies of the same code are modelled once:

| module | file | models |
|---|---|---|
| `Parameters` | `parameters.dfy` | the parameter record and the `base_params.copy()` scenario override |
| `Odes` | `odes.dfy` | `growth_rate`, `ode_system` |
| `Equilibria` | `equilibria.dfy` | `plasmid_free_equilibrium`, `invasion_eigenvalue` |
| `Propensities` | `propensities.dfy` | `a1_`, `a2_` |
| `Gillespie` | `gillespie.dfy` | `gillespie_step` |
| `Grid` | `grid.dfy` | `np.linspace`, `np.interp` |
| `Pdmp` | `pdmp.dfy` | `run_pdmp` (a specification function plus the imperative loop), `run_pdmp_scenarios` of model/stochastic/pdmp.py |
| `Statistics` | `statistics.dfy` | `is_extinct`, `extinction_probability`, `rescue_probability` |
| `SsaModel` | `ssa_model.dfy` | `run_pdmp_scenarios` (array filling), `extinction_probability_pdmp`, `rescue_probability_pdmp` |
| `OdeModel` | `ode_model.dfy` | `y0`, `run_invasion`, `run_efflux_sweep` |
| `Seqs` | `seqs.dfy` | generic slicing and multiset facts used by the proofs |

Shared members stand for the duplicated code:

- ssa_model/model.py:4-74 repeats `a1_`, `a2_`, `gillespie_step` and `run_pdmp` of the
  `model/stochastic` package. The only difference is that `ode_system` is passed in as
  a module. `Propensities.A1`, `Propensities.A2`, `Gillespie.GillespieStep` and
  `Pdmp.RunPdmp` model both copies.
- ode_model/model.py:6-15 and 27-41 repeat `plasmid_free_equilibrium`,
  `invasion_eigenvalue`, `growth_rate` and `ode_system` of `model/deterministic`.
  `Equilibria` and `Odes` model both copies.

Abstractions:

- **Hill power.** `(A/IC50)^h` is a parameter `hill: real -> NonNegReal`. Fractional
  powers are not available over `real`. Where the source relies on `hill(0) == 0`,
  the lemma requires it (`VanishesAtZero`).
- **Logarithm.** `log` is a parameter `ln`. `LogAdmissible(ln)` says it is negative
  on [0, 1), the range of `np.random.rand`.
- **Random draws.** The random draws of one run are an injected sequence of
  `Draw(u1, u2)` pairs. The ensemble drivers take one such sequence per run
  (`streams`).
- **Solver.** `solve_ivp` is a parameter `solve: (Params, t0, t1, y0) -> (A, M, Q)`.
  Its result for P is discarded, as in the code, so P stays an exact integer.
- **Numbers.** All arithmetic is exact over `real`, not IEEE doubles. `np.linspace`
  is therefore exact as well: its last point is exactly `hi`.

The model follows the code on the final step of a run. One could expect a step
whose time was clipped to `TMAX` to carry no event, but the code applies the event
anyway (model/stochastic/pdmp.py:21, 29-32), so the final
copy-number step of a clipped run is still ±1.

## Model

| member | source | states |
|---|---|---|
| Parameters.WithScenario | ssa_model/model.py:87-89 | the copy has the overridden A_ext and E_h, equals the base in every other field, and keeps rates non-negative when the overrides are |
| Odes.GrowthRate | model/deterministic/odes.py:4-5 | 0 <= G <= G_max for G_max >= 0, and G == G_max where the Hill power is 0 (no drug) |
| Odes.GrowthRateDecreasing | model/deterministic/odes.py:4-5 | a larger Hill power never gives a larger growth rate |
| Odes.Efflux | model/deterministic/odes.py:10 | the efflux level is E_h without pump protein, never below E_h for non-negative beta and Q, and above it when both are positive |
| Odes.OdeSystem | model/deterministic/odes.py:7-18 | dP factors as P (r_P G - c_P - gamma P); a plasmid-free cell has dP = 0, and dM = 0 / dQ = 0 when their sources vanish; with Q = 0 only intrinsic efflux removes drug |
| Odes.NonNegativeOrthantInvariant | model/deterministic/odes.py:13-16 | with non-negative rates, on each face of the non-negative orthant the field does not point outward |
| Equilibria.PlasmidFreeEquilibrium | model/deterministic/equilibria.py:3-7 | A* (k_out E_h) = k_in A_ext when k_out E_h != 0, A* = 0 otherwise, and A* >= 0 for non-negative rates |
| Equilibria.PlasmidFreeEquilibriumIsRestPoint | model/deterministic/equilibria.py:3-7 | (A*, 0, 0, 0) is a zero of the vector field when k_out E_h != 0 |
| Equilibria.EquilibriumZeroesDrugFlux | model/deterministic/equilibria.py:3-7 | dA = 0 at A = A*, Q = 0 for every P and M |
| Equilibria.FallbackIsNotRestPoint | model/deterministic/equilibria.py:6 | when k_out E_h = 0 and there is influx, the fallback 0 is not a rest point (dA = k_in A_ext != 0) |
| Equilibria.InvasionEigenvalue | model/deterministic/equilibria.py:9-12 | -c_P <= lambda_P <= r_P G_max - c_P for r_P, G_max >= 0 |
| Equilibria.InvasionEigenvalueLinearisesPlasmidRate | model/deterministic/equilibria.py:9-12 | at A = A*, dP = lambda_P P - gamma P^2, so lambda_P is the linear rate of dP at P = 0 |
| Equilibria.NoDrugInvasionEigenvalue | model/deterministic/equilibria.py:9-12 | without drug influx, lambda_P reaches its maximum r_P G_max - c_P |
| Propensities.A1 | model/stochastic/propensities.py:1-5 | 0 for P <= 0; 0 <= a1 <= r_P G_max P for non-negative rates; exactly r_P G_max P where the Hill power is 0 |
| Propensities.A2 | model/stochastic/propensities.py:7-10 | 0 for P <= 0; >= 0 for non-negative c_P and gamma; > 0 when either is positive |
| Propensities.TotalPropensityZero | model/stochastic/propensities.py:1-10 | both rates are non-negative, and their sum is 0 at P > 0 only when c_P, gamma and r_P G(A) are all 0 |
| Propensities.DriftMatchesOde | model/stochastic/propensities.py:1-10 | a1 - a2 equals the deterministic dP at the same state: the jump process and the ODE share one drift |
| Gillespie.TotalPropensity | model/stochastic/gillespie.py:7-9 | a0 is 0 once no plasmid is left, non-negative for non-negative rates, and positive at P > 0 when c_P or gamma is |
| Gillespie.GillespieStep | model/stochastic/gillespie.py:4-22 | no event exactly when a0 <= 0, and always when P <= 0; otherwise tau a0 = -ln(u1), and the event is replication exactly when u2 a0 < a1 |
| Gillespie.WaitingTimePositive | model/stochastic/gillespie.py:14-15 | for an admissible log and u1 in [0, 1), the waiting time is positive |
| Gillespie.NoReplicationMeansLoss | model/stochastic/gillespie.py:17-20 | with a1 = 0 and u2 >= 0, every sampled event is a loss |
| Gillespie.NoLossMeansReplication | model/stochastic/gillespie.py:17-20 | with a2 = 0 and u2 < 1, every sampled event is a replication |
| Gillespie.StepIgnoresMessengerAndProtein | model/stochastic/gillespie.py:5-9 | the step's result does not depend on M or Q |
| Grid.Linspace | ssa_model/model.py:79 | n points, the first is lo and, for n >= 2, the last is hi |
| Grid.LinspaceEvenlySpaced | ssa_model/model.py:79 | consecutive points are exactly (hi - lo)/(n - 1) apart |
| Grid.Interp | ssa_model/model.py:94-97 | left of the first sample the interpolant is the first value |
| Grid.InterpOnSegment | ssa_model/model.py:94-97 | on strictly increasing times, between samples j and j+1 the interpolant is the straight line through (t[j], f[j]) and (t[j+1], f[j+1]) |
| Grid.InterpHoldsLast | ssa_model/model.py:94-97 | at or right of every sample time, the interpolant is the last sample value |
| Grid.InterpAtSample | ssa_model/model.py:94-97 | on strictly increasing times, the interpolant passes through every sample |
| Grid.InterpBetween | ssa_model/model.py:94-97 | the interpolant never leaves the range of the sample values |
| Pdmp.RecordKeepsWellFormed | model/stochastic/pdmp.py:34-40 | appending one ±1 step taken from a running state at a time within the horizon keeps the record well formed and time-increasing |
| Pdmp.LoopAppends | model/stochastic/pdmp.py:15-40 | the loop (`Loop`) only appends to the record, keeps its first sample, and adds at most one sample per remaining draw |
| Pdmp.Run | model/stochastic/pdmp.py:7-40 | the record has aligned columns, starts at t = 0 with P = 1, and holds at most one sample per draw beyond the first |
| Pdmp.RunFollowsDraws | model/stochastic/pdmp.py:15-40 | step i of every run is the jump that draw i produces from sample i: `gillespie_step` returns a jump, t[i+1] = min(t[i] + tau, TMAX), A, M and Q at i+1 are the solver's values over [t[i], t[i+1]] from sample i, and P moves by +1 on replication and -1 on loss |
| Pdmp.StepKeepsLoopInvariant | model/stochastic/pdmp.py:15-40 | one pass of the loop body from a running state keeps the loop invariant (aligned columns, well-formed record, last sample = current state) |
| Pdmp.LoopProperties | model/stochastic/pdmp.py:15-40 | from any well-formed record, the loop (`Loop`) returns a well-formed record that has halted (strictly increasing times for admissible log and draws) |
| Pdmp.RunProperties | model/stochastic/pdmp.py:7-48 | every run has aligned columns, starts at t = 0 with (0, 1, 0, 0), moves P by ±1 and keeps P >= 0, stays within TMAX, runs while t < TMAX and P > 0 before the last sample, stops at extinction, the horizon, no event or the end of the draws, and is the initial sample alone when TMAX <= 0 |
| Pdmp.RunPdmp | model/stochastic/pdmp.py:7-48 | the imperative loop returns exactly Run(...) and so all of RunProperties |
| Pdmp.RunPdmpScenarios | model/stochastic/pdmp.py:50-57 | a one-key map from the scenario name to exactly `steps` runs, run i from stream i, and the scenario itself |
| Statistics.IsExtinct | model/stochastic/statistics.py:1-2 | 0 or 1, and 1 exactly when the last copy number is 0 |
| Statistics.CountExtinct | model/stochastic/statistics.py:6 | the number of extinct runs is at most N |
| Statistics.CountExtinctAppend | model/stochastic/statistics.py:6 | the count over a concatenation is the sum of the counts |
| Statistics.CountExtinctSplit | model/stochastic/statistics.py:6 | the count around one run is that run's indicator plus the count of the others |
| Statistics.ExtinctionProbability | model/stochastic/statistics.py:4-7 | lies in [0, 1] and times N is the number of extinct runs (N > 0 required, as the code divides by N) |
| Statistics.RescueProbability | model/stochastic/statistics.py:9-10 | lies in [0, 1] and sums to 1 with the extinction probability |
| Statistics.CountExtinctBounds | model/stochastic/statistics.py:6 | all runs extinct gives N, no run extinct gives 0 |
| Statistics.ExtinctionProbabilityExtremes | model/stochastic/statistics.py:4-7 | all runs extinct gives 1, no run extinct gives 0 |
| Statistics.CountExtinctRemove | model/stochastic/statistics.py:6 | removing one run lowers the count by that run's indicator |
| Statistics.CountExtinctPermutation | model/stochastic/statistics.py:6 | the count is the same for any reordering of the runs |
| Statistics.ExtinctionProbabilityPermutation | model/stochastic/statistics.py:4-7 | the extinction probability is invariant under permutation of the run list |
| SsaModel.Runs | ssa_model/model.py:91-92 | one run per index, `steps` in all |
| SsaModel.RunsWellFormed | ssa_model/model.py:35-74 | every run of a scenario is well formed (initial (0, 1, 0, 0), ±1 steps including the clipped last one, P >= 0) |
| SsaModel.SetRow | ssa_model/model.py:94-97 | writing row r stores the given row, keeps the rows already written and changes no row other than r |
| SsaModel.StoreRun | ssa_model/model.py:92-97 | row r of A, P, M, Q becomes run r's columns interpolated onto the grid; no other row of the four arrays changes |
| SsaModel.RunInto | ssa_model/model.py:91-97 | one pass of the run loop: run r of the scenario lands in row r; no other row of the four arrays changes |
| SsaModel.RunScenario | ssa_model/model.py:82-97 | fresh steps x |grid| arrays whose row r is run r of the scenario resampled onto the grid |
| SsaModel.ScenarioParams | ssa_model/model.py:87-89 | scenario s's parameter set has (A_ext, E_h) equal to its key, equals the base in every other field, and keeps the base's non-negative rates |
| SsaModel.ScenarioValuesDistinct | ssa_model/model.py:78 | the three scenario keys are pairwise distinct, so none overwrites another |
| SsaModel.AddScenario | ssa_model/model.py:81-105 | one pass of the scenario loop adds scenario s's grid under its key and keeps the earlier ones |
| SsaModel.RunPdmpScenarios | ssa_model/model.py:76-107 | keys are exactly (0,0), (15,0), (15,2) as (A_ext, E_h); each holds the grid linspace(0, TMAX, 500) and steps x 500 arrays whose row r is run r of that scenario resampled (`ScenarioGrid`); for steps > 0 the grid's extinction and rescue probabilities equal those of the raw runs (`ProbabilitiesMatch`) |
| SsaModel.FinalColumnIsFinalCount | ssa_model/model.py:79-97 | since the last grid point is TMAX and interpolation holds the last value, the last column of P is each run's final copy number |
| SsaModel.CountZeroFinal | ssa_model/model.py:110-111 | the number of rows whose last entry is 0 is at most the row count |
| SsaModel.ExtinctionProbabilityPdmp | ssa_model/model.py:109-112 | lies in [0, 1] and times the row count is the number of rows ending at 0 |
| SsaModel.RescueProbabilityPdmp | ssa_model/model.py:114-115 | lies in [0, 1] and sums to 1 with the extinction probability |
| SsaModel.CountZeroFinalMatches | ssa_model/model.py:109-112 | if each row's last entry is its run's final count, the zero rows and the extinct runs are equally many |
| SsaModel.GridExtinctionMatchesRuns | ssa_model/model.py:109-115 | the grid extinction and rescue probabilities equal the raw-run ones from model/stochastic/statistics.py |
| SsaModel.ScenarioProbabilities | ssa_model/model.py:76-115 | for a scenario grid of well-formed runs, the probabilities read off the grid equal those of its runs |
| SsaModel.ScenariosComplete | ssa_model/model.py:81-107 | after all three passes of the scenario loop, the map has exactly the three keys, each with its scenario grid and, for steps > 0, the probabilities of its runs |
| SsaModel.AllScenarioProbabilities | ssa_model/model.py:109-115 | for all three scenario grids at once, the grid probabilities equal those of the raw runs |
| OdeModel.InitialConditionsAgree | ode_model/model.py:4 | y0 = (0, 1, 0, 0) is the initial state of every stochastic run |
| OdeModel.FillRow | ode_model/model.py:60-64 | the inner loop sets row i to lambda_P at every drug level and changes no other row |
| OdeModel.RunInvasion | ode_model/model.py:55-65 | a fresh 100 x 80 grid whose cell (i, j) is lambda_P for E_h = Eh_vals[i] and A_ext = Aext_vals[j] |
| OdeModel.EquilibriumGrowth | ode_model/model.py:74-78 | G(A*) under the override lies in [0, G_max] for G_max >= 0 |
| OdeModel.RunEffluxSweep | ode_model/model.py:67-81 | keys are exactly 5, 15, 25; each entry holds Eh_vals and one G(A*) per E_h value, in order, each within [0, G_max] |

## Left out

- `solve_ivp` (model/stochastic/pdmp.py:23, ssa_model/model.py:49) is adaptive floating-point integration. It is an opaque `Solver` parameter, and nothing is claimed about its accuracy.
- `run_odes` (model/deterministic/odes.py:20-29) and `run_time_series` (ode_model/model.py:43-53) only wrap `solve_ivp`, so they are not modelled.
- `np.random.rand` is global mutable state, so the draws are parameters. Distributional claims, such as exponential waiting times or long-run event frequencies, are out of scope.
- `log` and the fractional Hill power `(A/IC50)**h` are parameters, for the same reason as the other transcendental functions.
- `critical_Eh` and `critical_Aext` (model/deterministic/invasion.py:1-9, ode_model/model.py:17-25) need a `**(1/h)` root, so they are not modelled.
- `analyse_ssa_results` and `analyse_ode_results` only print, and main.py is argument parsing, JSON loading and timing. None of them is modelled.
- The chart modules (model/utils/charts.py, ode_model/charts.py, ssa_model/charts.py) are plotting and file output, and are not modelled.
- Floating point is not modelled: rounding, infinities and NaN are absent, and `np.linspace` and `np.interp` are exact over `real`.
- Pdmp.RunPdmp: the loop also stops when the injected draws are used up. This bounds a loop whose termination the code does not guarantee, since tau may be arbitrarily small. The missing draws are recorded in `Halted` as one more reason to stop.
- Gillespie.WaitingTimePositive: `ln(0)` is taken to be a finite negative value, not minus infinity. For `u1 = 0`, numpy gives an infinite tau that `min` clips to TMAX; the model gives a finite positive tau.
- Gillespie.GillespieStep: the waiting time is stated as `tau * a0 == -ln(u1)`, which is the same as the code's `-log(r1)/a0` because a0 > 0.
- Pdmp.RunProperties: times are proved strictly increasing only for an admissible `ln` and draws in [0, 1). For an arbitrary `ln`, a negative tau could move time backwards.
- Grid.Interp: the model makes no claim about unsorted sample times (numpy leaves that case unspecified). The interpolation lemmas assume the times `run_pdmp` produces.
- Statistics.ExtinctionProbability: requires a non-empty run list. On an empty list the code divides by zero (model/stochastic/statistics.py:7) and raises `ZeroDivisionError`; the model has no error result for it.
- SsaModel.ExtinctionProbabilityPdmp: requires at least one row. With `steps = 0` the code takes the mean of an empty array (ssa_model/model.py:112) and returns NaN; that case is not modelled, and `ProbabilitiesMatch` is claimed only for `steps > 0`.
- Pdmp.Run: the `Solver` is total, so the model never fails inside the loop. In the code, a `solve_ivp` call that stops short of `t_next` leaves `sol.y` without a column, and `sol.y[0, -1]` (model/stochastic/pdmp.py:25, ssa_model/model.py:51) raises and aborts the run.
- There are no time-to-resistance statistics in the code, so none are modelled.
