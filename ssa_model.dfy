/** The stochastic driver: three drug/efflux scenarios, each run `steps` times and
    resampled onto one 500-point time grid, and the probabilities read off the grid. */
module SsaModel {
  import opened Parameters
  import opened Gillespie
  import opened Pdmp
  import opened Statistics
  import opened Grid
  import opened Seqs

  const GridSize: nat := 500

  /** The (A_ext, E_h) pairs of the three scenarios, in the order they are run. */
  const ScenarioValues: seq<(real, real)> := [(0.0, 0.0), (15.0, 0.0), (15.0, 2.0)]

  /** No scenario key repeats, so each scenario gets its own entry. */
  lemma ScenarioValuesDistinct()
    ensures forall i, j :: 0 <= i < j < |ScenarioValues| ==> ScenarioValues[i] != ScenarioValues[j]
  {
  }

  /** The parameter set of scenario s: the base set with A_ext and E_h overridden. */
  function ScenarioParams(base: Params, s: nat): (q: Params)
    requires s < |ScenarioValues|
    ensures (q.A_ext, q.E_h) == ScenarioValues[s]
    ensures q.(A_ext := base.A_ext, E_h := base.E_h) == base
    ensures NonNegativeRates(base) ==> NonNegativeRates(q)
  {
    WithScenario(base, ScenarioValues[s].0, ScenarioValues[s].1)
  }

  /** One scenario's resampled runs: the grid and one steps x |t| array per state variable. */
  datatype GridRuns = GridRuns(t: seq<real>, A: array2<real>, P: array2<real>, M: array2<real>, Q: array2<real>)

  function AsReals(P: seq<int>): (r: seq<real>)
    ensures |r| == |P|
    ensures forall i :: 0 <= i < |P| ==> r[i] == P[i] as real
  {
    seq(|P|, i requires 0 <= i < |P| => P[i] as real)
  }

  /** The runs of scenario s with parameters `params`; run r draws from stream (s, r). */
  function Runs(params: Params, hill: Hill, ln: real -> real, solve: Solver, TMAX: real,
                streams: (nat, nat) -> seq<Draw>, s: nat, steps: nat): (runs: seq<Trajectory>)
    ensures |runs| == steps
  {
    seq(steps, r requires 0 <= r < steps => Run(params, hill, ln, solve, streams(s, r), TMAX))
  }

  /** Every run of a scenario is a well-formed trajectory. */
  lemma RunsWellFormed(params: Params, hill: Hill, ln: real -> real, solve: Solver, TMAX: real,
                       streams: (nat, nat) -> seq<Draw>, s: nat, steps: nat)
    ensures forall r :: 0 <= r < steps ==> WellFormed(Runs(params, hill, ln, solve, TMAX, streams, s, steps)[r], TMAX)
  {
    forall r | 0 <= r < steps
      ensures WellFormed(Runs(params, hill, ln, solve, TMAX, streams, s, steps)[r], TMAX)
    {
      RunProperties(params, hill, ln, solve, streams(s, r), TMAX);
    }
  }

  predicate Shaped(g: GridRuns, rows: nat) {
    && g.A.Length0 == rows && g.P.Length0 == rows && g.M.Length0 == rows && g.Q.Length0 == rows
    && g.A.Length1 == |g.t| && g.P.Length1 == |g.t| && g.M.Length1 == |g.t| && g.Q.Length1 == |g.t|
  }

  /** The four recorded state variables. */
  datatype Var = VarA | VarP | VarM | VarQ

  /** One recorded column of a trajectory, as reals. */
  function Column(tr: Trajectory, v: Var): (col: seq<real>)
    requires Aligned(tr)
    ensures |col| == |tr.t|
  {
    match v
    case VarA => tr.A
    case VarP => AsReals(tr.P)
    case VarM => tr.M
    case VarQ => tr.Q
  }

  predicate AllAligned(runs: seq<Trajectory>) {
    forall r :: 0 <= r < |runs| ==> Aligned(runs[r])
  }

  /** Row r is run r's column `v` interpolated onto the grid. */
  function ResampledRows(tGrid: seq<real>, runs: seq<Trajectory>, v: Var): (rows: seq<seq<real>>)
    requires AllAligned(runs)
    ensures |rows| == |runs|
    ensures forall r :: 0 <= r < |runs| ==> rows[r] == Resample(tGrid, runs[r].t, Column(runs[r], v))
  {
    seq(|runs|, r requires 0 <= r < |runs| => Resample(tGrid, runs[r].t, Column(runs[r], v)))
  }

  /** The first |rows| rows of `a` hold `rows`. */
  ghost predicate RowsHold(a: array2<real>, rows: seq<seq<real>>)
    reads a
  {
    |rows| <= a.Length0 &&
    forall r :: 0 <= r < |rows| ==>
      |rows[r]| == a.Length1 && forall c :: 0 <= c < |rows[r]| ==> a[r, c] == rows[r][c]
  }

  /** Row r of each of the four arrays is run r's column interpolated onto the grid,
      for every run in `runs`. */
  ghost predicate Stored(A: array2<real>, P: array2<real>, M: array2<real>, Q: array2<real>,
                         tGrid: seq<real>, runs: seq<Trajectory>)
    reads A, P, M, Q
  {
    && AllAligned(runs)
    && RowsHold(A, ResampledRows(tGrid, runs, VarA))
    && RowsHold(P, ResampledRows(tGrid, runs, VarP))
    && RowsHold(M, ResampledRows(tGrid, runs, VarM))
    && RowsHold(Q, ResampledRows(tGrid, runs, VarQ))
  }

  /** Row r of every array of the scenario is run r resampled onto its grid. */
  ghost predicate RowsAreRuns(g: GridRuns, runs: seq<Trajectory>)
    reads g.A, g.P, g.M, g.Q
  {
    Stored(g.A, g.P, g.M, g.Q, g.t, runs)
  }

  /** Every row of `a` other than row r holds what it held before. */
  twostate predicate OtherRowsKept(a: array2<real>, r: nat)
    reads a
  {
    forall i, c :: 0 <= i < a.Length0 && 0 <= c < a.Length1 && i != r ==> a[i, c] == old(a[i, c])
  }

  /** `X_runs[run_idx, :] = row`: writes row number |done| and changes no other row. */
  method SetRow(a: array2<real>, r: nat, row: seq<real>, ghost done: seq<seq<real>>)
    requires r == |done| < a.Length0 && |row| == a.Length1
    requires RowsHold(a, done)
    modifies a
    ensures RowsHold(a, done + [row])
    ensures OtherRowsKept(a, r)
  {
    for c := 0 to |row|
      invariant RowsHold(a, done)
      invariant forall j :: 0 <= j < c ==> a[r, j] == row[j]
      invariant OtherRowsKept(a, r)
    {
      a[r, c] := row[c];
    }
  }

  lemma ResampledRowsSnoc(tGrid: seq<real>, done: seq<Trajectory>, traj: Trajectory, v: Var)
    requires AllAligned(done) && Aligned(traj)
    ensures AllAligned(done + [traj])
    ensures ResampledRows(tGrid, done + [traj], v)
            == ResampledRows(tGrid, done, v) + [Resample(tGrid, traj.t, Column(traj, v))]
  {
  }

  /** Resample one run into row |done| of each of the four arrays. */
  method StoreRun(A: array2<real>, P: array2<real>, M: array2<real>, Q: array2<real>, r: nat,
                  tGrid: seq<real>, ghost done: seq<Trajectory>, traj: Trajectory)
    requires A != P && A != M && A != Q && P != M && P != Q && M != Q
    requires r == |done| < A.Length0 && A.Length0 == P.Length0 == M.Length0 == Q.Length0
    requires A.Length1 == P.Length1 == M.Length1 == Q.Length1 == |tGrid|
    requires Aligned(traj) && Stored(A, P, M, Q, tGrid, done)
    modifies A, P, M, Q
    ensures Stored(A, P, M, Q, tGrid, done + [traj])
    ensures OtherRowsKept(A, r) && OtherRowsKept(P, r) && OtherRowsKept(M, r) && OtherRowsKept(Q, r)
  {
    ResampledRowsSnoc(tGrid, done, traj, VarA);
    ResampledRowsSnoc(tGrid, done, traj, VarP);
    ResampledRowsSnoc(tGrid, done, traj, VarM);
    ResampledRowsSnoc(tGrid, done, traj, VarQ);
    SetRow(A, r, Resample(tGrid, traj.t, traj.A), ResampledRows(tGrid, done, VarA));
    SetRow(P, r, Resample(tGrid, traj.t, AsReals(traj.P)), ResampledRows(tGrid, done, VarP));
    SetRow(M, r, Resample(tGrid, traj.t, traj.M), ResampledRows(tGrid, done, VarM));
    SetRow(Q, r, Resample(tGrid, traj.t, traj.Q), ResampledRows(tGrid, done, VarQ));
  }

  /** One pass of the scenario loop: run number r, resampled into row r. */
  method RunInto(params: Params, hill: Hill, ln: real -> real, solve: Solver, TMAX: real,
                 streams: (nat, nat) -> seq<Draw>, s: nat, steps: nat, tGrid: seq<real>,
                 A: array2<real>, P: array2<real>, M: array2<real>, Q: array2<real>, r: nat,
                 ghost runs: seq<Trajectory>)
    requires runs == Runs(params, hill, ln, solve, TMAX, streams, s, steps) && r < steps
    requires A != P && A != M && A != Q && P != M && P != Q && M != Q
    requires A.Length0 == P.Length0 == M.Length0 == Q.Length0 == steps
    requires A.Length1 == P.Length1 == M.Length1 == Q.Length1 == |tGrid|
    requires Stored(A, P, M, Q, tGrid, runs[..r])
    modifies A, P, M, Q
    ensures Stored(A, P, M, Q, tGrid, runs[..r + 1])
    ensures OtherRowsKept(A, r) && OtherRowsKept(P, r) && OtherRowsKept(M, r) && OtherRowsKept(Q, r)
  {
    var traj := RunPdmp(params, hill, ln, solve, streams(s, r), TMAX);
    StoreRun(A, P, M, Q, r, tGrid, runs[..r], traj);
    PrefixSnoc(runs, r);
  }

  /** The body of the scenario loop: `steps` runs, each resampled into its own row. */
  method RunScenario(params: Params, hill: Hill, ln: real -> real, solve: Solver, TMAX: real,
                     streams: (nat, nat) -> seq<Draw>, s: nat, steps: nat, tGrid: seq<real>)
    returns (g: GridRuns)
    ensures fresh(g.A) && fresh(g.P) && fresh(g.M) && fresh(g.Q)
    ensures g.t == tGrid && Shaped(g, steps)
    ensures RowsAreRuns(g, Runs(params, hill, ln, solve, TMAX, streams, s, steps))
  {
    var n := |tGrid|;
    var A := new real[steps, n]((_, _) => 0.0);
    var P := new real[steps, n]((_, _) => 0.0);
    var M := new real[steps, n]((_, _) => 0.0);
    var Q := new real[steps, n]((_, _) => 0.0);
    ghost var runs := Runs(params, hill, ln, solve, TMAX, streams, s, steps);
    for runIdx := 0 to steps
      invariant Stored(A, P, M, Q, tGrid, runs[..runIdx])
    {
      RunInto(params, hill, ln, solve, TMAX, streams, s, steps, tGrid, A, P, M, Q, runIdx, runs);
    }
    PrefixAll(runs);
    g := GridRuns(tGrid, A, P, M, Q);
  }

  /** Scenario s's grid: the common time grid linspace(0, TMAX, 500), one row per run
      in each of the four arrays, and row r holding run r resampled onto the grid. */
  ghost predicate ScenarioGrid(g: GridRuns, runs: seq<Trajectory>, TMAX: real)
    reads g.A, g.P, g.M, g.Q
  {
    g.t == Linspace(0.0, TMAX, GridSize) && Shaped(g, |runs|) && RowsAreRuns(g, runs)
  }

  /** The extinction and rescue probabilities read off the grid are those of the runs. */
  predicate ProbabilitiesMatch(g: GridRuns, runs: seq<Trajectory>)
    reads g.P
  {
    && |runs| > 0 && g.P.Length0 == |runs| && g.P.Length1 > 0 && AllNonEmpty(runs)
    && ExtinctionProbabilityPdmp(g.P) == ExtinctionProbability(runs)
    && RescueProbabilityPdmp(g.P) == RescueProbability(runs)
  }

  /** After n passes of the scenario loop: the keys are the first n scenarios and each
      holds that scenario's grid. */
  ghost predicate ScenariosDone(results: map<(real, real), GridRuns>, n: nat, base: Params, hill: Hill,
                                ln: real -> real, solve: Solver, TMAX: real, steps: nat,
                                streams: (nat, nat) -> seq<Draw>)
    reads set k | k in results :: results[k].A, set k | k in results :: results[k].P
    reads set k | k in results :: results[k].M, set k | k in results :: results[k].Q
  {
    && n <= |ScenarioValues|
    && results.Keys == (set i | 0 <= i < n :: ScenarioValues[i])
    && forall i :: 0 <= i < n ==>
         ScenarioGrid(results[ScenarioValues[i]], Runs(ScenarioParams(base, i), hill, ln, solve, TMAX, streams, i, steps), TMAX)
  }

  /** One pass of the scenario loop: scenario s's runs, stored under its key. */
  method AddScenario(base: Params, hill: Hill, ln: real -> real, solve: Solver, TMAX: real, steps: nat,
                     streams: (nat, nat) -> seq<Draw>, tGrid: seq<real>, s: nat,
                     results: map<(real, real), GridRuns>)
    returns (results': map<(real, real), GridRuns>)
    requires s < |ScenarioValues| && tGrid == Linspace(0.0, TMAX, GridSize)
    requires ScenariosDone(results, s, base, hill, ln, solve, TMAX, steps, streams)
    ensures ScenariosDone(results', s + 1, base, hill, ln, solve, TMAX, steps, streams)
  {
    ScenarioValuesDistinct();
    var (a, e) := ScenarioValues[s];
    var params := WithScenario(base, a, e);
    var g := RunScenario(params, hill, ln, solve, TMAX, streams, s, steps, tGrid);
    results' := results[(a, e) := g];
  }

  /** `run_pdmp_scenarios`: one grid per scenario key (A_ext, E_h), with row r of
      each array holding run r of that scenario on the common grid linspace(0, TMAX, 500). */
  method RunPdmpScenarios(base: Params, hill: Hill, ln: real -> real, solve: Solver, TMAX: real, steps: nat,
                          streams: (nat, nat) -> seq<Draw>)
    returns (results: map<(real, real), GridRuns>)
    ensures results.Keys == {(0.0, 0.0), (15.0, 0.0), (15.0, 2.0)}
    ensures forall s :: 0 <= s < |ScenarioValues| ==>
              ScenarioGrid(results[ScenarioValues[s]], Runs(ScenarioParams(base, s), hill, ln, solve, TMAX, streams, s, steps), TMAX)
    ensures steps > 0 ==> forall s :: 0 <= s < |ScenarioValues| ==>
              ProbabilitiesMatch(results[ScenarioValues[s]], Runs(ScenarioParams(base, s), hill, ln, solve, TMAX, streams, s, steps))
  {
    results := map[];
    var tGrid := Linspace(0.0, TMAX, GridSize);
    for s := 0 to |ScenarioValues|
      invariant ScenariosDone(results, s, base, hill, ln, solve, TMAX, steps, streams)
    {
      results := AddScenario(base, hill, ln, solve, TMAX, steps, streams, tGrid, s, results);
    }
    ScenariosComplete(base, hill, ln, solve, TMAX, steps, streams, results);
  }

  /** The keys of the three scenarios, written out. */
  lemma ScenarioKeys(keys: set<(real, real)>)
    requires keys == set i | 0 <= i < |ScenarioValues| :: ScenarioValues[i]
    ensures keys == {(0.0, 0.0), (15.0, 0.0), (15.0, 2.0)}
  {
    assert ScenarioValues[0] == (0.0, 0.0) && ScenarioValues[1] == (15.0, 0.0) && ScenarioValues[2] == (15.0, 2.0);
  }

  /** Once all three passes are done, the map has exactly the three keys, each with
      its scenario grid and, for steps > 0, the probabilities of its runs. */
  lemma ScenariosComplete(base: Params, hill: Hill, ln: real -> real, solve: Solver, TMAX: real, steps: nat,
                          streams: (nat, nat) -> seq<Draw>, results: map<(real, real), GridRuns>)
    requires ScenariosDone(results, |ScenarioValues|, base, hill, ln, solve, TMAX, steps, streams)
    ensures results.Keys == {(0.0, 0.0), (15.0, 0.0), (15.0, 2.0)}
    ensures forall s :: 0 <= s < |ScenarioValues| ==>
              ScenarioGrid(results[ScenarioValues[s]], Runs(ScenarioParams(base, s), hill, ln, solve, TMAX, streams, s, steps), TMAX)
    ensures steps > 0 ==> forall s :: 0 <= s < |ScenarioValues| ==>
              ProbabilitiesMatch(results[ScenarioValues[s]], Runs(ScenarioParams(base, s), hill, ln, solve, TMAX, streams, s, steps))
  {
    ScenarioKeys(results.Keys);
    if steps > 0 {
      AllScenarioProbabilities(base, hill, ln, solve, TMAX, steps, streams, results);
    }
  }

  /** Every scenario grid of the driver gives the probabilities of its raw runs. */
  lemma AllScenarioProbabilities(base: Params, hill: Hill, ln: real -> real, solve: Solver, TMAX: real, steps: nat,
                                 streams: (nat, nat) -> seq<Draw>, results: map<(real, real), GridRuns>)
    requires steps > 0
    requires forall s :: 0 <= s < |ScenarioValues| ==> ScenarioValues[s] in results
    requires forall s :: 0 <= s < |ScenarioValues| ==>
               ScenarioGrid(results[ScenarioValues[s]], Runs(ScenarioParams(base, s), hill, ln, solve, TMAX, streams, s, steps), TMAX)
    ensures forall s :: 0 <= s < |ScenarioValues| ==>
              ProbabilitiesMatch(results[ScenarioValues[s]], Runs(ScenarioParams(base, s), hill, ln, solve, TMAX, streams, s, steps))
  {
    forall s | 0 <= s < |ScenarioValues|
      ensures ProbabilitiesMatch(results[ScenarioValues[s]], Runs(ScenarioParams(base, s), hill, ln, solve, TMAX, streams, s, steps))
    {
      var runs := Runs(ScenarioParams(base, s), hill, ln, solve, TMAX, streams, s, steps);
      RunsWellFormed(ScenarioParams(base, s), hill, ln, solve, TMAX, streams, s, steps);
      ScenarioProbabilities(results[ScenarioValues[s]], runs, TMAX);
    }
  }

  /** Grid time TMAX is the last grid point, and every run ends at or before it, so
      the final column of the P array is each run's final copy number. */
  lemma FinalColumnIsFinalCount(g: GridRuns, runs: seq<Trajectory>, TMAX: real)
    requires g.t == Linspace(0.0, TMAX, GridSize) && Shaped(g, |runs|)
    requires RowsAreRuns(g, runs)
    requires forall r :: 0 <= r < |runs| ==> WellFormed(runs[r], TMAX)
    ensures forall r :: 0 <= r < |runs| ==> g.P[r, GridSize - 1] == FinalCount(runs[r]) as real
  {
    forall r | 0 <= r < |runs|
      ensures g.P[r, GridSize - 1] == FinalCount(runs[r]) as real
    {
      var tr := runs[r];
      var fp := AsReals(tr.P);
      assert ResampledRows(g.t, runs, VarP)[r] == Resample(g.t, tr.t, fp);
      assert g.P[r, GridSize - 1] == Interp(TMAX, tr.t, fp);
      if |tr.t| > 1 {
        assert tr.t[0] < TMAX;
        InterpHoldsLast(TMAX, tr.t, fp);
      }
    }
  }

  /** The number of rows among the first `rows` whose last column is 0. */
  function CountZeroFinal(P: array2<real>, rows: nat): (n: nat)
    reads P
    requires rows <= P.Length0 && P.Length1 > 0
    ensures n <= rows
  {
    if rows == 0 then 0
    else CountZeroFinal(P, rows - 1) + if P[rows - 1, P.Length1 - 1] == 0.0 then 1 else 0
  }

  /** `extinction_probability_pdmp`: the mean of "final column == 0" over the rows. */
  function ExtinctionProbabilityPdmp(P: array2<real>): (pe: real)
    reads P
    requires P.Length0 > 0 && P.Length1 > 0
    ensures 0.0 <= pe <= 1.0
    ensures pe * (P.Length0 as real) == CountZeroFinal(P, P.Length0) as real
  {
    var n := P.Length0 as real;
    var pe := (CountZeroFinal(P, P.Length0) as real) / n;
    assert pe * n == CountZeroFinal(P, P.Length0) as real;
    assert (pe - 1.0) * n == CountZeroFinal(P, P.Length0) as real - n <= 0.0;
    assert pe <= 1.0;
    pe
  }

  /** `rescue_probability_pdmp`: the complement of the extinction probability. */
  function RescueProbabilityPdmp(P: array2<real>): (pr: real)
    reads P
    requires P.Length0 > 0 && P.Length1 > 0
    ensures 0.0 <= pr <= 1.0
    ensures pr + ExtinctionProbabilityPdmp(P) == 1.0
  {
    1.0 - ExtinctionProbabilityPdmp(P)
  }

  lemma {:induction false} CountZeroFinalMatches(P: array2<real>, runs: seq<Trajectory>, k: nat)
    requires P.Length0 == |runs| && P.Length1 > 0 && AllNonEmpty(runs) && k <= |runs|
    requires forall r :: 0 <= r < |runs| ==> P[r, P.Length1 - 1] == FinalCount(runs[r]) as real
    ensures AllNonEmpty(runs[..k])
    ensures CountZeroFinal(P, k) == CountExtinct(runs[..k])
  {
    if k > 0 {
      CountZeroFinalMatches(P, runs, k - 1);
      assert runs[..k][..k - 1] == runs[..k - 1];
      assert runs[..k][k - 1] == runs[k - 1];
    }
  }

  /** Read off the grid, the extinction probability is that of the raw runs: the
      fraction of runs whose final copy number is 0. */
  lemma GridExtinctionMatchesRuns(P: array2<real>, runs: seq<Trajectory>)
    requires P.Length0 == |runs| > 0 && P.Length1 > 0 && AllNonEmpty(runs)
    requires forall r :: 0 <= r < |runs| ==> P[r, P.Length1 - 1] == FinalCount(runs[r]) as real
    ensures ExtinctionProbabilityPdmp(P) == ExtinctionProbability(runs)
    ensures RescueProbabilityPdmp(P) == RescueProbability(runs)
  {
    CountZeroFinalMatches(P, runs, |runs|);
    assert runs[..|runs|] == runs;
  }

  /** For every scenario grid the driver builds, the probabilities read off the grid
      are those of the scenario's raw runs. */
  lemma ScenarioProbabilities(g: GridRuns, runs: seq<Trajectory>, TMAX: real)
    requires |runs| > 0 && ScenarioGrid(g, runs, TMAX)
    requires forall r :: 0 <= r < |runs| ==> WellFormed(runs[r], TMAX)
    ensures ProbabilitiesMatch(g, runs)
  {
    FinalColumnIsFinalCount(g, runs, TMAX);
    GridExtinctionMatchesRuns(g.P, runs);
  }
}
