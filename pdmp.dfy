/** The piecewise-deterministic jump process: one trajectory, and an ensemble of them. */
module Pdmp {
  import opened Parameters
  import opened Odes
  import opened Gillespie
  import opened Grid

  /** The part of the state the numerical solver is asked for: A, M and Q at the
      end of the interval (its value for P is discarded). */
  datatype Continuous = Continuous(A: real, M: real, Q: real)

  /** The numerical integrator of the vector field over [t0, t1] from y0, for a
      parameter set. It is foreign floating-point code and stays opaque. */
  type Solver = (Params, real, real, State) -> Continuous

  /** The recorded samples: times and the four state columns, one entry per sample. */
  datatype Trajectory = Trajectory(t: seq<real>, A: seq<real>, P: seq<int>, M: seq<real>, Q: seq<real>)

  /** The initial condition (A, P, M, Q) = (0, 1, 0, 0) and the one-sample record at t = 0. */
  const Start: Sample := Sample(0.0, 1, 0.0, 0.0)
  const Origin: Trajectory := Trajectory([0.0], [0.0], [1], [0.0], [0.0])

  function Min(a: real, b: real): real {
    if a <= b then a else b
  }

  /** The solver's initial condition: the current state with P as a real. */
  function StateOf(s: Sample): State {
    State(s.A, s.P as real, s.M, s.Q)
  }

  /** Append one sample to every column. */
  function Record(tr: Trajectory, t: real, s: Sample): Trajectory {
    Trajectory(tr.t + [t], tr.A + [s.A], tr.P + [s.P], tr.M + [s.M], tr.Q + [s.Q])
  }

  /** The state after a jump: the solver's A, M and Q at tNext, and P moved by the event. */
  function Next(p: Params, solve: Solver, t: real, tNext: real, s: Sample, e: Event): Sample {
    var c := solve(p, t, tNext, StateOf(s));
    Sample(c.A, if e == Replication then s.P + 1 else s.P - 1, c.M, c.Q)
  }

  /** The loop of `run_pdmp`, as a function of the draws not yet consumed (k is the
      number consumed), the clock t, the current state s and the record so far. The
      loop also stops when the injected draws run out. */
  function Loop(p: Params, hill: Hill, ln: real -> real, solve: Solver, draws: seq<Draw>, TMAX: real,
                k: nat, t: real, s: Sample, acc: Trajectory): (tr: Trajectory)
    decreases |draws| - k
  {
    if !(t < TMAX && s.P > 0) || k >= |draws| then acc
    else
      match GillespieStep(p, hill, ln, s, draws[k])
      case None => acc
      case Some(j) =>
        var tNext := Min(t + j.tau, TMAX);
        // the event is applied even when tNext was clipped to the horizon
        var next := Next(p, solve, t, tNext, s, j.event);
        Loop(p, hill, ln, solve, draws, TMAX, k + 1, tNext, next, Record(acc, tNext, next))
  }

  /** The trajectory `run_pdmp` returns for the given draws. */
  function Run(p: Params, hill: Hill, ln: real -> real, solve: Solver, draws: seq<Draw>, TMAX: real): (tr: Trajectory)
    ensures Aligned(tr) && tr.t[0] == 0.0 && tr.P[0] == 1
    ensures |tr.t| <= |draws| + 1
  {
    LoopAppends(p, hill, ln, solve, draws, TMAX, 0, 0.0, Start, Origin);
    Loop(p, hill, ln, solve, draws, TMAX, 0, 0.0, Start, Origin)
  }

  /** The loop only appends to the record, at most one sample per remaining draw. */
  lemma {:induction false} LoopAppends(p: Params, hill: Hill, ln: real -> real, solve: Solver, draws: seq<Draw>,
                                       TMAX: real, k: nat, t: real, s: Sample, acc: Trajectory)
    requires Aligned(acc) && k <= |draws|
    ensures var tr := Loop(p, hill, ln, solve, draws, TMAX, k, t, s, acc);
            && Aligned(tr) && tr.t[0] == acc.t[0] && tr.P[0] == acc.P[0]
            && |acc.t| <= |tr.t| <= |acc.t| + |draws| - k
    decreases |draws| - k
  {
    if t < TMAX && s.P > 0 && k < |draws| {
      match GillespieStep(p, hill, ln, s, draws[k])
      case None =>
      case Some(j) =>
        var tNext := Min(t + j.tau, TMAX);
        var next := Next(p, solve, t, tNext, s, j.event);
        LoopAppends(p, hill, ln, solve, draws, TMAX, k + 1, tNext, next, Record(acc, tNext, next));
    }
  }

  // ---------------------------------------------------------------------------
  // What a trajectory promises

  /** All five columns have one entry per sample, and there is at least one sample. */
  predicate Aligned(tr: Trajectory) {
    |tr.t| >= 1 && |tr.A| == |tr.t| && |tr.P| == |tr.t| && |tr.M| == |tr.t| && |tr.Q| == |tr.t|
  }

  function LastSample(tr: Trajectory): Sample
    requires Aligned(tr)
  {
    var n := |tr.t| - 1;
    Sample(tr.A[n], tr.P[n], tr.M[n], tr.Q[n])
  }

  predicate StartsAtOrigin(tr: Trajectory)
    requires Aligned(tr)
  {
    tr.t[0] == 0.0 && tr.A[0] == 0.0 && tr.P[0] == 1 && tr.M[0] == 0.0 && tr.Q[0] == 0.0
  }

  /** Consecutive copy numbers differ by exactly one. */
  predicate UnitJumps(P: seq<int>) {
    forall i :: 0 < i < |P| ==> P[i] == P[i - 1] + 1 || P[i] == P[i - 1] - 1
  }

  predicate NonNegativeCounts(P: seq<int>) {
    forall i :: 0 <= i < |P| ==> P[i] >= 0
  }

  /** Every sample after the first lies at or before the horizon. */
  predicate WithinHorizon(t: seq<real>, TMAX: real) {
    forall i :: 0 < i < |t| ==> t[i] <= TMAX
  }

  /** Every sample but the last was taken while the loop was still running. */
  predicate RunningBeforeLast(tr: Trajectory, TMAX: real)
    requires Aligned(tr)
  {
    forall i :: 0 <= i < |tr.t| - 1 ==> tr.t[i] < TMAX && tr.P[i] > 0
  }

  predicate WellFormed(tr: Trajectory, TMAX: real) {
    && Aligned(tr) && StartsAtOrigin(tr)
    && UnitJumps(tr.P) && NonNegativeCounts(tr.P)
    && WithinHorizon(tr.t, TMAX) && RunningBeforeLast(tr, TMAX)
  }

  /** Why the loop stopped: extinction, the horizon, no possible event, or no draws
      left; one draw was consumed per recorded step. */
  predicate Halted(p: Params, hill: Hill, ln: real -> real, draws: seq<Draw>, TMAX: real, tr: Trajectory)
    requires Aligned(tr)
  {
    var n := |tr.t| - 1;
    n <= |draws| &&
    (tr.P[n] == 0 || tr.t[n] >= TMAX || n == |draws| || GillespieStep(p, hill, ln, LastSample(tr), draws[n]).None?)
  }

  predicate ValidDraws(draws: seq<Draw>) {
    forall k :: 0 <= k < |draws| ==> InUnitInterval(draws[k])
  }

  lemma UnitJumpsSnoc(P: seq<int>, x: int)
    requires UnitJumps(P) && |P| > 0 && (x == P[|P| - 1] + 1 || x == P[|P| - 1] - 1)
    ensures UnitJumps(P + [x])
  {
  }

  lemma NonNegativeCountsSnoc(P: seq<int>, x: int)
    requires NonNegativeCounts(P) && x >= 0
    ensures NonNegativeCounts(P + [x])
  {
  }

  lemma WithinHorizonSnoc(t: seq<real>, x: real, TMAX: real)
    requires WithinHorizon(t, TMAX) && x <= TMAX
    ensures WithinHorizon(t + [x], TMAX)
  {
  }

  lemma StrictlyIncreasingSnoc(t: seq<real>, x: real)
    requires StrictlyIncreasing(t) && |t| > 0 && t[|t| - 1] < x
    ensures StrictlyIncreasing(t + [x])
  {
  }

  /** Recording one step taken from a running state keeps a trajectory well formed. */
  lemma RecordKeepsWellFormed(acc: Trajectory, TMAX: real, tNext: real, next: Sample)
    requires WellFormed(acc, TMAX)
    requires LastSample(acc).P > 0 && acc.t[|acc.t| - 1] < TMAX && tNext <= TMAX
    requires next.P == LastSample(acc).P + 1 || next.P == LastSample(acc).P - 1
    ensures var acc' := Record(acc, tNext, next);
            && WellFormed(acc', TMAX) && LastSample(acc') == next && acc'.t[|acc.t|] == tNext
            && (StrictlyIncreasing(acc.t) && acc.t[|acc.t| - 1] < tNext ==> StrictlyIncreasing(acc'.t))
  {
    var acc' := Record(acc, tNext, next);
    var n := |acc.t|;
    UnitJumpsSnoc(acc.P, next.P);
    NonNegativeCountsSnoc(acc.P, next.P);
    WithinHorizonSnoc(acc.t, tNext, TMAX);
    if StrictlyIncreasing(acc.t) && acc.t[n - 1] < tNext {
      StrictlyIncreasingSnoc(acc.t, tNext);
    }
    assert RunningBeforeLast(acc', TMAX) by {
      assert forall i :: 0 <= i < n ==> acc'.t[i] == acc.t[i] && acc'.P[i] == acc.P[i];
    }
  }

  /** What holds of the loop state (k, t, s, acc) at the top of every iteration. */
  ghost predicate LoopInvariant(ln: real -> real, draws: seq<Draw>, TMAX: real, k: nat, t: real, s: Sample,
                                acc: Trajectory)
  {
    && Aligned(acc) && k == |acc.t| - 1 && k <= |draws|
    && LastSample(acc) == s && acc.t[k] == t
    && WellFormed(acc, TMAX)
    && (LogAdmissible(ln) && ValidDraws(draws) ==> StrictlyIncreasing(acc.t))
  }

  /** One iteration of the loop body keeps the loop invariant. */
  lemma StepKeepsLoopInvariant(p: Params, hill: Hill, ln: real -> real, solve: Solver, draws: seq<Draw>,
                               TMAX: real, k: nat, t: real, s: Sample, acc: Trajectory, j: Jump)
    requires LoopInvariant(ln, draws, TMAX, k, t, s, acc)
    requires t < TMAX && s.P > 0 && k < |draws|
    requires GillespieStep(p, hill, ln, s, draws[k]) == Some(j)
    ensures var tNext := Min(t + j.tau, TMAX);
            var next := Next(p, solve, t, tNext, s, j.event);
            LoopInvariant(ln, draws, TMAX, k + 1, tNext, next, Record(acc, tNext, next))
  {
    var tNext := Min(t + j.tau, TMAX);
    var next := Next(p, solve, t, tNext, s, j.event);
    RecordKeepsWellFormed(acc, TMAX, tNext, next);
    if LogAdmissible(ln) && ValidDraws(draws) {
      assert InUnitInterval(draws[k]);
      WaitingTimePositive(p, hill, ln, s, draws[k]);
    }
  }

  /** What the record promises once the loop has returned. */
  ghost predicate Finished(p: Params, hill: Hill, ln: real -> real, draws: seq<Draw>, TMAX: real, tr: Trajectory) {
    && WellFormed(tr, TMAX) && Halted(p, hill, ln, draws, TMAX, tr)
    && (LogAdmissible(ln) && ValidDraws(draws) ==> StrictlyIncreasing(tr.t))
  }

  /** A loop state at which the loop exits is a finished record. */
  lemma StoppedIsFinished(p: Params, hill: Hill, ln: real -> real, draws: seq<Draw>, TMAX: real,
                          k: nat, t: real, s: Sample, acc: Trajectory)
    requires LoopInvariant(ln, draws, TMAX, k, t, s, acc)
    requires !(t < TMAX && s.P > 0) || k >= |draws| || GillespieStep(p, hill, ln, s, draws[k]).None?
    ensures Finished(p, hill, ln, draws, TMAX, acc)
  {
    assert s.P >= 0 by { assert acc.P[k] >= 0; }
  }

  /** The loop keeps every trajectory property, and when it returns it has halted. */
  lemma {:induction false} LoopProperties(p: Params, hill: Hill, ln: real -> real, solve: Solver, draws: seq<Draw>,
                                          TMAX: real, k: nat, t: real, s: Sample, acc: Trajectory)
    requires LoopInvariant(ln, draws, TMAX, k, t, s, acc)
    ensures Finished(p, hill, ln, draws, TMAX, Loop(p, hill, ln, solve, draws, TMAX, k, t, s, acc))
    decreases |draws| - k
  {
    if !(t < TMAX && s.P > 0) || k >= |draws| {
      assert Loop(p, hill, ln, solve, draws, TMAX, k, t, s, acc) == acc;
      StoppedIsFinished(p, hill, ln, draws, TMAX, k, t, s, acc);
    } else {
      match GillespieStep(p, hill, ln, s, draws[k])
      case None =>
        assert Loop(p, hill, ln, solve, draws, TMAX, k, t, s, acc) == acc;
        StoppedIsFinished(p, hill, ln, draws, TMAX, k, t, s, acc);
      case Some(j) =>
        var tNext := Min(t + j.tau, TMAX);
        var next := Next(p, solve, t, tNext, s, j.event);
        StepKeepsLoopInvariant(p, hill, ln, solve, draws, TMAX, k, t, s, acc, j);
        assert Loop(p, hill, ln, solve, draws, TMAX, k, t, s, acc)
               == Loop(p, hill, ln, solve, draws, TMAX, k + 1, tNext, next, Record(acc, tNext, next));
        LoopProperties(p, hill, ln, solve, draws, TMAX, k + 1, tNext, next, Record(acc, tNext, next));
    }
  }

  /** Every trajectory starts at (0, 1, 0, 0), moves P by one per step, keeps P
      non-negative and the times within the horizon, stops at the first extinction or
      horizon hit, and records only the initial sample when the horizon is not positive. */
  lemma RunProperties(p: Params, hill: Hill, ln: real -> real, solve: Solver, draws: seq<Draw>, TMAX: real)
    ensures var tr := Run(p, hill, ln, solve, draws, TMAX);
            && WellFormed(tr, TMAX) && Halted(p, hill, ln, draws, TMAX, tr)
            && (LogAdmissible(ln) && ValidDraws(draws) ==> StrictlyIncreasing(tr.t))
            && (TMAX <= 0.0 ==> tr == Origin)
  {
    LoopProperties(p, hill, ln, solve, draws, TMAX, 0, 0.0, Start, Origin);
  }

  // ---------------------------------------------------------------------------
  // How each recorded step arises from the draws and the solver

  function SampleAt(tr: Trajectory, i: nat): Sample
    requires Aligned(tr) && i < |tr.t|
  {
    Sample(tr.A[i], tr.P[i], tr.M[i], tr.Q[i])
  }

  /** Step i of the record is the one draw i produces: the Gillespie step from sample i
      picks an event and a waiting time, the time advances by it (clipped to TMAX),
      the solver carries A, M and Q from t[i] to t[i+1], and P moves by the event. */
  ghost predicate StepFromDraw(p: Params, hill: Hill, ln: real -> real, solve: Solver, draws: seq<Draw>,
                               TMAX: real, tr: Trajectory, i: nat)
    requires Aligned(tr) && i + 1 < |tr.t| && i < |draws|
  {
    var s := SampleAt(tr, i);
    match GillespieStep(p, hill, ln, s, draws[i])
    case None => false
    case Some(j) =>
      var c := solve(p, tr.t[i], tr.t[i + 1], StateOf(s));
      && tr.t[i + 1] == Min(tr.t[i] + j.tau, TMAX)
      && tr.A[i + 1] == c.A && tr.M[i + 1] == c.M && tr.Q[i + 1] == c.Q
      && tr.P[i + 1] == (if j.event == Replication then s.P + 1 else s.P - 1)
  }

  /** Every step of the record is produced by its own draw, in order. */
  ghost predicate FollowsDraws(p: Params, hill: Hill, ln: real -> real, solve: Solver, draws: seq<Draw>,
                               TMAX: real, tr: Trajectory)
  {
    && Aligned(tr) && |tr.t| - 1 <= |draws|
    && forall i :: 0 <= i < |tr.t| - 1 ==> StepFromDraw(p, hill, ln, solve, draws, TMAX, tr, i)
  }

  /** Recording the step that draw k produces extends a record that follows the draws. */
  lemma RecordFollowsDraws(p: Params, hill: Hill, ln: real -> real, solve: Solver, draws: seq<Draw>,
                           TMAX: real, k: nat, t: real, s: Sample, acc: Trajectory, j: Jump)
    requires FollowsDraws(p, hill, ln, solve, draws, TMAX, acc)
    requires k == |acc.t| - 1 && k < |draws| && LastSample(acc) == s && acc.t[k] == t
    requires GillespieStep(p, hill, ln, s, draws[k]) == Some(j)
    ensures var tNext := Min(t + j.tau, TMAX);
            FollowsDraws(p, hill, ln, solve, draws, TMAX, Record(acc, tNext, Next(p, solve, t, tNext, s, j.event)))
  {
    var tNext := Min(t + j.tau, TMAX);
    var acc' := Record(acc, tNext, Next(p, solve, t, tNext, s, j.event));
    forall i | 0 <= i < k
      ensures StepFromDraw(p, hill, ln, solve, draws, TMAX, acc', i)
    {
      assert StepFromDraw(p, hill, ln, solve, draws, TMAX, acc, i);
      assert SampleAt(acc', i) == SampleAt(acc, i);
      assert acc'.t[i] == acc.t[i] && acc'.t[i + 1] == acc.t[i + 1];
      assert acc'.A[i + 1] == acc.A[i + 1] && acc'.M[i + 1] == acc.M[i + 1];
      assert acc'.Q[i + 1] == acc.Q[i + 1] && acc'.P[i + 1] == acc.P[i + 1];
    }
    assert SampleAt(acc', k) == s;
    assert StepFromDraw(p, hill, ln, solve, draws, TMAX, acc', k);
  }

  lemma {:induction false} LoopFollowsDraws(p: Params, hill: Hill, ln: real -> real, solve: Solver, draws: seq<Draw>,
                                            TMAX: real, k: nat, t: real, s: Sample, acc: Trajectory)
    requires FollowsDraws(p, hill, ln, solve, draws, TMAX, acc)
    requires k == |acc.t| - 1 && LastSample(acc) == s && acc.t[k] == t
    ensures FollowsDraws(p, hill, ln, solve, draws, TMAX, Loop(p, hill, ln, solve, draws, TMAX, k, t, s, acc))
    decreases |draws| - k
  {
    if t < TMAX && s.P > 0 && k < |draws| {
      match GillespieStep(p, hill, ln, s, draws[k])
      case None =>
      case Some(j) =>
        var tNext := Min(t + j.tau, TMAX);
        var next := Next(p, solve, t, tNext, s, j.event);
        RecordFollowsDraws(p, hill, ln, solve, draws, TMAX, k, t, s, acc, j);
        LoopFollowsDraws(p, hill, ln, solve, draws, TMAX, k + 1, tNext, next, Record(acc, tNext, next));
    }
  }

  /** Each step of a run is the jump its own draw produces from the previous sample:
      the event and the waiting time of `gillespie_step`, the time clipped to TMAX,
      the solver's A, M and Q over the step, and P moved by the event. */
  lemma RunFollowsDraws(p: Params, hill: Hill, ln: real -> real, solve: Solver, draws: seq<Draw>, TMAX: real)
    ensures FollowsDraws(p, hill, ln, solve, draws, TMAX, Run(p, hill, ln, solve, draws, TMAX))
  {
    LoopFollowsDraws(p, hill, ln, solve, draws, TMAX, 0, 0.0, Start, Origin);
  }

  // ---------------------------------------------------------------------------
  // The imperative loop and the ensemble

  /** `run_pdmp`: the jump loop, with the solver and the random draws passed in. */
  method RunPdmp(p: Params, hill: Hill, ln: real -> real, solve: Solver, draws: seq<Draw>, TMAX: real)
    returns (tr: Trajectory)
    ensures tr == Run(p, hill, ln, solve, draws, TMAX)
    ensures WellFormed(tr, TMAX) && Halted(p, hill, ln, draws, TMAX, tr)
    ensures LogAdmissible(ln) && ValidDraws(draws) ==> StrictlyIncreasing(tr.t)
    ensures TMAX <= 0.0 ==> tr == Origin
  {
    var t := 0.0;
    var A, P, M, Q := 0.0, 1, 0.0, 0.0;
    var times := [t];
    var As, Ps, Ms, Qs := [A], [P], [M], [Q];
    var k := 0;
    while t < TMAX && P > 0 && k < |draws|
      invariant 0 <= k <= |draws|
      invariant Loop(p, hill, ln, solve, draws, TMAX, k, t, Sample(A, P, M, Q), Trajectory(times, As, Ps, Ms, Qs))
                == Run(p, hill, ln, solve, draws, TMAX)
      decreases |draws| - k
    {
      var step := GillespieStep(p, hill, ln, Sample(A, P, M, Q), draws[k]);
      if step.None? {
        break;
      }
      var tNext := Min(t + step.value.tau, TMAX);
      ghost var before, tBefore := Sample(A, P, M, Q), t;
      var sol := solve(p, t, tNext, State(A, P as real, M, Q));
      A, M, Q := sol.A, sol.M, sol.Q;
      if step.value.event == Replication {
        P := P + 1;
      } else {
        P := P - 1;
      }
      assert Sample(A, P, M, Q) == Next(p, solve, tBefore, tNext, before, step.value.event);
      t := tNext;
      times := times + [t];
      As, Ps, Ms, Qs := As + [A], Ps + [P], Ms + [M], Qs + [Q];
      k := k + 1;
    }
    tr := Trajectory(times, As, Ps, Ms, Qs);
    RunProperties(p, hill, ln, solve, draws, TMAX);
  }

  /** The identity of a scenario under study. */
  datatype Scenario = Scenario(name: string, A_ext: real, E_h: real)

  /** The runs of one scenario together with the scenario they belong to. */
  datatype Ensemble = Ensemble(trajectories: seq<Trajectory>, params: Scenario)

  /** `run_pdmp_scenarios`: `steps` independent runs, run i drawing from stream i,
      stored under the scenario's name. */
  method RunPdmpScenarios(p: Params, hill: Hill, ln: real -> real, solve: Solver, TMAX: real,
                          sc: Scenario, steps: nat, streams: nat -> seq<Draw>)
    returns (results: map<string, Ensemble>)
    ensures results.Keys == {sc.name}
    ensures results[sc.name].params == sc
    ensures |results[sc.name].trajectories| == steps
    ensures forall i :: 0 <= i < steps ==>
              results[sc.name].trajectories[i] == Run(p, hill, ln, solve, streams(i), TMAX)
    ensures forall tr <- results[sc.name].trajectories :: WellFormed(tr, TMAX)
  {
    results := map[];
    var trajectories: seq<Trajectory> := [];
    for i := 0 to steps
      invariant |trajectories| == i
      invariant forall j :: 0 <= j < i ==> trajectories[j] == Run(p, hill, ln, solve, streams(j), TMAX)
      invariant forall tr <- trajectories :: WellFormed(tr, TMAX)
    {
      var traj := RunPdmp(p, hill, ln, solve, streams(i), TMAX);
      trajectories := trajectories + [traj];
    }
    results := results[sc.name := Ensemble(trajectories, sc)];
  }
}
