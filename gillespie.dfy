/** One draw of the exact stochastic simulation: the waiting time and the event. */
module Gillespie {
  import opened Parameters
  import opened Propensities

  datatype Option<T> = None | Some(value: T)

  /** The state tuple handed to the sampler; P is the integer copy number. */
  datatype Sample = Sample(A: real, P: int, M: real, Q: real)

  datatype Event = Replication | Loss

  /** What the sampler returns when an event is possible. */
  datatype Jump = Jump(tau: real, event: Event)

  /** The two uniform draws of one step; numpy's generator gives values in [0, 1). */
  datatype Draw = Draw(u1: real, u2: real)

  predicate InUnitInterval(d: Draw) {
    0.0 <= d.u1 < 1.0 && 0.0 <= d.u2 < 1.0
  }

  /** The natural logarithm is not available over `real`; the sampler takes it as a
      function. On [0, 1) it is negative (the value at 0 stands for minus infinity). */
  ghost predicate LogAdmissible(ln: real -> real) {
    forall u :: 0.0 <= u < 1.0 ==> ln(u) < 0.0
  }

  /** Total propensity a0 = a1 + a2. */
  function TotalPropensity(p: Params, hill: Hill, s: Sample): (a0: real)
    ensures s.P <= 0 ==> a0 == 0.0
    ensures NonNegativeRates(p) ==> a0 >= 0.0
    ensures NonNegativeRates(p) && s.P > 0 && (p.c_P > 0.0 || p.gamma > 0.0) ==> a0 > 0.0
  {
    A1(p, hill, s.A, s.P) + A2(p, s.P)
  }

  /** `gillespie_step`: None when no event can happen (a0 <= 0); otherwise the
      waiting time -ln(u1)/a0 and replication exactly when u2 < a1/a0. */
  function GillespieStep(p: Params, hill: Hill, ln: real -> real, s: Sample, d: Draw): (r: Option<Jump>)
    ensures r.None? <==> TotalPropensity(p, hill, s) <= 0.0
    ensures s.P <= 0 ==> r.None?
    ensures r.Some? ==> r.value.tau * TotalPropensity(p, hill, s) == -ln(d.u1)
    ensures r.Some? ==>
              (r.value.event == Replication <==> d.u2 * TotalPropensity(p, hill, s) < A1(p, hill, s.A, s.P))
  {
    var a1 := A1(p, hill, s.A, s.P);
    var a2 := A2(p, s.P);
    var a0 := a1 + a2;
    if a0 <= 0.0 then None
    else
      var tau := -ln(d.u1) / a0;
      assert tau * a0 == -ln(d.u1);
      var event := if d.u2 < a1 / a0 then Replication else Loss;
      assert d.u2 < a1 / a0 <==> d.u2 * a0 < a1 by { LessThanQuotient(d.u2, a1, a0); }
      Some(Jump(tau, event))
  }

  /** x < b/a exactly when x a < b, for positive a. */
  lemma LessThanQuotient(x: real, b: real, a: real)
    requires a > 0.0
    ensures x < b / a <==> x * a < b
  {
    var q := b / a;
    assert q * a == b;
    if x < q {
      assert x * a < q * a;
    } else {
      assert x * a >= q * a;
    }
  }

  /** The waiting time of a sampled event is positive for an admissible logarithm
      and a first draw in [0, 1). */
  lemma WaitingTimePositive(p: Params, hill: Hill, ln: real -> real, s: Sample, d: Draw)
    requires LogAdmissible(ln) && 0.0 <= d.u1 < 1.0
    requires GillespieStep(p, hill, ln, s, d).Some?
    ensures GillespieStep(p, hill, ln, s, d).value.tau > 0.0
  {
    var a0 := TotalPropensity(p, hill, s);
    var tau := GillespieStep(p, hill, ln, s, d).value.tau;
    assert ln(d.u1) < 0.0;
    assert tau * a0 > 0.0 && a0 > 0.0;
  }

  /** With no replication propensity every sampled event is a loss (u2 >= 0). */
  lemma NoReplicationMeansLoss(p: Params, hill: Hill, ln: real -> real, s: Sample, d: Draw)
    requires A1(p, hill, s.A, s.P) == 0.0 && d.u2 >= 0.0
    requires GillespieStep(p, hill, ln, s, d).Some?
    ensures GillespieStep(p, hill, ln, s, d).value.event == Loss
  {
    assert d.u2 * TotalPropensity(p, hill, s) >= 0.0;
  }

  /** With no loss propensity every sampled event is a replication (u2 < 1). */
  lemma NoLossMeansReplication(p: Params, hill: Hill, ln: real -> real, s: Sample, d: Draw)
    requires A2(p, s.P) == 0.0 && d.u2 < 1.0
    requires GillespieStep(p, hill, ln, s, d).Some?
    ensures GillespieStep(p, hill, ln, s, d).value.event == Replication
  {
    var a0 := TotalPropensity(p, hill, s);
    assert a0 == A1(p, hill, s.A, s.P) && a0 > 0.0;
    assert (1.0 - d.u2) * a0 > 0.0;
    assert d.u2 * a0 < A1(p, hill, s.A, s.P);
  }

  /** The sampler reads only A and P of the state: M and Q are unpacked and unused. */
  lemma StepIgnoresMessengerAndProtein(p: Params, hill: Hill, ln: real -> real, s: Sample, d: Draw, m: real, q: real)
    ensures GillespieStep(p, hill, ln, s.(M := m, Q := q), d) == GillespieStep(p, hill, ln, s, d)
  {
  }
}
