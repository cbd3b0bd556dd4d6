/** The deterministic driver: the initial condition, the invasion-eigenvalue map over
    (E_h, A_ext), and the sweep of equilibrium growth over E_h at three drug levels. */
module OdeModel {
  import opened Parameters
  import opened Odes
  import opened Equilibria
  import opened Grid
  import Pdmp

  /** The initial condition (A, P, M, Q) = (0, 1, 0, 0) of every deterministic run. */
  const Y0: State := State(0.0, 1.0, 0.0, 0.0)

  /** The deterministic runs start where every stochastic trajectory starts. */
  lemma InitialConditionsAgree()
    ensures Y0 == Pdmp.StateOf(Pdmp.Start)
  {
  }

  /** The intrinsic efflux levels and drug levels of the sweeps. */
  const EhValues: seq<real> := Linspace(0.01, 5.0, 100)
  const AextValues: seq<real> := Linspace(0.1, 30.0, 80)
  const SweepDrugLevels: seq<real> := [5.0, 15.0, 25.0]

  /** The inner loop of `run_invasion`: row i gets lambda_P for E_h = eH at every
      drug level, and no other row changes. */
  method FillRow(lambdaGrid: array2<real>, i: nat, base: Params, hill: Hill, eH: real, aextVals: seq<real>)
    requires i < lambdaGrid.Length0 && lambdaGrid.Length1 == |aextVals|
    modifies lambdaGrid
    ensures forall j :: 0 <= j < |aextVals| ==>
              lambdaGrid[i, j] == InvasionEigenvalue(WithScenario(base, aextVals[j], eH), hill)
    ensures forall i', j :: 0 <= i' < lambdaGrid.Length0 && i' != i && 0 <= j < lambdaGrid.Length1 ==>
              lambdaGrid[i', j] == old(lambdaGrid[i', j])
  {
    for j := 0 to |aextVals|
      invariant forall j' :: 0 <= j' < j ==>
                  lambdaGrid[i, j'] == InvasionEigenvalue(WithScenario(base, aextVals[j'], eH), hill)
      invariant forall i', j' :: 0 <= i' < lambdaGrid.Length0 && i' != i && 0 <= j' < lambdaGrid.Length1 ==>
                  lambdaGrid[i', j'] == old(lambdaGrid[i', j'])
    {
      var params := WithScenario(base, aextVals[j], eH);
      lambdaGrid[i, j] := InvasionEigenvalue(params, hill);
    }
  }

  /** `run_invasion`: cell (i, j) is lambda_P with E_h = EhValues[i] and A_ext = AextValues[j]. */
  method RunInvasion(base: Params, hill: Hill) returns (lambdaGrid: array2<real>)
    ensures fresh(lambdaGrid)
    ensures lambdaGrid.Length0 == |EhValues| == 100 && lambdaGrid.Length1 == |AextValues| == 80
    ensures forall i, j :: 0 <= i < lambdaGrid.Length0 && 0 <= j < lambdaGrid.Length1 ==>
              lambdaGrid[i, j] == InvasionEigenvalue(WithScenario(base, AextValues[j], EhValues[i]), hill)
  {
    var ehVals := Linspace(0.01, 5.0, 100);
    var aextVals := Linspace(0.1, 30.0, 80);
    lambdaGrid := new real[|ehVals|, |aextVals|]((_, _) => 0.0);
    for i := 0 to |ehVals|
      invariant forall i', j :: 0 <= i' < i && 0 <= j < |aextVals| ==>
                  lambdaGrid[i', j] == InvasionEigenvalue(WithScenario(base, aextVals[j], ehVals[i']), hill)
    {
      FillRow(lambdaGrid, i, base, hill, ehVals[i], aextVals);
    }
  }

  /** The equilibrium growth rate G(A*) under one scenario override. */
  function EquilibriumGrowth(base: Params, hill: Hill, aExt: real, eH: real): (g: real)
    ensures base.G_max >= 0.0 ==> 0.0 <= g <= base.G_max
  {
    var params := WithScenario(base, aExt, eH);
    GrowthRate(PlasmidFreeEquilibrium(params), params, hill)
  }

  /** One drug level's sweep: the E_h values and G(A*) at each of them. */
  datatype Sweep = Sweep(E_h: seq<real>, G_star: seq<real>)

  /** `run_efflux_sweep`: for each drug level 5, 15, 25 the list of G(A*) over EhValues. */
  method RunEffluxSweep(base: Params, hill: Hill) returns (results: map<real, Sweep>)
    ensures results.Keys == {5.0, 15.0, 25.0}
    ensures forall a :: a in results ==>
              && results[a].E_h == EhValues
              && |results[a].G_star| == |EhValues|
              && forall k :: 0 <= k < |EhValues| ==> results[a].G_star[k] == EquilibriumGrowth(base, hill, a, EhValues[k])
    ensures base.G_max >= 0.0 ==> forall a, k :: a in results && 0 <= k < |results[a].G_star| ==>
              0.0 <= results[a].G_star[k] <= base.G_max
  {
    results := map[];
    var ehVals := Linspace(0.01, 5.0, 100);
    for idx := 0 to |SweepDrugLevels|
      invariant results.Keys == set i | 0 <= i < idx :: SweepDrugLevels[i]
      invariant forall a :: a in results ==>
                  && results[a].E_h == ehVals
                  && |results[a].G_star| == |ehVals|
                  && forall k :: 0 <= k < |ehVals| ==> results[a].G_star[k] == EquilibriumGrowth(base, hill, a, ehVals[k])
    {
      var a := SweepDrugLevels[idx];
      var gStarList: seq<real> := [];
      for k := 0 to |ehVals|
        invariant |gStarList| == k
        invariant forall k' :: 0 <= k' < k ==> gStarList[k'] == EquilibriumGrowth(base, hill, a, ehVals[k'])
      {
        var params := WithScenario(base, a, ehVals[k]);
        var aStar := PlasmidFreeEquilibrium(params);
        var gStar := GrowthRate(aStar, params, hill);
        gStarList := gStarList + [gStar];
      }
      results := results[a := Sweep(ehVals, gStarList)];
    }
    assert results.Keys == {5.0, 15.0, 25.0} by {
      assert results.Keys == set i | 0 <= i < 3 :: SweepDrugLevels[i];
      assert SweepDrugLevels[0] == 5.0 && SweepDrugLevels[1] == 15.0 && SweepDrugLevels[2] == 25.0;
    }
  }
}
