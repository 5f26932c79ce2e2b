/**
 `CostBenefitAnalyzer`: a running table of implementation costs that each call
 overwrites and re-totals, a five-percent-a-year benefit projection, and a
 read-out of efficiency metrics.
 */
module CostBenefit {
  import opened Wrappers
  import opened Dict
  import opened PyMath

  /** The analyzer's state; `benefitMetrics` is initialised and never changed. */
  datatype Analyzer = Analyzer(implementationCosts: Dict<real>, benefitMetrics: Dict<real>)

  const InitialAnalyzer := Analyzer(
    [("ai_infrastructure", 0.0), ("blockchain_platform", 0.0), ("training", 0.0), ("maintenance", 0.0)],
    [("cost_reduction", 0.0), ("efficiency_gain", 0.0), ("risk_reduction", 0.0)])

  /** Every key of `merged` reads from `top` where `top` has it, else from `base`. */
  ghost predicate Overlays(merged: Dict<real>, top: Dict<real>, base: Dict<real>) {
    forall k :: Get(merged, k) == (if HasKey(top, k) then Get(top, k) else Get(base, k))
  }

  /**
   `calculate_total_cost`: merge `costs` into the cost table and return the new
   state with the sum of every cost in it.
   */
  function CalculateTotalCost(a: Analyzer, costs: Dict<real>): (r: (Analyzer, real))
    ensures r.0.benefitMetrics == a.benefitMetrics
    ensures DistinctKeys(costs) ==> Overlays(r.0.implementationCosts, costs, a.implementationCosts)
    ensures DistinctKeys(a.implementationCosts) ==> DistinctKeys(r.0.implementationCosts)
    ensures DistinctKeys(a.implementationCosts) && DistinctKeys(costs) ==>
      r.1 == SumValues(a.implementationCosts) - SumAt(a.implementationCosts, Keys(costs)) + SumValues(costs)
  {
    var table := Update(a.implementationCosts, costs);
    assert DistinctKeys(costs) ==> Overlays(table, costs, a.implementationCosts) by {
      if DistinctKeys(costs) {
        forall k ensures Get(table, k) == (if HasKey(costs, k) then Get(costs, k) else Get(a.implementationCosts, k)) {
          UpdateGet(a.implementationCosts, costs, k);
        }
      }
    }
    assert DistinctKeys(a.implementationCosts) ==> DistinctKeys(table) by {
      if DistinctKeys(a.implementationCosts) {
        UpdateDistinct(a.implementationCosts, costs);
      }
    }
    assert DistinctKeys(a.implementationCosts) && DistinctKeys(costs) ==>
      SumValues(table) == SumValues(a.implementationCosts) - SumAt(a.implementationCosts, Keys(costs)) + SumValues(costs) by {
      if DistinctKeys(a.implementationCosts) && DistinctKeys(costs) {
        UpdateSum(a.implementationCosts, costs);
      }
    }
    (a.(implementationCosts := table), SumValues(table))
  }

  /** The default cost table has four distinct keys, all costing zero. */
  lemma DefaultCostsDistinctZero()
    ensures DistinctKeys(InitialAnalyzer.implementationCosts)
    ensures forall i :: 0 <= i < |InitialAnalyzer.implementationCosts| ==> InitialAnalyzer.implementationCosts[i].1 == 0.0
    ensures SumValues(InitialAnalyzer.implementationCosts) == 0.0
  {
    var table := InitialAnalyzer.implementationCosts;
    var initials := ['a', 'b', 't', 'm'];
    forall i, j | 0 <= i < j < |table| ensures table[i].0 != table[j].0 {
      assert table[i].0[0] == initials[i] && table[j].0[0] == initials[j];
    }
  }

  /** On a fresh analyzer, whose four default costs are zero, the total is the sum of the given costs. */
  lemma FreshAnalyzerTotalCost(costs: Dict<real>)
    requires DistinctKeys(costs)
    ensures CalculateTotalCost(InitialAnalyzer, costs).1 == SumValues(costs)
  {
    DefaultCostsDistinctZero();
    SumAtZero(InitialAnalyzer.implementationCosts, Keys(costs));
  }

  /** Annual growth of projected benefits: 5%. */
  const Growth := 1.05

  /** Reference definition: the benefits of years `0 .. years-1`, year `y` earning `annualBenefits * 1.05^y`. */
  function ProjectedTotal(annualBenefits: real, years: nat): real {
    if years == 0 then 0.0
    else ProjectedTotal(annualBenefits, years - 1) + annualBenefits * Pow(Growth, years - 1)
  }

  /** The geometric-series closed form of the projection. */
  lemma {:induction false} ProjectedTotalClosedForm(annualBenefits: real, years: nat)
    ensures ProjectedTotal(annualBenefits, years) * 0.05 == annualBenefits * (Pow(Growth, years) - 1.0)
  {
    if years > 0 {
      ProjectedTotalClosedForm(annualBenefits, years - 1);
      var p := Pow(Growth, years - 1);
      assert Pow(Growth, years) == 1.05 * p;
      calc {
        ProjectedTotal(annualBenefits, years) * 0.05;
        (ProjectedTotal(annualBenefits, years - 1) + annualBenefits * p) * 0.05;
        annualBenefits * (p - 1.0) + annualBenefits * p * 0.05;
        annualBenefits * (1.05 * p - 1.0);
      }
    }
  }

  /** Growth never shrinks a benefit: non-negative benefits total at least `annualBenefits * years`. */
  lemma {:induction false} ProjectedTotalAtLeastLinear(annualBenefits: real, years: nat)
    requires annualBenefits >= 0.0
    ensures ProjectedTotal(annualBenefits, years) >= annualBenefits * (years as real)
  {
    if years > 0 {
      ProjectedTotalAtLeastLinear(annualBenefits, years - 1);
      var p := Pow(Growth, years - 1);
      assert annualBenefits * p >= annualBenefits * 1.0;
    }
  }

  datatype BenefitProjection = BenefitProjection(totalBenefits: real, roi: real, paybackPeriod: real)

  /** `project_benefits`; `range(years)` is empty for `years <= 0`. */
  method ProjectBenefits(initialInvestment: real, annualBenefits: real, years: int) returns (r: Result<BenefitProjection, Error>)
    ensures r.Failure? <==> initialInvestment == 0.0 || annualBenefits == 0.0
    ensures r.Failure? ==> r.error == DivisionByZero
    ensures r.Success? ==> r.value.totalBenefits == ProjectedTotal(annualBenefits, if years > 0 then years else 0)
    ensures r.Success? ==> r.value.totalBenefits * 0.05 == annualBenefits * (Pow(Growth, if years > 0 then years else 0) - 1.0)
    ensures r.Success? && years <= 0 ==> r.value.totalBenefits == 0.0
    ensures r.Success? ==> r.value.roi * initialInvestment == (r.value.totalBenefits - initialInvestment) * 100.0
    ensures r.Success? ==> r.value.paybackPeriod * annualBenefits == initialInvestment
  {
    var n: nat := if years > 0 then years else 0;
    var totalBenefits := 0.0;
    var year: nat := 0;
    while year < n
      invariant year <= n
      invariant totalBenefits == ProjectedTotal(annualBenefits, year)
    {
      totalBenefits := totalBenefits + annualBenefits * Pow(Growth, year);
      year := year + 1;
    }
    ProjectedTotalClosedForm(annualBenefits, n);
    var roi := PercentReturn(totalBenefits, initialInvestment);
    if roi.Failure? {
      return Failure(roi.error);
    }
    var payback := Divide(initialInvestment, annualBenefits);
    if payback.Failure? {
      return Failure(payback.error);
    }
    r := Success(BenefitProjection(totalBenefits, roi.value, payback.value));
  }

  /** The usage example: $4M a year for five years totals $22,102,525. */
  lemma UsageExampleTotal()
    ensures ProjectedTotal(4000000.0, 5) == 22102525.0
  {
    ProjectedTotalClosedForm(4000000.0, 5);
    assert Pow(Growth, 5) == 1.2762815625 by {
      assert Pow(Growth, 2) == 1.1025;
      assert Pow(Growth, 3) == 1.157625;
      assert Pow(Growth, 4) == 1.21550625;
    }
  }

  datatype EfficiencyAnalysis = EfficiencyAnalysis(
    processingTimeReduction: real,
    errorRateImprovement: real,
    costSavings: real)

  /** The value a metric dict holds for `key`, 0 when it holds none. */
  predicate ReadsAs(metrics: Dict<real>, key: string, x: real) {
    if HasKey(metrics, key) then exists i :: 0 <= i < |metrics| && metrics[i] == (key, x) else x == 0.0
  }

  /** `analyze_efficiency_gains`: three metrics read with a default of 0. */
  function AnalyzeEfficiencyGains(metrics: Dict<real>): (r: EfficiencyAnalysis)
    ensures ReadsAs(metrics, "time_reduction", r.processingTimeReduction)
    ensures ReadsAs(metrics, "error_reduction", r.errorRateImprovement)
    ensures ReadsAs(metrics, "cost_savings", r.costSavings)
  {
    EfficiencyAnalysis(
      GetOr(metrics, "time_reduction", 0.0),
      GetOr(metrics, "error_reduction", 0.0),
      GetOr(metrics, "cost_savings", 0.0))
  }
}
