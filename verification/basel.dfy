/**
 `GlobalComplianceMonitor.calculate_basel_iv_compliance`: the capital ratio is
 held to the minimum total capital plus the capital conservation buffer, while
 the reported `required` figure is the minimum alone.
 */
module BaselIV {

  datatype BaselIVMetrics = BaselIVMetrics(
    capitalRatio: real,
    leverageRatio: real,
    liquidityCoverage: real,
    netStableFunding: real,
    riskWeightedAssets: real)

  /** The two entries of the Basel IV requirement table that the check reads. */
  const MinimumTotalCapital := 0.08
  const CapitalConservationBuffer := 0.025

  /** The figure a capital ratio is actually compared with. */
  const EffectiveCapitalRequirement := MinimumTotalCapital + CapitalConservationBuffer

  const CapitalRatioViolation := "Capital ratio below requirement"

  /** The label of a Basel IV metric: 'Compliant' or 'Non-Compliant'. */
  datatype BaselStatus = BaselCompliant | BaselNonCompliant

  /** The `metrics['capital_ratio']` entry of the result. */
  datatype MetricAssessment = MetricAssessment(current: real, required: real, status: BaselStatus)

  datatype BaselCompliance = BaselCompliance(
    overallCompliance: bool,
    metrics: map<string, MetricAssessment>,
    violations: seq<string>)

  function CalculateBaselIVCompliance(m: BaselIVMetrics): (r: BaselCompliance)
    ensures |r.violations| <= 1
    ensures r.violations == [] <==> m.capitalRatio >= 0.105
    ensures r.violations != [] ==> r.violations == [CapitalRatioViolation]
    ensures r.overallCompliance <==> r.violations == []
    ensures r.metrics.Keys == {"capital_ratio"}
    ensures r.metrics["capital_ratio"].current == m.capitalRatio
    ensures r.metrics["capital_ratio"].required == 0.08
    ensures r.metrics["capital_ratio"].status == BaselCompliant <==> r.overallCompliance
  {
    var (overall, violations) :=
      if m.capitalRatio < EffectiveCapitalRequirement then (false, [CapitalRatioViolation]) else (true, []);
    var entry := MetricAssessment(m.capitalRatio, MinimumTotalCapital, if overall then BaselCompliant else BaselNonCompliant);
    BaselCompliance(overall, map["capital_ratio" := entry], violations)
  }

  /** Raising the capital ratio never turns a compliant institution non-compliant. */
  lemma BaselComplianceMonotone(m: BaselIVMetrics, ratio: real)
    requires ratio >= m.capitalRatio
    ensures CalculateBaselIVCompliance(m).overallCompliance ==>
      CalculateBaselIVCompliance(m.(capitalRatio := ratio)).overallCompliance
  {
  }

  /**
   Between 8% and 10.5% the result shows a current ratio at or above the reported
   requirement and still labels it Non-Compliant, since the buffer is not part of `required`.
   */
  lemma ReportedRequirementOmitsBuffer(m: BaselIVMetrics)
    requires 0.08 <= m.capitalRatio < 0.105
    ensures var e := CalculateBaselIVCompliance(m).metrics["capital_ratio"];
      e.current >= e.required && e.status == BaselNonCompliant
  {
  }

  /** A 7% capital ratio yields one violation and overall non-compliance. */
  lemma SevenPercentCapitalFails()
    ensures var r := CalculateBaselIVCompliance(BaselIVMetrics(0.07, 0.0, 0.0, 0.0, 0.0));
      !r.overallCompliance && r.violations == [CapitalRatioViolation]
  {
  }
}
