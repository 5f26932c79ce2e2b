/**
 The institution-level compliance check of `RegulatoryComplianceMonitor`: a
 metric map is compared entry by entry, in insertion order, against fixed
 minimum thresholds, and every metric strictly below its threshold is reported.
 */
module RegulatoryCompliance {
  import opened Wrappers
  import opened Dict
  import PyMath

  datatype Status = Compliant | NonCompliant

  /** The risk labels of the system (`AIRiskPredictor.risk_categories`); the monitor only ever reports `Low`. */
  datatype RiskLevel = Low | Medium | High

  /** One reported metric, the record behind the monitor's `f"{metric}: {value}"` string. */
  datatype Violation = Violation(metric: string, value: real)

  datatype ComplianceStatus = ComplianceStatus(status: Status, violations: seq<Violation>, riskLevel: RiskLevel)

  datatype ComplianceReport = ComplianceReport(
    period: string,
    metrics: Dict<real>,
    complianceStatus: ComplianceStatus,
    recommendations: seq<string>)

  /** Minimum ratios: 8% capital adequacy, 100% liquidity coverage, 3% leverage. */
  const ComplianceThresholds: Dict<real> :=
    [("capital_adequacy_ratio", 0.08), ("liquidity_coverage_ratio", 1.0), ("leverage_ratio", 0.03)]

  /** The threshold of a metric; a metric without one is held to 0. */
  function Threshold(metric: string): real {
    GetOr(ComplianceThresholds, metric, 0.0)
  }

  /** The comparison is strict: a value equal to its threshold complies. */
  predicate Breaches(metric: string, value: real) {
    value < Threshold(metric)
  }

  /** Capital Adequacy Ratio: total capital over risk-weighted assets. */
  function CalculateCapitalAdequacy(tier1Capital: real, tier2Capital: real, riskWeightedAssets: real): (r: Result<real, Error>)
    ensures r.Failure? <==> riskWeightedAssets == 0.0
    ensures r.Failure? ==> r.error == DivisionByZero
    ensures r.Success? ==> r.value * riskWeightedAssets == tier1Capital + tier2Capital
  {
    PyMath.Divide(tier1Capital + tier2Capital, riskWeightedAssets)
  }

  /** The status a monitoring pass starts from. */
  const InitialStatus := ComplianceStatus(Compliant, [], Low)

  /** One iteration of the monitoring loop. */
  function Check(s: ComplianceStatus, entry: (string, real)): ComplianceStatus {
    if Breaches(entry.0, entry.1) then
      s.(violations := s.violations + [Violation(entry.0, entry.1)], status := NonCompliant)
    else s
  }

  /** The monitoring loop over the remaining entries. */
  function CheckAll(s: ComplianceStatus, metrics: Dict<real>): ComplianceStatus
    decreases |metrics|
  {
    if metrics == [] then s else CheckAll(Check(s, metrics[0]), metrics[1..])
  }

  /** Reference definition: the breaching entries of `metrics`, one each, in input order. */
  function ExpectedViolations(metrics: Dict<real>): seq<Violation> {
    if metrics == [] then []
    else
      (if Breaches(metrics[0].0, metrics[0].1) then [Violation(metrics[0].0, metrics[0].1)] else [])
      + ExpectedViolations(metrics[1..])
  }

  /** Running the loop from any state appends exactly the expected violations and flags them. */
  lemma {:induction false} CheckAllAppends(s: ComplianceStatus, metrics: Dict<real>)
    ensures CheckAll(s, metrics).violations == s.violations + ExpectedViolations(metrics)
    ensures CheckAll(s, metrics).status == (if ExpectedViolations(metrics) == [] then s.status else NonCompliant)
    ensures CheckAll(s, metrics).riskLevel == s.riskLevel
    decreases |metrics|
  {
    if metrics != [] {
      CheckAllAppends(Check(s, metrics[0]), metrics[1..]);
    }
  }

  /** `monitor_compliance`. */
  function MonitorCompliance(metrics: Dict<real>): (r: ComplianceStatus)
    ensures r.violations == ExpectedViolations(metrics)
    ensures r.status == NonCompliant <==> r.violations != []
    ensures r.riskLevel == Low
    ensures metrics == [] ==> r == InitialStatus
  {
    CheckAllAppends(InitialStatus, metrics);
    CheckAll(InitialStatus, metrics)
  }

  /** A violation is reported exactly for an input entry whose value is below its threshold. */
  lemma {:induction false} ExpectedViolationsMembers(metrics: Dict<real>, v: Violation)
    ensures v in ExpectedViolations(metrics) <==>
      exists i :: 0 <= i < |metrics| && metrics[i] == (v.metric, v.value) && Breaches(v.metric, v.value)
  {
    if metrics != [] {
      ExpectedViolationsMembers(metrics[1..], v);
      var rest := metrics[1..];
      if v in ExpectedViolations(rest) {
        var i :| 0 <= i < |rest| && rest[i] == (v.metric, v.value) && Breaches(v.metric, v.value);
        assert metrics[i + 1] == rest[i];
      }
      if exists i :: 0 <= i < |metrics| && metrics[i] == (v.metric, v.value) && Breaches(v.metric, v.value) {
        var i :| 0 <= i < |metrics| && metrics[i] == (v.metric, v.value) && Breaches(v.metric, v.value);
        if i > 0 {
          assert rest[i - 1] == metrics[i];
        }
      }
    }
  }

  /** There is at most one violation per input entry. */
  lemma {:induction false} ExpectedViolationsBound(metrics: Dict<real>)
    ensures |ExpectedViolations(metrics)| <= |metrics|
  {
    if metrics != [] {
      ExpectedViolationsBound(metrics[1..]);
    }
  }

  /** The monitor reports NON-COMPLIANT exactly when some metric is strictly below its threshold. */
  lemma MonitorComplianceIff(metrics: Dict<real>)
    ensures MonitorCompliance(metrics).status == NonCompliant <==>
      exists i :: 0 <= i < |metrics| && Breaches(metrics[i].0, metrics[i].1)
  {
    var r := MonitorCompliance(metrics);
    if r.status == NonCompliant {
      var v := r.violations[0];
      ExpectedViolationsMembers(metrics, v);
    }
    if exists i :: 0 <= i < |metrics| && Breaches(metrics[i].0, metrics[i].1) {
      var i :| 0 <= i < |metrics| && Breaches(metrics[i].0, metrics[i].1);
      ExpectedViolationsMembers(metrics, Violation(metrics[i].0, metrics[i].1));
    }
  }

  /** A metric with no configured threshold is a violation exactly when it is negative. */
  lemma UnknownMetricAgainstZero(metric: string, value: real)
    requires metric !in {"capital_adequacy_ratio", "liquidity_coverage_ratio", "leverage_ratio"}
    ensures Breaches(metric, value) <==> value < 0.0
  {
    assert !HasKey(ComplianceThresholds, metric) by {
      forall i | 0 <= i < |ComplianceThresholds| ensures ComplianceThresholds[i].0 != metric {}
    }
  }

  /** `generate_compliance_report`: the period and metrics as given, the monitor's verdict, no recommendations. */
  function GenerateComplianceReport(metrics: Dict<real>, period: string): (r: ComplianceReport)
    ensures r.period == period && r.metrics == metrics
    ensures r.complianceStatus == MonitorCompliance(metrics)
    ensures r.complianceStatus.status == NonCompliant <==>
      exists i :: 0 <= i < |metrics| && Breaches(metrics[i].0, metrics[i].1)
    ensures r.recommendations == []
  {
    MonitorComplianceIff(metrics);
    ComplianceReport(period, metrics, MonitorCompliance(metrics), [])
  }

  /** The sample metrics of the usage example. */
  const SampleMetrics: Dict<real> :=
    [("capital_adequacy_ratio", 0.12), ("liquidity_coverage_ratio", 1.2), ("leverage_ratio", 0.04)]

  /** The usage example's report for 2024-Q1 is COMPLIANT. */
  lemma SampleReportCompliant()
    ensures GenerateComplianceReport(SampleMetrics, "2024-Q1").complianceStatus.status == Compliant
  {
    MonitorComplianceIff(SampleMetrics);
    forall i | 0 <= i < |SampleMetrics| ensures !Breaches(SampleMetrics[i].0, SampleMetrics[i].1) {
      assert Threshold(SampleMetrics[i].0) == ComplianceThresholds[i].1;
    }
  }
}
