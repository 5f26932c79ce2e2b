/**
 `RiskAssessmentSystem`: two weighted scores over percentages in 0..100, each a
 convex combination scaled into [0, 1], and the return on an implementation cost.
 */
module RiskAssessment {
  import opened Wrappers
  import PyMath

  /** Operational-efficiency weights. */
  const ProcessTimeWeight := 0.4
  const ErrorRateWeight := 0.35
  const OperationalCostWeight := 0.25

  /** Blockchain-impact weights. */
  const SettlementTimeWeight := 0.4
  const BlockchainCostWeight := 0.3
  const FraudWeight := 0.3

  predicate IsPercentage(x: real) {
    0.0 <= x <= 100.0
  }

  function CalculateOperationalEfficiency(processTimeReduction: real, errorRateReduction: real, costReduction: real): (r: real)
    ensures IsPercentage(processTimeReduction) && IsPercentage(errorRateReduction) && IsPercentage(costReduction)
      ==> 0.0 <= r <= 1.0
    ensures processTimeReduction == errorRateReduction == costReduction == 0.0 ==> r == 0.0
    ensures processTimeReduction == errorRateReduction == costReduction == 100.0 ==> r == 1.0
  {
    (processTimeReduction * ProcessTimeWeight + errorRateReduction * ErrorRateWeight
      + costReduction * OperationalCostWeight) / 100.0
  }

  function AssessBlockchainImpact(settlementTimeReduction: real, costReduction: real, fraudReduction: real): (r: real)
    ensures IsPercentage(settlementTimeReduction) && IsPercentage(costReduction) && IsPercentage(fraudReduction)
      ==> 0.0 <= r <= 1.0
    ensures settlementTimeReduction == costReduction == fraudReduction == 0.0 ==> r == 0.0
    ensures settlementTimeReduction == costReduction == fraudReduction == 100.0 ==> r == 1.0
  {
    (settlementTimeReduction * SettlementTimeWeight + costReduction * BlockchainCostWeight
      + fraudReduction * FraudWeight) / 100.0
  }

  /** Both weight sets sum to 1, which makes each score a convex combination. */
  lemma WeightsSumToOne()
    ensures ProcessTimeWeight + ErrorRateWeight + OperationalCostWeight == 1.0
    ensures SettlementTimeWeight + BlockchainCostWeight + FraudWeight == 1.0
  {
  }

  /** Each score is monotone in every input. */
  lemma ScoresMonotone(a: real, b: real, c: real, a': real, b': real, c': real)
    requires a <= a' && b <= b' && c <= c'
    ensures CalculateOperationalEfficiency(a, b, c) <= CalculateOperationalEfficiency(a', b', c')
    ensures AssessBlockchainImpact(a, b, c) <= AssessBlockchainImpact(a', b', c')
  {
  }

  /** `calculate_roi`: percentage return of `annualSavings * timePeriod` on the implementation cost. */
  function CalculateRoi(implementationCost: real, annualSavings: real, timePeriod: real): (r: Result<real, Error>)
    ensures r.Failure? <==> implementationCost == 0.0
    ensures r.Failure? ==> r.error == DivisionByZero
    ensures r.Success? ==> r.value * implementationCost == (annualSavings * timePeriod - implementationCost) * 100.0
  {
    PyMath.PercentReturn(annualSavings * timePeriod, implementationCost)
  }

  /** With a positive cost the ROI is non-negative exactly when total savings cover the cost. */
  lemma RoiSign(implementationCost: real, annualSavings: real, timePeriod: real)
    requires implementationCost > 0.0
    ensures CalculateRoi(implementationCost, annualSavings, timePeriod).value >= 0.0
      <==> annualSavings * timePeriod >= implementationCost
  {
    PyMath.PercentReturnSign(annualSavings * timePeriod, implementationCost);
  }

  /** Without savings the whole cost is lost: an ROI of -100%. */
  lemma RoiWithoutSavings(implementationCost: real, timePeriod: real)
    requires implementationCost != 0.0
    ensures CalculateRoi(implementationCost, 0.0, timePeriod) == Success(-100.0)
  {
    var r := CalculateRoi(implementationCost, 0.0, timePeriod).value;
    assert r * implementationCost == -100.0 * implementationCost;
  }

  /** The usage example, in exact reals: 64/82/41 efficiency, 96/41/98 impact, $10M cost recouped 1.74 times over 3 years. */
  lemma UsageExample()
    ensures CalculateOperationalEfficiency(64.0, 82.0, 41.0) == 0.6455
    ensures AssessBlockchainImpact(96.0, 41.0, 98.0) == 0.801
    ensures CalculateRoi(10000000.0, 5800000.0, 3.0) == Success(74.0)
  {
  }
}
