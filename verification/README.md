# Risk and compliance rules of the AI/blockchain banking notebook, in Dafny

This project models the deterministic rule layer of
`ai_and_blockchain_integration_in_investment_and_digital_banking.py`:

- the institution-level compliance monitor (`RegulatoryComplianceMonitor`): the Capital
  Adequacy Ratio, the per-metric minimum-threshold check and the compliance report;
- the Basel IV capital-ratio check of `GlobalComplianceMonitor`;
- the weighted scores and the ROI of `RiskAssessmentSystem`;
- the cost table, the 5%-growth benefit projection and the efficiency read-out of `CostBenefitAnalyzer`;
- the high-value alert rule of `BlockchainMonitor`;
- the size-triggered FIFO batching of `RealTimeProcessor`.

Floats are exact `real`s. `1.05 ** year` is the recursive `PyMath.Pow`. Python dicts are
insertion-ordered association lists with distinct keys (module `Dict`). Each `.get(k, default)`,
`d.update(other)` and `sum(d.values())` is written out there, with lemmas.
Three exceptions become a `Failure` of `Wrappers.Result`, and each contract names which one:
`ZeroDivisionError` for a zero divisor, `KeyError` for a missing `'value'` field, and
`TypeError` for a textual value compared with a number. No `requires` clause rules out inputs.
Float overflow and calls to undefined helpers are not modelled (see "## Left out").

Modules: `Wrappers`, `Dict`, `PyMath` (helpers); `RegulatoryCompliance`, `BaselIV`,
`RiskAssessment`, `CostBenefit`, `BlockchainMonitor`, `RealTime` (one per class).

Points where the code's behaviour is easy to misread:

- A metric with no configured threshold is compared against 0. It is not skipped.
- Weights are not validated.
- Batches close on size only. `processing_interval` is never read, so there is no time-triggered close.
- The Basel IV status label is computed after the only check, so it always agrees with
  `overall_compliance`. There is no partial-evaluation ordering problem in this code.

## Model

| member | source | states |
|---|---|---|
| Dict.Get | ai_and_blockchain_integration_in_investment_and_digital_banking.py:232 | a lookup finds nothing exactly when no entry has the key, and otherwise returns a value stored under that key |
| Dict.Put | ai_and_blockchain_integration_in_investment_and_digital_banking.py:370 | after writing `k`, `k` reads the new value and every other key reads as before; an existing key keeps the length, a new one is appended at the end |
| Dict.PutDistinct | ai_and_blockchain_integration_in_investment_and_digital_banking.py:370 | writing a key never creates a duplicate key |
| Dict.Update | ai_and_blockchain_integration_in_investment_and_digital_banking.py:370 | after `d.update(other)` every key absent from `other` reads as it did in `d` |
| Dict.UpdateDistinct | ai_and_blockchain_integration_in_investment_and_digital_banking.py:370 | `update` keeps the keys of a dict distinct |
| Dict.UpdateGet | ai_and_blockchain_integration_in_investment_and_digital_banking.py:370 | after `d.update(other)` a key reads from `other` if `other` holds it, else from `d` |
| Dict.PutSum | ai_and_blockchain_integration_in_investment_and_digital_banking.py:370-371 | overwriting one entry changes the value sum by new value minus old value |
| Dict.UpdateSum | ai_and_blockchain_integration_in_investment_and_digital_banking.py:370-371 | the value sum after `update` is the old sum, minus the overwritten values, plus the sum of `other` |
| PyMath.Divide | ai_and_blockchain_integration_in_investment_and_digital_banking.py:219 | true division fails with ZeroDivisionError exactly for a zero divisor; otherwise the quotient times the divisor gives back the dividend |
| PyMath.PercentReturn | ai_and_blockchain_integration_in_investment_and_digital_banking.py:164 | the percentage return fails with ZeroDivisionError exactly for a zero cost; otherwise return times cost equals (gain - cost) * 100 |
| PyMath.Pow | ai_and_blockchain_integration_in_investment_and_digital_banking.py:377 | a power of a base of at least 1 is at least 1; a power of a positive base is positive |
| PyMath.PercentReturnSign | ai_and_blockchain_integration_in_investment_and_digital_banking.py:164 | for a positive cost the return is non-negative iff the gain covers the cost |
| RegulatoryCompliance.CalculateCapitalAdequacy | ai_and_blockchain_integration_in_investment_and_digital_banking.py:216-220 | CAR fails with ZeroDivisionError exactly when risk-weighted assets are zero; otherwise CAR times risk-weighted assets is tier 1 plus tier 2 capital |
| RegulatoryCompliance.CheckAllAppends | ai_and_blockchain_integration_in_investment_and_digital_banking.py:231-234 | the monitoring loop, from any state, appends exactly the breaching entries in input order and flips the status to NON-COMPLIANT iff it appended one |
| RegulatoryCompliance.MonitorCompliance | ai_and_blockchain_integration_in_investment_and_digital_banking.py:222-236 | violations are exactly the breaching entries in input order, status is NON-COMPLIANT iff the violation list is non-empty, risk level is always LOW, and an empty metric map gives COMPLIANT with no violations |
| RegulatoryCompliance.ExpectedViolationsMembers | ai_and_blockchain_integration_in_investment_and_digital_banking.py:231-233 | a violation is reported iff some input entry carries that metric and value and is strictly below its threshold |
| RegulatoryCompliance.ExpectedViolationsBound | ai_and_blockchain_integration_in_investment_and_digital_banking.py:231-233 | there are never more violations than input metrics |
| RegulatoryCompliance.MonitorComplianceIff | ai_and_blockchain_integration_in_investment_and_digital_banking.py:231-234 | status is NON-COMPLIANT iff some metric is strictly below its threshold; a value equal to its threshold complies |
| RegulatoryCompliance.UnknownMetricAgainstZero | ai_and_blockchain_integration_in_investment_and_digital_banking.py:203-207 | a metric outside the three configured thresholds breaches iff its value is negative |
| RegulatoryCompliance.GenerateComplianceReport | ai_and_blockchain_integration_in_investment_and_digital_banking.py:238-246 | the report carries the given period and metrics unchanged, the monitor's verdict (NON-COMPLIANT iff some metric breaches) and no recommendations |
| RegulatoryCompliance.SampleReportCompliant | ai_and_blockchain_integration_in_investment_and_digital_banking.py:408-418 | the sample metrics 0.12 / 1.2 / 0.04 for 2024-Q1 are COMPLIANT |
| BaselIV.CalculateBaselIVCompliance | ai_and_blockchain_integration_in_investment_and_digital_banking.py:485-508 | exactly one violation iff the capital ratio is below 0.105 (8% plus the 2.5% buffer), overall compliance iff no violation, and one `capital_ratio` entry: current ratio, required 0.08, label agreeing with overall compliance |
| BaselIV.BaselComplianceMonotone | ai_and_blockchain_integration_in_investment_and_digital_banking.py:497-500 | raising the capital ratio never loses compliance |
| BaselIV.ReportedRequirementOmitsBuffer | ai_and_blockchain_integration_in_investment_and_digital_banking.py:502-506 | for a ratio in [0.08, 0.105) the entry shows current >= required yet labels it Non-Compliant |
| BaselIV.SevenPercentCapitalFails | ai_and_blockchain_integration_in_investment_and_digital_banking.py:497-500 | a 7% capital ratio gives overall non-compliance with the one capital-ratio violation |
| RiskAssessment.CalculateOperationalEfficiency | ai_and_blockchain_integration_in_investment_and_digital_banking.py:119-133 | for percentages in [0,100] the score lies in [0,1]; it is 0 for all-zero inputs and 1 for all-100 inputs |
| RiskAssessment.AssessBlockchainImpact | ai_and_blockchain_integration_in_investment_and_digital_banking.py:135-149 | for percentages in [0,100] the score lies in [0,1]; it is 0 for all-zero inputs and 1 for all-100 inputs |
| RiskAssessment.WeightsSumToOne | ai_and_blockchain_integration_in_investment_and_digital_banking.py:127-147 | the 0.4/0.35/0.25 and 0.4/0.3/0.3 weight sets each sum to 1 |
| RiskAssessment.ScoresMonotone | ai_and_blockchain_integration_in_investment_and_digital_banking.py:127-147 | both scores are monotone in every input |
| RiskAssessment.CalculateRoi | ai_and_blockchain_integration_in_investment_and_digital_banking.py:151-165 | ROI fails with ZeroDivisionError exactly for a zero implementation cost; otherwise ROI times cost equals (savings * period - cost) * 100 |
| RiskAssessment.RoiSign | ai_and_blockchain_integration_in_investment_and_digital_banking.py:163-164 | for a positive cost, ROI >= 0 iff annual savings times period covers the cost |
| RiskAssessment.RoiWithoutSavings | ai_and_blockchain_integration_in_investment_and_digital_banking.py:163-164 | with zero savings and a non-zero cost the ROI is -100 |
| RiskAssessment.UsageExample | ai_and_blockchain_integration_in_investment_and_digital_banking.py:168-189 | in exact reals the usage example gives efficiency 0.6455, impact 0.801 and a 74% ROI (the program's doubles give 0.8009999999999999 for the impact) |
| CostBenefit.CalculateTotalCost | ai_and_blockchain_integration_in_investment_and_digital_banking.py:368-371 | the new cost table reads each given cost where given and the old cost elsewhere, keeps keys distinct, leaves the benefit metrics alone, and its total is old total minus overwritten costs plus the given costs |
| CostBenefit.DefaultCostsDistinctZero | ai_and_blockchain_integration_in_investment_and_digital_banking.py:356-361 | the fresh cost table has four distinct keys whose costs are all zero, so it totals 0 |
| CostBenefit.FreshAnalyzerTotalCost | ai_and_blockchain_integration_in_investment_and_digital_banking.py:355-371 | on a fresh analyzer, whose four default costs are zero, the total is the sum of the given costs |
| CostBenefit.ProjectedTotalClosedForm | ai_and_blockchain_integration_in_investment_and_digital_banking.py:375-377 | the summed projection matches the geometric-series closed form: total * 0.05 == annual * (1.05^years - 1) |
| CostBenefit.ProjectedTotalAtLeastLinear | ai_and_blockchain_integration_in_investment_and_digital_banking.py:375-377 | non-negative annual benefits project to at least annual * years |
| CostBenefit.ProjectBenefits | ai_and_blockchain_integration_in_investment_and_digital_banking.py:373-383 | fails with ZeroDivisionError exactly when the investment or the annual benefit is zero; otherwise the total follows the 5%-growth sum and its closed form (0 for years <= 0), ROI times investment is (total - investment) * 100, and payback times annual benefit is the investment |
| CostBenefit.UsageExampleTotal | ai_and_blockchain_integration_in_investment_and_digital_banking.py:421-425 | $4M a year over 5 years projects to $22,102,525 |
| CostBenefit.AnalyzeEfficiencyGains | ai_and_blockchain_integration_in_investment_and_digital_banking.py:385-392 | each of the three fields is the value stored under its key, or 0 when the key is absent |
| BlockchainMonitor.GenerateAlerts | ai_and_blockchain_integration_in_investment_and_digital_banking.py:338-343 | fails exactly when the transaction has no numeric `value`, with KeyError when the field is missing and TypeError when it is text; otherwise at most one alert, HIGH_VALUE_TRANSACTION iff value > 1,000,000 strictly, none otherwise |
| BlockchainMonitor.HighValueScenarios | ai_and_blockchain_integration_in_investment_and_digital_banking.py:309 | a $2M transaction raises the alert; exactly $1M does not |
| RealTime.ProcessBatch | ai_and_blockchain_integration_in_investment_and_digital_banking.py:549-572 | removes a FIFO prefix of length min(batch_size, queue length), leaves the remainder in order, and its analysis reports that length as `batch_size` |
| RealTime.ProcessTransactionStream | ai_and_blockchain_integration_in_investment_and_digital_banking.py:540-547 | emitted batches followed by the remaining queue equal the old queue followed by the submissions; every batch has exactly batch_size items; the queue stays below batch_size; batches * batch_size + remainder = items seen |
| RealTime.ThousandTransactionsOneBatch | ai_and_blockchain_integration_in_investment_and_digital_banking.py:534-547 | 1000 submissions to a new processor emit exactly one analysis, of batch size 1000, and leave the queue empty |

## Left out

- Plotting and data-frame builders (lines 15-105): fixed literals and rendering only.
- `AIRiskPredictor` (261-289): scikit-learn training and prediction, and numpy statistics over floats.
- `monitor_transaction` (313-326): SHA-256 over `json.dumps` is a foreign hash and serialiser. `assess_transaction_risk` calls helpers the file never defines.
- `monitor_realtime_compliance` (510-519) calls `check_transaction_compliance` and `assess_transaction_risk`, which `GlobalComplianceMonitor` never defines.
- `calculate_batch_risk_metrics`, `check_batch_compliance` (569-570) and `store_results` (560) are never defined, so calling them raises AttributeError. The model assumes they return normally. `BatchAnalysis` keeps only the batch size.
- The FastAPI endpoints, OAuth2 and the package-install line (582-632), and `PerformanceMonitor` (642-716): web framing, an infinite asyncio loop, and undefined helpers.
- Every `datetime.now()` timestamp: a clock reading with no bearing on the rules.
- The unread tables `risk_weights` (113-117, 208-214), `jurisdiction_requirements` (461-483), the Basel requirements other than minimum total capital and the conservation buffer (454, 457-458), and `suspicious_pattern_threshold` (310): no modelled operation reads them, so they are not declared. The metric fields of `BaselIVMetrics` other than the capital ratio are declared only to mirror the dataclass.
- Float rounding: all quantities are exact reals.
- BaselIV.CalculateBaselIVCompliance: the boundary is the exact real 0.105. In doubles `0.08 + 0.025` is 0.10500000000000001, so the program flags a capital ratio of exactly 0.105 as below requirement, while the model calls it compliant. Other ratios within one ulp of 0.105 may differ the same way.
- CostBenefit.ProjectBenefits: float overflow of `1.05 ** year` is not modelled, because exact reals do not overflow. The code raises OverflowError once `year` reaches 14548, and the model returns `Success` there.
- Non-numeric metric values: comparing one with a threshold raises TypeError in the code. The model's metric maps hold numbers only.
- Violation strings: the record `Violation(metric, value)` stands for the `f"{metric}: {value}"` string. Float-to-text formatting is not modelled.
- `RealTime.ProcessTransactionStream`: models a finite stream. An endless async generator is the limit of its prefixes. Asyncio scheduling adds nothing with a single consumer.
- Negative batch sizes: the batch size is a natural number. A negative `batch_size` assigned from outside is not modelled.
