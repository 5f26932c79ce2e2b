/** `BlockchainMonitor.generate_alerts`: the high-value alert rule on one transaction. */
module BlockchainMonitor {
  import opened Wrappers
  import opened Dict

  /** A transaction field: numeric or textual. */
  datatype FieldValue = Num(n: real) | Text(s: string)

  /** A transaction as the monitor receives it: a dict of named fields. */
  type Transaction = Dict<FieldValue>

  datatype Alert = HighValueTransaction

  /** The high-value alert threshold: $1M. */
  const HighValueThreshold := 1000000.0

  /**
   The alerts for one transaction. Reading `transaction['value']` raises KeyError
   when the field is missing, and comparing a textual value with a number raises TypeError.
   */
  function GenerateAlerts(transaction: Transaction): (r: Result<seq<Alert>, Error>)
    ensures r.Failure? <==> !(Get(transaction, "value").Some? && Get(transaction, "value").value.Num?)
    ensures r.Failure? && !HasKey(transaction, "value") ==> r.error == MissingKey("value")
    ensures r.Failure? && HasKey(transaction, "value") ==> r.error == NotComparable("value")
    ensures r.Success? ==> |r.value| <= 1
    ensures r.Success? ==> (r.value == [HighValueTransaction] <==> Get(transaction, "value").value.n > 1000000.0)
    ensures r.Success? ==> (r.value == [] <==> Get(transaction, "value").value.n <= 1000000.0)
  {
    var field: Option<FieldValue> := Get(transaction, "value");
    match field
    case None => Failure(MissingKey("value"))
    case Some(Text(_)) => Failure(NotComparable("value"))
    case Some(Num(v)) => Success(if v > HighValueThreshold then [HighValueTransaction] else [])
  }

  /** A $2M transfer raises a HIGH_VALUE_TRANSACTION alert; exactly $1M does not. */
  lemma HighValueScenarios()
    ensures GenerateAlerts([("value", Num(2000000.0))]) == Success([HighValueTransaction])
    ensures GenerateAlerts([("value", Num(1000000.0))]) == Success([])
  {
  }
}
