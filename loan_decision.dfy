/** The loan decision (src/lambdas/loan-decision/index.ts): reject on a
    high risk score, then on an amount above the maximum, otherwise approve
    at the recommended rate. The risk numbers arrive through JSON, so a
    non-finite one is `null`, which the comparisons read as 0. */
module LoanDecision {
  import opened Wrappers
  import opened LoanTypes
  import opened JsNumber

  datatype DecisionEvent = DecisionEvent(
    amount: real,
    riskScore: Wire,
    maxLoanAmount: Wire,
    recommendedInterestRate: Wire)

  const MaxRiskScore: real := 80.0
  const RiskTooHigh: string := "Risk score too high"
  const AmountTooHigh: string := "Requested amount exceeds maximum approved amount"

  /** The handler's three early returns. */
  function Decide(e: DecisionEvent): (d: Decision)
    ensures d.approved <==> Coerce(e.riskScore) <= MaxRiskScore && e.amount <= Coerce(e.maxLoanAmount)
    ensures Coerce(e.riskScore) > MaxRiskScore ==> d == Decision(false, None, None, Some(RiskTooHigh))
    ensures Coerce(e.riskScore) <= MaxRiskScore && e.amount > Coerce(e.maxLoanAmount) ==>
              d == Decision(false, Some(e.maxLoanAmount), None, Some(AmountTooHigh))
    ensures d.approved ==>
              d == Decision(true, Some(e.maxLoanAmount), Some(e.recommendedInterestRate), None)
  {
    if Coerce(e.riskScore) > MaxRiskScore then
      Decision(false, None, None, Some(RiskTooHigh))
    else if e.amount > Coerce(e.maxLoanAmount) then
      Decision(false, Some(e.maxLoanAmount), None, Some(AmountTooHigh))
    else
      Decision(true, Some(e.maxLoanAmount), Some(e.recommendedInterestRate), None)
  }

  /** Every decision either approves with a rate and no reason or rejects
      with a reason and no rate. */
  lemma DecisionShape(e: DecisionEvent)
    ensures Decide(e).approved <==> Decide(e).interestRate.Some?
    ensures Decide(e).approved <==> Decide(e).reason.None?
    ensures Decide(e).maxAmount.Some? ==> Decide(e).maxAmount.value == e.maxLoanAmount
  {
  }

  /** Approval survives asking for less, or a lower risk score. */
  lemma ApprovalMonotone(e1: DecisionEvent, e2: DecisionEvent)
    requires Decide(e2).approved
    requires e1.maxLoanAmount == e2.maxLoanAmount && e1.amount <= e2.amount
    requires Coerce(e1.riskScore) <= Coerce(e2.riskScore)
    ensures Decide(e1).approved
  {
  }

  /** A high score rejects whatever the amount. */
  lemma RiskRejectsAnyAmount(e: DecisionEvent, amount: real)
    requires Coerce(e.riskScore) > MaxRiskScore
    ensures Decide(e.(amount := amount)) == Decide(e)
  {
  }

  /** When every risk number was lost to `null`, a positive amount is
      always declined as exceeding the maximum, and the maximum reported is
      `null`. */
  lemma NullRiskDeclines(e: DecisionEvent)
    requires e.riskScore == Null && e.maxLoanAmount == Null && e.amount > 0.0
    ensures Decide(e) == Decision(false, Some(Null), None, Some(AmountTooHigh))
  {
  }
}
