/** The records exchanged by the loan-processing handlers
    (src/types/loan-types.ts). Optional fields are `Option`s; numbers that
    the handlers only compare or scale are exact `real`s, counts and scores
    that the sample data keep whole are `int`s. */
module LoanTypes {
  import opened Wrappers
  import opened JsNumber

  /** A customer's stored profile. */
  datatype CustomerData = CustomerData(
    customerId: string,
    firstName: string,
    lastName: string,
    email: string,
    phone: string,
    address: string,
    dateOfBirth: string,
    ssn: string,
    employmentStatus: string,
    annualIncome: real,
    monthlyExpenses: real,
    creditScore: int,
    hasBankruptcy: bool,
    outstandingLoans: int)

  datatype CustomerDataResult = CustomerDataResult(
    success: bool,
    customerData: Option<CustomerData>,
    error: Option<string>)

  datatype ValidationResult = ValidationResult(isValid: bool, errors: seq<string>)

  datatype CreditRating = Excellent | Good | Fair | Poor

  datatype CreditCheckResult = CreditCheckResult(
    creditScore: int,
    creditRating: CreditRating,
    hasBankruptcy: bool,
    outstandingLoans: int,
    lastUpdated: string)

  datatype IncomeVerificationResult = IncomeVerificationResult(
    employmentVerified: bool,
    verifiedAnnualIncome: real,
    debtToIncomeRatio: Num,
    verificationDate: string)

  datatype RiskAssessmentResult = RiskAssessmentResult(
    riskScore: Num,
    maxLoanAmount: Num,
    recommendedInterestRate: Num)

  /** The object the loan-decision handler actually returns: it has
      `maxAmount` where the declared type has `maxLoanAmount`, and it has
      no `applicationId`, `customerId` or `decisionDate`. It is also the
      shape the workflow's failure notifications build by hand. Its numbers
      are copied from the risk assessment as they arrived through JSON. */
  datatype Decision = Decision(
    approved: bool,
    maxAmount: Option<Wire>,
    interestRate: Option<Wire>,
    reason: Option<string>)

  datatype Channel = Email | Sms | Both

  datatype NotificationResult = NotificationResult(sent: bool, channel: Channel, timestamp: string)

  datatype LoanStatus = Approved | Rejected

  /** A loan record of a customer's history. */
  datatype LoanHistory = LoanHistory(
    loanId: string,
    customerId: string,
    amount: real,
    term: int,
    purpose: string,
    status: LoanStatus,
    applicationDate: string,
    decisionDate: string,
    interestRate: Option<real>,
    reason: Option<string>)

  datatype LoanHistoryResult = LoanHistoryResult(
    success: bool,
    loanHistory: Option<seq<LoanHistory>>,
    error: Option<string>)

  /** The status a history handler is given: the workflow passes the
      decision's boolean `approved`, other callers a status name. */
  datatype StatusInput = Flag(approved: bool) | Named(status: LoanStatus)

  /** The status conversion both history handlers perform. */
  function ToLoanStatus(s: StatusInput): (r: LoanStatus)
    ensures s.Flag? ==> (r == Approved <==> s.approved)
    ensures s.Named? ==> r == s.status
  {
    match s
    case Flag(b) => if b then Approved else Rejected
    case Named(st) => st
  }

  /** JavaScript's `x || fallback` on an optional string: an absent or
      empty string gives the fallback. */
  function OrElse(x: Option<string>, fallback: string): (r: string)
    ensures x.Some? && x.value != "" ==> r == x.value
    ensures x == None || x == Some("") ==> r == fallback
  {
    if x.Some? && x.value != "" then x.value else fallback
  }

  /** The sample loan histories that both the in-memory history service and
      the retrieval handler's fallback start from (the two copies agree). */
  function SampleLoanHistory(): map<string, seq<LoanHistory>>
  {
    map[
      "CUST456" := [
        LoanHistory("LOAN001", "CUST456", 25000.0, 24, "Car Purchase", Approved,
                    "2023-01-15", "2023-01-16", Some(4.5), None)],
      "CUST789" := [
        LoanHistory("LOAN002", "CUST789", 150000.0, 360, "Home Purchase", Approved,
                    "2022-06-10", "2022-06-12", Some(3.75), None),
        LoanHistory("LOAN003", "CUST789", 10000.0, 12, "Home Improvement", Rejected,
                    "2023-03-05", "2023-03-06", None, Some("Insufficient income"))]
    ]
  }
}
