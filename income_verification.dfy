/** The income verification (src/lambdas/income-verification/index.ts):
    it takes the stored income as verified and computes the
    expenses-to-income ratio. The random employment check and the clock
    are parameters. */
module IncomeVerification {
  import opened Wrappers
  import opened LoanTypes
  import opened JsNumber

  datatype IncomeVerificationEvent = IncomeVerificationEvent(
    customerId: Option<string>,
    customerData: Option<CustomerData>)

  const MissingCustomerData: string := "Customer data is required for income verification"

  /** monthlyExpenses / (annualIncome / 12), with JavaScript's division:
      a zero income gives an infinity or NaN. */
  function ExpenseRatio(cd: CustomerData): (q: Num)
    ensures cd.annualIncome != 0.0 ==> q == Fin(cd.monthlyExpenses / (cd.annualIncome / 12.0))
  {
    Div(Fin(cd.monthlyExpenses), cd.annualIncome / 12.0)
  }

  /** The handler: no customer data is an error; otherwise the injected
      employment outcome, the stored income and the ratio, stamped with
      `now`. */
  function Verify(event: IncomeVerificationEvent, employmentVerified: bool, now: string)
    : (r: Result<IncomeVerificationResult, string>)
    ensures r.Err? <==> event.customerData.None?
    ensures r.Err? ==> r.error == MissingCustomerData
    ensures r.Ok? ==> var cd := event.customerData.value;
      && r.value.employmentVerified == employmentVerified
      && r.value.verifiedAnnualIncome == cd.annualIncome
      && r.value.debtToIncomeRatio == ExpenseRatio(cd)
      && r.value.verificationDate == now
  {
    match event.customerData
    case None => Err(MissingCustomerData)
    case Some(cd) =>
      Ok(IncomeVerificationResult(employmentVerified, cd.annualIncome, ExpenseRatio(cd), now))
  }

  /** For a positive income the ratio is the share of the monthly income
      the expenses take: ratio times monthly income gives the expenses back,
      and it is below 1 exactly when the expenses are below the monthly
      income. */
  lemma RatioMeaning(cd: CustomerData)
    requires cd.annualIncome > 0.0
    ensures ExpenseRatio(cd).Fin?
    ensures ExpenseRatio(cd).v * (cd.annualIncome / 12.0) == cd.monthlyExpenses
    ensures ExpenseRatio(cd).v < 1.0 <==> cd.monthlyExpenses < cd.annualIncome / 12.0
  {
    var m := cd.annualIncome / 12.0;
    assert m > 0.0;
    var q := cd.monthlyExpenses / m;
    assert ExpenseRatio(cd) == Fin(q);
    assert q * m == cd.monthlyExpenses;
    ScaleByPositive(q, 1.0, m);
  }

  lemma ScaleByPositive(x: real, y: real, m: real)
    requires m > 0.0
    ensures x < y <==> x * m < y * m
  {
    assert x * m - y * m == (x - y) * m;
  }

  /** A zero income: positive expenses give +Infinity, none give NaN. */
  lemma ZeroIncomeRatio(cd: CustomerData)
    requires cd.annualIncome == 0.0
    ensures cd.monthlyExpenses > 0.0 ==> ExpenseRatio(cd) == PosInf
    ensures cd.monthlyExpenses == 0.0 ==> ExpenseRatio(cd) == NaN
  {
  }
}
