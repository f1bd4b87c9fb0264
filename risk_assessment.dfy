/** The risk assessment (src/lambdas/risk-assessment/index.ts): a linear
    risk score clamped to [0, 100], and from it a maximum loan amount and
    an interest rate. The handler's numbers follow JavaScript: an absent
    `application.monthlyExpenses` or a zero income makes the ratio, and so
    the score, NaN or infinite. */
module RiskAssessment {
  import opened Wrappers
  import opened LoanTypes
  import opened JsNumber

  /** Of the application the handler reads only `monthlyExpenses`. */
  datatype RiskAssessmentEvent = RiskAssessmentEvent(
    monthlyExpenses: Option<real>,
    creditCheck: CreditCheckResult,
    incomeVerification: IncomeVerificationResult)

  function MonthlyIncome(e: RiskAssessmentEvent): real
  {
    e.incomeVerification.verifiedAnnualIncome / 12.0
  }

  /** application.monthlyExpenses / monthlyIncome; `undefined` gives NaN. */
  function Ratio(e: RiskAssessmentEvent): Num
  {
    match e.monthlyExpenses
    case None => NaN
    case Some(x) => Div(Fin(x), MonthlyIncome(e))
  }

  /** The score's finite terms: 50, minus a tenth of the credit score above
      600, 40 for a bankruptcy, 5 per outstanding loan, 10 for unverified
      employment. */
  function Points(e: RiskAssessmentEvent): real
  {
    50.0 - (e.creditCheck.creditScore - 600) as real / 10.0
    + (if e.creditCheck.hasBankruptcy then 40.0 else 0.0)
    + 5.0 * e.creditCheck.outstandingLoans as real
    + (if !e.incomeVerification.employmentVerified then 10.0 else 0.0)
  }

  /** The unclamped score: the points plus 50 times the ratio. */
  function RawScore(e: RiskAssessmentEvent): Num
  {
    Add(Fin(Points(e)), Scale(Ratio(e), 50.0))
  }

  function Clamp(a: Num): Num
  {
    Max(0.0, Min(100.0, a))
  }

  /** calculateMaxLoanAmount on a finite score:
      round(monthlyIncome * 36 * ((100 - score) / 100)). */
  function MaxLoanReal(monthlyIncome: real, s: real): int
  {
    RoundReal(monthlyIncome * 36.0 * ((100.0 - s) / 100.0))
  }

  /** calculateMaxLoanAmount; a non-finite score follows IEEE arithmetic. */
  function MaxLoanAmount(monthlyIncome: real, riskScore: Num): (m: Num)
    ensures riskScore.Fin? ==> m == Fin(MaxLoanReal(monthlyIncome, riskScore.v) as real)
    ensures riskScore.NaN? ==> m.NaN?
  {
    if riskScore.Fin? then Fin(MaxLoanReal(monthlyIncome, riskScore.v) as real)
    else Round(Scale(Div(Sub(Fin(100.0), riskScore), 100.0), monthlyIncome * 36.0))
  }

  /** calculateInterestRate on a finite score: 5 + score / 100 * 15, to two
      decimals. */
  function RateReal(s: real): real
  {
    Fixed2Real(5.0 + s / 100.0 * 15.0)
  }

  /** calculateInterestRate; a non-finite score follows IEEE arithmetic. */
  function InterestRate(riskScore: Num): (r: Num)
    ensures riskScore.Fin? ==> r == Fin(RateReal(riskScore.v))
    ensures riskScore.NaN? ==> r.NaN?
  {
    if riskScore.Fin? then Fin(RateReal(riskScore.v))
    else Fixed2(Add(Fin(5.0), Scale(Div(riskScore, 100.0), 15.0)))
  }

  /** Adding a finite amount to a sum whose other part may be non-finite. */
  lemma AddRegroup(p: real, x: Num, c: real)
    ensures Add(Add(Fin(p), x), Fin(c)) == Add(Fin(p + c), x)
  {
  }

  /** The handler: it adjusts `riskScore` term by term, clamps it, then
      derives the amount and the rate from the clamped score. */
  method Assess(e: RiskAssessmentEvent) returns (r: RiskAssessmentResult)
    ensures r.riskScore == Clamp(RawScore(e))
    ensures r.maxLoanAmount == MaxLoanAmount(MonthlyIncome(e), r.riskScore)
    ensures r.recommendedInterestRate == InterestRate(r.riskScore)
  {
    var credit := e.creditCheck;
    var income := e.incomeVerification;
    var monthlyIncome := income.verifiedAnnualIncome / 12.0;
    var expenses := if e.monthlyExpenses.Some? then Fin(e.monthlyExpenses.value) else NaN;
    var ratio := if e.monthlyExpenses.Some? then Div(expenses, monthlyIncome) else NaN;
    assert ratio == Ratio(e);
    var ratioTerm := Scale(ratio, 50.0);

    var riskScore := Fin(50.0);
    riskScore := Sub(riskScore, Fin((credit.creditScore - 600) as real / 10.0));
    ghost var points := 50.0 - (credit.creditScore - 600) as real / 10.0;
    riskScore := Add(riskScore, ratioTerm);
    assert riskScore == Add(Fin(points), ratioTerm);
    if credit.hasBankruptcy {
      AddRegroup(points, ratioTerm, 40.0);
      riskScore := Add(riskScore, Fin(40.0));
      points := points + 40.0;
    }
    AddRegroup(points, ratioTerm, 5.0 * credit.outstandingLoans as real);
    riskScore := Add(riskScore, Fin(5.0 * credit.outstandingLoans as real));
    points := points + 5.0 * credit.outstandingLoans as real;
    if !income.employmentVerified {
      AddRegroup(points, ratioTerm, 10.0);
      riskScore := Add(riskScore, Fin(10.0));
      points := points + 10.0;
    }
    assert points == Points(e);
    riskScore := Max(0.0, Min(100.0, riskScore));

    var maxLoanAmount := MaxLoanAmount(monthlyIncome, riskScore);
    var recommendedInterestRate := InterestRate(riskScore);
    r := RiskAssessmentResult(riskScore, maxLoanAmount, recommendedInterestRate);
  }

  /** The score is NaN exactly when the ratio is: no expenses, or no
      expenses against no income; otherwise it lies in [0, 100]. */
  lemma ScoreInRange(e: RiskAssessmentEvent)
    ensures Clamp(RawScore(e)).NaN? <==>
              e.monthlyExpenses.None? || (e.monthlyExpenses.value == 0.0 && MonthlyIncome(e) == 0.0)
    ensures !Clamp(RawScore(e)).NaN? ==>
              Clamp(RawScore(e)).Fin? && 0.0 <= Clamp(RawScore(e)).v <= 100.0
  {
    ClampInRange(0.0, 100.0, RawScore(e));
  }

  /** With the expenses known and a positive income the raw score is the
      finite linear formula. */
  lemma RawScoreFormula(e: RiskAssessmentEvent)
    requires e.monthlyExpenses.Some? && MonthlyIncome(e) > 0.0
    ensures RawScore(e) == Fin(Points(e) + e.monthlyExpenses.value / MonthlyIncome(e) * 50.0)
  {
  }

  /** The clamp never moves scores in the wrong order. */
  lemma ClampMonotone(a: real, b: real)
    requires a <= b
    ensures Clamp(Fin(a)).v <= Clamp(Fin(b)).v
  {
  }

  predicate SameExceptCredit(e1: RiskAssessmentEvent, e2: RiskAssessmentEvent)
  {
    e1.monthlyExpenses == e2.monthlyExpenses &&
    e1.incomeVerification == e2.incomeVerification
  }

  /** Monotonicity: a higher credit score never raises the score; a
      bankruptcy, more outstanding loans or unverified employment never
      lower it. Stated for finite ratios, where the score is a number. */
  lemma ScoreMonotone(e1: RiskAssessmentEvent, e2: RiskAssessmentEvent)
    requires SameExceptCredit(e1, e2) && Ratio(e1).Fin?
    requires e1.creditCheck.creditScore >= e2.creditCheck.creditScore
    requires e1.creditCheck.hasBankruptcy ==> e2.creditCheck.hasBankruptcy
    requires e1.creditCheck.outstandingLoans <= e2.creditCheck.outstandingLoans
    ensures Clamp(RawScore(e1)).Fin? && Clamp(RawScore(e2)).Fin?
    ensures Clamp(RawScore(e1)).v <= Clamp(RawScore(e2)).v
  {
    var t := Ratio(e1).v * 50.0;
    assert Ratio(e2) == Ratio(e1);
    assert RawScore(e1) == Fin(Points(e1) + t);
    assert RawScore(e2) == Fin(Points(e2) + t);
    assert Points(e1) <= Points(e2);
    ClampMonotone(Points(e1) + t, Points(e2) + t);
  }

  /** Unverified employment never lowers the score. */
  lemma UnverifiedNeverLowers(e1: RiskAssessmentEvent, e2: RiskAssessmentEvent)
    requires e1.monthlyExpenses == e2.monthlyExpenses && e1.creditCheck == e2.creditCheck
    requires e1.incomeVerification.verifiedAnnualIncome == e2.incomeVerification.verifiedAnnualIncome
    requires e1.incomeVerification.employmentVerified && Ratio(e1).Fin?
    ensures Clamp(RawScore(e1)).Fin? && Clamp(RawScore(e2)).Fin?
    ensures Clamp(RawScore(e1)).v <= Clamp(RawScore(e2)).v
  {
    var t := Ratio(e1).v * 50.0;
    assert Ratio(e2) == Ratio(e1);
    assert RawScore(e1) == Fin(Points(e1) + t);
    assert RawScore(e2) == Fin(Points(e2) + t);
    ClampMonotone(Points(e1) + t, Points(e2) + t);
  }

  lemma ProductBounds(x: real, k: real)
    requires x >= 0.0 && 0.0 <= k <= 1.0
    ensures 0.0 <= x * k <= x
  {
    assert x * k <= x * 1.0;
  }

  lemma ProductMonotone(x: real, k1: real, k2: real)
    requires x >= 0.0 && k1 <= k2
    ensures x * k1 <= x * k2
  {
    assert x * k2 - x * k1 == x * (k2 - k1);
  }

  /** For a non-negative income the amount lies between 0 and 36 months of
      income, rounded, and it is 0 at the highest risk. */
  lemma MaxLoanAmountBounds(monthlyIncome: real, s: real)
    requires monthlyIncome >= 0.0 && 0.0 <= s <= 100.0
    ensures 0 <= MaxLoanReal(monthlyIncome, s) <= RoundReal(monthlyIncome * 36.0)
    ensures s == 100.0 ==> MaxLoanReal(monthlyIncome, s) == 0
  {
    var base := monthlyIncome * 36.0;
    var factor := (100.0 - s) / 100.0;
    ProductBounds(base, factor);
    var amount := base * factor;
    RoundRealMonotone(0.0, amount);
    RoundRealMonotone(amount, base);
    if s == 100.0 {
      assert factor == 0.0;
    }
  }

  /** A safer score never lowers the amount. */
  lemma MaxLoanAmountMonotone(monthlyIncome: real, s1: real, s2: real)
    requires monthlyIncome >= 0.0 && s1 <= s2
    ensures MaxLoanReal(monthlyIncome, s2) <= MaxLoanReal(monthlyIncome, s1)
  {
    var base := monthlyIncome * 36.0;
    ProductMonotone(base, (100.0 - s2) / 100.0, (100.0 - s1) / 100.0);
    RoundRealMonotone(base * ((100.0 - s2) / 100.0), base * ((100.0 - s1) / 100.0));
  }

  /** The rate lies between 5% and 20% and never falls as risk rises. */
  lemma InterestRateBounds(s: real)
    requires 0.0 <= s <= 100.0
    ensures 5.0 <= RateReal(s) <= 20.0
  {
    var x := 5.0 + s / 100.0 * 15.0;
    assert 5.0 <= x <= 20.0;
    Fixed2Monotone(5.0, x);
    Fixed2Monotone(x, 20.0);
    Fixed2OfCents(500);
    Fixed2OfCents(2000);
  }

  lemma InterestRateMonotone(s1: real, s2: real)
    requires 0.0 <= s1 <= s2
    ensures RateReal(s1) <= RateReal(s2)
  {
    Fixed2Monotone(5.0 + s1 / 100.0 * 15.0, 5.0 + s2 / 100.0 * 15.0);
  }

  /** Without expenses, all three results are NaN. */
  lemma NoExpensesNoNumbers(e: RiskAssessmentEvent)
    requires e.monthlyExpenses.None?
    ensures Clamp(RawScore(e)).NaN?
    ensures MaxLoanAmount(MonthlyIncome(e), Clamp(RawScore(e))).NaN?
    ensures InterestRate(Clamp(RawScore(e))).NaN?
  {
  }
}
