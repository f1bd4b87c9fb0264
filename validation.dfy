/** The application validator (src/lambdas/validation/index.ts): every check
    runs, each failing check adds its own message, and the application is
    valid exactly when no message was added. */
module Validation {
  import opened Wrappers
  import opened LoanTypes
  import opened JsNumber

  /** The validator's input. Every field may be absent (JavaScript's
      `undefined`); numbers are exact, and `term` is a whole number of
      months. */
  datatype ValidationEvent = ValidationEvent(
    applicationId: Option<string>,
    customerId: Option<string>,
    amount: Option<real>,
    term: Option<int>,
    purpose: Option<string>,
    customerData: Option<CustomerData>)

  /** The validator's checks, one per message it can push, declared in
      the order the checks run. */
  datatype Check =
    | ApplicationIdRequired | CustomerIdRequired | AmountNotPositive | AmountTooLarge
    | TermNotPositive | TermTooLong | PurposeRequired | CustomerDataInvalid | DebtToIncomeTooHigh
  {
    /** The message the handler pushes for this check. */
    function Message(): string
    {
      match this
      case ApplicationIdRequired => "Application ID is required"
      case CustomerIdRequired => "Customer ID is required"
      case AmountNotPositive => "Loan amount must be greater than zero"
      case AmountTooLarge => "Loan amount exceeds maximum limit of $1,000,000"
      case TermNotPositive => "Loan term must be greater than zero"
      case TermTooLong => "Loan term cannot exceed 360 months (30 years)"
      case PurposeRequired => "Loan purpose is required"
      case CustomerDataInvalid => "Customer data is invalid"
      case DebtToIncomeTooHigh => "Debt-to-income ratio exceeds maximum allowed (43%)"
    }
  }

  const MaxAmount: real := 1000000.0
  const MaxTerm: int := 360
  /** The annual rate the validator assumes when it estimates the payment. */
  const ReferenceRate: real := 0.05
  const MaxDebtToIncome: real := 0.43

  /** Every check, in the order the handler runs them. */
  const Catalogue: seq<Check> := [
    ApplicationIdRequired, CustomerIdRequired, AmountNotPositive, AmountTooLarge,
    TermNotPositive, TermTooLong, PurposeRequired, CustomerDataInvalid, DebtToIncomeTooHigh]

  /** The characters JavaScript's `String.prototype.trim` removes. */
  predicate IsWhitespace(c: char)
  {
    c == ' ' || c == '\t' || c == '\n' || c == '\r' || c == '\U{000B}' || c == '\U{000C}'
    || c == '\U{00A0}' || c == '\U{1680}' || ('\U{2000}' <= c <= '\U{200A}')
    || c == '\U{2028}' || c == '\U{2029}' || c == '\U{202F}' || c == '\U{205F}'
    || c == '\U{3000}' || c == '\U{FEFF}'
  }

  /** `!s || s.trim() === ''`: absent, empty or whitespace only. */
  predicate IsBlank(s: Option<string>)
  {
    s.None? || forall i :: 0 <= i < |s.value| ==> IsWhitespace(s.value[i])
  }

  /** `!amount || amount <= 0` (0 is falsy too). */
  predicate NonPositiveAmount(amount: Option<real>)
  {
    amount.None? || amount.value <= 0.0
  }

  /** `!term || term <= 0`. */
  predicate NonPositiveTerm(term: Option<int>)
  {
    term.None? || term.value <= 0
  }

  /** Natural powers of a positive base. */
  function PowNat(b: real, n: nat): (r: real)
    requires b > 0.0
    ensures r > 0.0
  {
    if n == 0 then 1.0 else b * PowNat(b, n - 1)
  }

  /** Integer powers (negative exponents too) of a positive base, as
      `Math.pow` gives them. */
  function Pow(b: real, n: int): (r: real)
    requires b > 0.0
    ensures r > 0.0
  {
    if n >= 0 then PowNat(b, n) else 1.0 / PowNat(b, -n)
  }

  lemma {:induction false} PowNatAboveOne(b: real, n: nat)
    requires b > 1.0 && n > 0
    ensures PowNat(b, n) > 1.0
  {
    if n > 1 {
      PowNatAboveOne(b, n - 1);
      assert b * PowNat(b, n - 1) > 1.0 * PowNat(b, n - 1);
    }
  }

  lemma PowAboveOne(b: real, n: int)
    requires b > 1.0 && n > 0
    ensures Pow(b, n) > 1.0
  {
    PowNatAboveOne(b, n);
  }

  lemma PowBelowOne(b: real, n: int)
    requires b > 1.0 && n < 0
    ensures Pow(b, n) < 1.0
  {
    var q := PowNat(b, -n);
    PowNatAboveOne(b, -n);
    assert Pow(b, n) == 1.0 / q;
    assert 1.0 / q < 1.0 by {
      assert (1.0 / q) * q == 1.0;
    }
  }

  /** A power of a base above one is one only for the exponent zero. */
  lemma PowIsOneOnlyAtZero(b: real, n: int)
    requires b > 1.0 && n != 0
    ensures Pow(b, n) != 1.0
  {
    if n > 0 { PowAboveOne(b, n); } else { PowBelowOne(b, n); }
  }

  /** calculateMonthlyPayment: the annuity payment that repays `principal`
      over `term` months at `annualRate`, or the even split at rate zero. */
  function MonthlyPayment(principal: real, term: int, annualRate: real): real
    requires term != 0 && annualRate > -12.0
    requires annualRate != 0.0 ==> Pow(1.0 + annualRate / 12.0, term) != 1.0
  {
    var monthlyRate := annualRate / 12.0;
    if monthlyRate == 0.0 then principal / term as real
    else Annuity(principal, monthlyRate, Pow(1.0 + monthlyRate, term))
  }

  /** principal * (r * g) / (g - 1), where g = (1 + r)^term. */
  function Annuity(principal: real, r: real, g: real): real
    requires g != 1.0
  {
    principal * (r * g) / (g - 1.0)
  }

  /** The reference definition of repayment: the balance left after `k`
      months when interest accrues at `monthlyRate` and `payment` is paid
      at each month's end. */
  function Balance(principal: real, monthlyRate: real, payment: real, k: nat): real
  {
    if k == 0 then principal
    else Balance(principal, monthlyRate, payment, k - 1) * (1.0 + monthlyRate) - payment
  }

  /** Equal numbers scaled alike stay equal. */
  lemma ScaleEqual(c: real, x: real, y: real)
    requires x == y
    ensures c * x == c * y
  {
  }

  /** One month of interest and one payment, scaled by the rate and less
      one payment, is `1 + r` times the same for the month before. */
  lemma ScaledStep(r: real, payment: real, bk: real, b: real)
    requires b == bk * (1.0 + r) - payment
    ensures b * r - payment == (1.0 + r) * (bk * r - payment)
  {
  }

  /** One more month of growth multiplies a scaled growth by `1 + r`. */
  lemma ScaledPowStep(c: real, r: real, k: nat)
    requires r > -1.0 && k > 0
    ensures c * PowNat(1.0 + r, k) == (1.0 + r) * (c * PowNat(1.0 + r, k - 1))
  {
    var p := PowNat(1.0 + r, k - 1);
    assert PowNat(1.0 + r, k) == (1.0 + r) * p;
    ScaleEqual(c, PowNat(1.0 + r, k), (1.0 + r) * p);
    assert c * ((1.0 + r) * p) == (1.0 + r) * (c * p);
  }

  /** One month of `BalanceGrowth`. */
  lemma BalanceGrowthStep(principal: real, r: real, payment: real, k: nat)
    requires r > -1.0 && k > 0
    requires Balance(principal, r, payment, k - 1) * r - payment
             == (principal * r - payment) * PowNat(1.0 + r, k - 1)
    ensures Balance(principal, r, payment, k) * r - payment
            == (principal * r - payment) * PowNat(1.0 + r, k)
  {
    var c := principal * r - payment;
    var bk := Balance(principal, r, payment, k - 1);
    ScaledStep(r, payment, bk, Balance(principal, r, payment, k));
    ScaleEqual(1.0 + r, bk * r - payment, c * PowNat(1.0 + r, k - 1));
    ScaledPowStep(c, r, k);
  }

  /** The balance, scaled by the rate and less one payment, grows by
      `1 + r` each month. */
  lemma {:induction false} BalanceGrowth(principal: real, r: real, payment: real, k: nat)
    requires r > -1.0
    ensures Balance(principal, r, payment, k) * r - payment
            == (principal * r - payment) * PowNat(1.0 + r, k)
  {
    if k > 0 {
      BalanceGrowth(principal, r, payment, k - 1);
      BalanceGrowthStep(principal, r, payment, k);
    }
  }

  /** The closed form of the balance after `k` months. */
  lemma BalanceClosedForm(principal: real, r: real, payment: real, k: nat)
    requires r > -1.0
    ensures Balance(principal, r, payment, k) * r
            == principal * Pow(1.0 + r, k) * r - payment * (Pow(1.0 + r, k) - 1.0)
  {
    BalanceGrowth(principal, r, payment, k);
    var g := PowNat(1.0 + r, k);
    assert Pow(1.0 + r, k) == g;
    assert (principal * r - payment) * g == principal * g * r - payment * g;
  }

  /** The payment repays the loan: after `term` months nothing is owed. */
  lemma MonthlyPaymentRepays(principal: real, term: nat, annualRate: real)
    requires term > 0 && annualRate > -12.0
    requires annualRate != 0.0 ==> Pow(1.0 + annualRate / 12.0, term) != 1.0
    ensures Balance(principal, annualRate / 12.0, MonthlyPayment(principal, term, annualRate), term) == 0.0
  {
    var r := annualRate / 12.0;
    var pay := MonthlyPayment(principal, term, annualRate);
    if r == 0.0 {
      assert pay == principal / term as real;
      EvenSplitRepays(principal, term, pay);
    } else {
      var p := Pow(1.0 + r, term);
      assert pay == Annuity(principal, r, p);
      AnnuityRepays(principal, term, r, p, pay);
    }
  }

  lemma EvenSplitRepays(principal: real, term: nat, pay: real)
    requires term > 0 && pay == principal / term as real
    ensures Balance(principal, 0.0, pay, term) == 0.0
  {
    BalanceAtZeroRate(principal, pay, term);
    QuotientTimesDivisor(principal, term as real);
  }

  lemma AnnuityRepays(principal: real, term: nat, r: real, p: real, pay: real)
    requires r > -1.0 && r != 0.0 && p == Pow(1.0 + r, term) && p != 1.0
    requires pay == Annuity(principal, r, p)
    ensures Balance(principal, r, pay, term) == 0.0
  {
    AnnuityTimesGrowth(principal, r, p);
    BalanceClosedForm(principal, r, pay, term);
    NothingOwed(Balance(principal, r, pay, term), principal, p, r, pay);
  }

  lemma AnnuityTimesGrowth(principal: real, r: real, g: real)
    requires g != 1.0
    ensures Annuity(principal, r, g) * (g - 1.0) == principal * (r * g)
  {
    QuotientTimesDivisor(principal * (r * g), g - 1.0);
  }

  lemma NothingOwed(b: real, principal: real, p: real, r: real, pay: real)
    requires r != 0.0
    requires b * r == principal * p * r - pay * (p - 1.0)
    requires pay * (p - 1.0) == principal * (r * p)
    ensures b == 0.0
  {
    assert principal * p * r == principal * (r * p);
    assert b * r == 0.0;
    ZeroProduct(b, r);
  }

  lemma QuotientTimesDivisor(x: real, d: real)
    requires d != 0.0
    ensures (x / d) * d == x
  {
  }

  lemma ZeroProduct(x: real, r: real)
    requires r != 0.0 && x * r == 0.0
    ensures x == 0.0
  {
  }

  lemma {:induction false} BalanceAtZeroRate(principal: real, payment: real, k: nat)
    ensures Balance(principal, 0.0, payment, k) == principal - payment * k as real
  {
    if k > 0 { BalanceAtZeroRate(principal, payment, k - 1); }
  }

  /** `calculateMonthlyPayment(amount, term, 0.05)`. An absent amount or
      term gives NaN; a zero term makes the annuity divide by zero. */
  function ReferencePayment(amount: Option<real>, term: Option<int>): (p: Num)
    ensures amount.None? || term.None? ==> p.NaN?
    ensures amount.Some? && term.Some? && term.value != 0 ==> p.Fin?
  {
    if amount.None? || term.None? then NaN
    else if term.value == 0 then Div(Fin(amount.value * (ReferenceRate / 12.0)), 0.0)
    else
      PowIsOneOnlyAtZero(1.0 + ReferenceRate / 12.0, term.value);
      Fin(MonthlyPayment(amount.value, term.value, ReferenceRate))
  }

  /** One month of Bernoulli's inequality, on plain numbers. */
  lemma BernoulliStep(r: real, n: real, p: real, q: real)
    requires r >= 0.0 && n >= 1.0
    requires p >= 1.0 + (n - 1.0) * r && q == (1.0 + r) * p
    ensures q >= 1.0 + n * r
  {
    assert (n - 1.0) * r >= 0.0;
    assert r * (p - 1.0) >= 0.0;
    assert q == p + r * p;
  }

  /** Bernoulli's inequality: `n` months of growth at `r` are at least
      `1 + n r`. */
  lemma {:induction false} PowAtLeastLinear(r: real, n: nat)
    requires r >= 0.0
    ensures PowNat(1.0 + r, n) >= 1.0 + n as real * r
  {
    if n > 0 {
      PowAtLeastLinear(r, n - 1);
      BernoulliStep(r, n as real, PowNat(1.0 + r, n - 1), PowNat(1.0 + r, n));
    }
  }

  /** The annuity is at most one month's interest plus an even share of
      the principal, once the growth is at least linear. */
  lemma AnnuityAtMost(principal: real, r: real, g: real, n: real)
    requires principal >= 0.0 && r > 0.0 && n > 0.0 && g - 1.0 >= n * r
    ensures Annuity(principal, r, g) <= principal * r + principal / n
  {
    var d := g - 1.0;
    assert principal * (r * g) == principal * r * d + principal * r;
    assert principal * (r * g) / d == principal * r + (principal * r) / d;
    assert principal * (r * n) <= principal * d;
    assert (principal * r) / d <= principal / n;
  }

  /** The reference payment is at most one month's interest plus
      `amount / term`. */
  lemma ReferencePaymentAtMost(amount: real, term: int)
    requires amount >= 0.0 && term > 0
    ensures ReferencePayment(Some(amount), Some(term)).Fin?
    ensures ReferencePayment(Some(amount), Some(term)).v
            <= amount * (ReferenceRate / 12.0) + amount / term as real
  {
    var r := ReferenceRate / 12.0;
    PowAtLeastLinear(r, term);
    assert Pow(1.0 + r, term) == PowNat(1.0 + r, term);
    AnnuityAtMost(amount, r, Pow(1.0 + r, term), term as real);
  }

  /** (monthlyPayment + monthlyExpenses) / (annualIncome / 12). */
  function DebtToIncomeRatio(e: ValidationEvent): Num
    requires e.customerData.Some?
  {
    var cd := e.customerData.value;
    Div(Add(ReferencePayment(e.amount, e.term), Fin(cd.monthlyExpenses)), cd.annualIncome / 12.0)
  }

  /** With customer data, the ratio is above 43%. */
  predicate DebtToIncomeExceeded(e: ValidationEvent)
  {
    e.customerData.Some? && Greater(DebtToIncomeRatio(e), MaxDebtToIncome)
  }

  /** Whether check `c` fails on `e`: the condition under which the handler
      pushes `c`'s message. */
  predicate Fails(e: ValidationEvent, c: Check)
  {
    match c
    case ApplicationIdRequired => IsBlank(e.applicationId)
    case CustomerIdRequired => IsBlank(e.customerId)
    case AmountNotPositive => NonPositiveAmount(e.amount)
    case AmountTooLarge => !NonPositiveAmount(e.amount) && e.amount.value > MaxAmount
    case TermNotPositive => NonPositiveTerm(e.term)
    case TermTooLong => !NonPositiveTerm(e.term) && e.term.value > MaxTerm
    case PurposeRequired => IsBlank(e.purpose)
    case CustomerDataInvalid => e.customerData.Some? && e.customerData.value.customerId == ""
    case DebtToIncomeTooHigh => DebtToIncomeExceeded(e)
  }

  /** `if (cond) errors.push(c)`. */
  function PushIf(errors: seq<Check>, cond: bool, c: Check): seq<Check>
  {
    if cond then errors + [c] else errors
  }

  /** The handler's pushes, section by section, given which checks fail. */
  function AfterIds(fails: Check -> bool): seq<Check>
  {
    PushIf(PushIf([], fails(ApplicationIdRequired), ApplicationIdRequired),
           fails(CustomerIdRequired), CustomerIdRequired)
  }

  function AfterAmount(fails: Check -> bool): seq<Check>
  {
    PushIf(PushIf(AfterIds(fails), fails(AmountNotPositive), AmountNotPositive),
           fails(AmountTooLarge), AmountTooLarge)
  }

  function AfterTerm(fails: Check -> bool): seq<Check>
  {
    PushIf(PushIf(AfterAmount(fails), fails(TermNotPositive), TermNotPositive),
           fails(TermTooLong), TermTooLong)
  }

  function AfterPurpose(fails: Check -> bool): seq<Check>
  {
    PushIf(AfterTerm(fails), fails(PurposeRequired), PurposeRequired)
  }

  function Accumulate(fails: Check -> bool): seq<Check>
  {
    PushIf(PushIf(AfterPurpose(fails), fails(CustomerDataInvalid), CustomerDataInvalid),
           fails(DebtToIncomeTooHigh), DebtToIncomeTooHigh)
  }

  /** The failing checks of `e`, in the order the handler pushes them. */
  function Errors(e: ValidationEvent): seq<Check>
  {
    Accumulate(c => Fails(e, c))
  }

  /** The messages of a list of failing checks. */
  function Messages(cs: seq<Check>): (ms: seq<string>)
    ensures |ms| == |cs|
    ensures forall i :: 0 <= i < |cs| ==> ms[i] == cs[i].Message()
  {
    if cs == [] then [] else [cs[0].Message()] + Messages(cs[1..])
  }

  /** The handler: it pushes one entry per failing check onto a list,
      section by section. The list holds the checks; the result carries
      their messages. */
  method Validate(e: ValidationEvent) returns (r: ValidationResult)
    ensures r.errors == Messages(Errors(e))
    ensures r.isValid <==> r.errors == []
  {
    ghost var fails := c => Fails(e, c);
    var errors: seq<Check> := [];
    errors := CheckIds(e, errors);
    assert errors == AfterIds(fails);
    errors := CheckAmount(e, errors);
    assert errors == AfterAmount(fails);
    errors := CheckTerm(e, errors);
    assert errors == AfterTerm(fails);
    errors := CheckPurpose(e, errors);
    assert errors == AfterPurpose(fails);
    errors := CheckCustomerData(e, errors);
    assert errors == Accumulate(fails);
    r := ValidationResult(|errors| == 0, Messages(errors));
  }

  /** The application and customer identifiers must not be blank. */
  method CheckIds(e: ValidationEvent, errors: seq<Check>) returns (out: seq<Check>)
    ensures out == PushIf(PushIf(errors, Fails(e, ApplicationIdRequired), ApplicationIdRequired),
                          Fails(e, CustomerIdRequired), CustomerIdRequired)
  {
    out := errors;
    if IsBlank(e.applicationId) {
      out := out + [ApplicationIdRequired];
    }
    if IsBlank(e.customerId) {
      out := out + [CustomerIdRequired];
    }
  }

  /** The amount must be positive and at most 1,000,000. */
  method CheckAmount(e: ValidationEvent, errors: seq<Check>) returns (out: seq<Check>)
    ensures out == PushIf(PushIf(errors, Fails(e, AmountNotPositive), AmountNotPositive),
                          Fails(e, AmountTooLarge), AmountTooLarge)
  {
    out := errors;
    if e.amount.None? || e.amount.value <= 0.0 {
      out := out + [AmountNotPositive];
    } else if e.amount.value > MaxAmount {
      out := out + [AmountTooLarge];
    }
  }

  /** The term must be positive and at most 360 months. */
  method CheckTerm(e: ValidationEvent, errors: seq<Check>) returns (out: seq<Check>)
    ensures out == PushIf(PushIf(errors, Fails(e, TermNotPositive), TermNotPositive),
                          Fails(e, TermTooLong), TermTooLong)
  {
    out := errors;
    if e.term.None? || e.term.value <= 0 {
      out := out + [TermNotPositive];
    } else if e.term.value > MaxTerm {
      out := out + [TermTooLong];
    }
  }

  /** The purpose must not be blank. */
  method CheckPurpose(e: ValidationEvent, errors: seq<Check>) returns (out: seq<Check>)
    ensures out == PushIf(errors, Fails(e, PurposeRequired), PurposeRequired)
  {
    out := errors;
    if IsBlank(e.purpose) {
      out := out + [PurposeRequired];
    }
  }

  /** With customer data: its customer id must be set and the
      debt-to-income ratio at most 43%. */
  method CheckCustomerData(e: ValidationEvent, errors: seq<Check>) returns (out: seq<Check>)
    ensures out == PushIf(PushIf(errors, Fails(e, CustomerDataInvalid), CustomerDataInvalid),
                          Fails(e, DebtToIncomeTooHigh), DebtToIncomeTooHigh)
  {
    out := errors;
    if e.customerData.Some? {
      if e.customerData.value.customerId == "" {
        out := out + [CustomerDataInvalid];
      }
      var ratio := DebtToIncomeRatio(e);
      if Greater(ratio, MaxDebtToIncome) {
        out := out + [DebtToIncomeTooHigh];
      }
    }
  }

  /** The position of a check in the order the handler runs the checks. */
  function Rank(c: Check): (k: nat)
    ensures k < |Catalogue| && Catalogue[k] == c
  {
    match c
    case ApplicationIdRequired => 0
    case CustomerIdRequired => 1
    case AmountNotPositive => 2
    case AmountTooLarge => 3
    case TermNotPositive => 4
    case TermTooLong => 5
    case PurposeRequired => 6
    case CustomerDataInvalid => 7
    case DebtToIncomeTooHigh => 8
  }

  /** Strictly in check order: so also without repetitions. */
  predicate InCheckOrder(errors: seq<Check>)
  {
    forall i, j :: 0 <= i < j < |errors| ==> Rank(errors[i]) < Rank(errors[j])
  }

  predicate AllBefore(errors: seq<Check>, k: nat)
  {
    forall i :: 0 <= i < |errors| ==> Rank(errors[i]) < k
  }

  lemma PushKeepsOrder(errors: seq<Check>, cond: bool, c: Check)
    requires InCheckOrder(errors) && AllBefore(errors, Rank(c))
    ensures InCheckOrder(PushIf(errors, cond, c)) && AllBefore(PushIf(errors, cond, c), Rank(c) + 1)
  {
  }

  lemma PushKeepsOrderTwice(errors: seq<Check>, c1: bool, x1: Check, c2: bool, x2: Check)
    requires Rank(x1) < Rank(x2)
    requires InCheckOrder(errors) && AllBefore(errors, Rank(x1))
    ensures InCheckOrder(PushIf(PushIf(errors, c1, x1), c2, x2))
    ensures AllBefore(PushIf(PushIf(errors, c1, x1), c2, x2), Rank(x2) + 1)
  {
    PushKeepsOrder(errors, c1, x1);
    PushKeepsOrder(PushIf(errors, c1, x1), c2, x2);
  }

  lemma AfterTermInOrder(fails: Check -> bool)
    ensures InCheckOrder(AfterTerm(fails)) && AllBefore(AfterTerm(fails), Rank(TermTooLong) + 1)
  {
    PushKeepsOrderTwice([], fails(ApplicationIdRequired), ApplicationIdRequired,
                        fails(CustomerIdRequired), CustomerIdRequired);
    PushKeepsOrderTwice(AfterIds(fails), fails(AmountNotPositive), AmountNotPositive,
                        fails(AmountTooLarge), AmountTooLarge);
    PushKeepsOrderTwice(AfterAmount(fails), fails(TermNotPositive), TermNotPositive,
                        fails(TermTooLong), TermTooLong);
  }

  /** The pushes keep the check order, whichever checks fail. */
  lemma AccumulateInCheckOrder(fails: Check -> bool)
    ensures InCheckOrder(Accumulate(fails))
  {
    AfterTermInOrder(fails);
    PushKeepsOrder(AfterTerm(fails), fails(PurposeRequired), PurposeRequired);
    PushKeepsOrderTwice(AfterPurpose(fails), fails(CustomerDataInvalid), CustomerDataInvalid,
                        fails(DebtToIncomeTooHigh), DebtToIncomeTooHigh);
  }

  lemma PushMembers(errors: seq<Check>, cond: bool, c: Check, x: Check)
    ensures x in PushIf(errors, cond, c) <==> x in errors || (cond && x == c)
  {
  }

  /** Nothing short-circuits: a check is in the list exactly when it fails. */
  lemma AccumulateMembers(fails: Check -> bool, x: Check)
    ensures x in Accumulate(fails) <==> fails(x)
  {
    PushMembers([], fails(ApplicationIdRequired), ApplicationIdRequired, x);
    PushMembers(PushIf([], fails(ApplicationIdRequired), ApplicationIdRequired),
                fails(CustomerIdRequired), CustomerIdRequired, x);
    PushMembers(AfterIds(fails), fails(AmountNotPositive), AmountNotPositive, x);
    PushMembers(PushIf(AfterIds(fails), fails(AmountNotPositive), AmountNotPositive),
                fails(AmountTooLarge), AmountTooLarge, x);
    PushMembers(AfterAmount(fails), fails(TermNotPositive), TermNotPositive, x);
    PushMembers(PushIf(AfterAmount(fails), fails(TermNotPositive), TermNotPositive),
                fails(TermTooLong), TermTooLong, x);
    PushMembers(AfterTerm(fails), fails(PurposeRequired), PurposeRequired, x);
    PushMembers(AfterPurpose(fails), fails(CustomerDataInvalid), CustomerDataInvalid, x);
    PushMembers(PushIf(AfterPurpose(fails), fails(CustomerDataInvalid), CustomerDataInvalid),
                fails(DebtToIncomeTooHigh), DebtToIncomeTooHigh, x);
  }

  /** No check is skipped or reordered: the failing checks appear in the
      order the handler runs them, each at most once. */
  lemma ErrorsInCheckOrder(e: ValidationEvent)
    ensures InCheckOrder(Errors(e))
  {
    AccumulateInCheckOrder(c => Fails(e, c));
  }

  /** Every check runs: each message is present exactly when its condition
      holds, whatever the other checks found. */
  lemma ErrorConditions(e: ValidationEvent)
    ensures ApplicationIdRequired in Errors(e) <==> IsBlank(e.applicationId)
    ensures CustomerIdRequired in Errors(e) <==> IsBlank(e.customerId)
    ensures AmountNotPositive in Errors(e) <==> NonPositiveAmount(e.amount)
    ensures AmountTooLarge in Errors(e) <==> e.amount.Some? && e.amount.value > MaxAmount
    ensures TermNotPositive in Errors(e) <==> NonPositiveTerm(e.term)
    ensures TermTooLong in Errors(e) <==> e.term.Some? && e.term.value > MaxTerm
    ensures PurposeRequired in Errors(e) <==> IsBlank(e.purpose)
    ensures CustomerDataInvalid in Errors(e) <==> e.customerData.Some? && e.customerData.value.customerId == ""
    ensures DebtToIncomeTooHigh in Errors(e) <==> DebtToIncomeExceeded(e)
  {
    var fails := c => Fails(e, c);
    forall c: Check ensures c in Errors(e) <==> Fails(e, c) {
      AccumulateMembers(fails, c);
    }
  }

  /** The amount and the term each produce at most one message, none when
      they are in range, and without customer data at most five checks can
      fail. */
  lemma ErrorBounds(e: ValidationEvent)
    ensures !(AmountNotPositive in Errors(e) && AmountTooLarge in Errors(e))
    ensures !(TermNotPositive in Errors(e) && TermTooLong in Errors(e))
    ensures e.amount.Some? && 0.0 < e.amount.value <= MaxAmount ==>
              AmountNotPositive !in Errors(e) && AmountTooLarge !in Errors(e)
    ensures e.term.Some? && 0 < e.term.value <= MaxTerm ==>
              TermNotPositive !in Errors(e) && TermTooLong !in Errors(e)
    ensures e.customerData.None? ==> |Errors(e)| <= 5 && DebtToIncomeTooHigh !in Errors(e)
    ensures |Errors(e)| <= 7
  {
    ErrorConditions(e);
    ErrorCount(e);
  }

  lemma PushLength(errors: seq<Check>, cond: bool, c: Check)
    ensures |PushIf(errors, cond, c)| == |errors| + (if cond then 1 else 0)
  {
  }

  /** The amount checks exclude each other, and so do the term checks. */
  lemma ErrorCount(e: ValidationEvent)
    ensures |Errors(e)| <= 7
    ensures e.customerData.None? ==> |Errors(e)| <= 5
  {
    var fails := c => Fails(e, c);
    PushLength([], fails(ApplicationIdRequired), ApplicationIdRequired);
    PushLength(PushIf([], fails(ApplicationIdRequired), ApplicationIdRequired),
               fails(CustomerIdRequired), CustomerIdRequired);
    assert |AfterIds(fails)| <= 2;
    PushLength(AfterIds(fails), fails(AmountNotPositive), AmountNotPositive);
    PushLength(PushIf(AfterIds(fails), fails(AmountNotPositive), AmountNotPositive),
               fails(AmountTooLarge), AmountTooLarge);
    assert !(fails(AmountNotPositive) && fails(AmountTooLarge));
    assert |AfterAmount(fails)| <= 3;
    PushLength(AfterAmount(fails), fails(TermNotPositive), TermNotPositive);
    PushLength(PushIf(AfterAmount(fails), fails(TermNotPositive), TermNotPositive),
               fails(TermTooLong), TermTooLong);
    assert !(fails(TermNotPositive) && fails(TermTooLong));
    assert |AfterTerm(fails)| <= 4;
    PushLength(AfterTerm(fails), fails(PurposeRequired), PurposeRequired);
    PushLength(AfterPurpose(fails), fails(CustomerDataInvalid), CustomerDataInvalid);
    PushLength(PushIf(AfterPurpose(fails), fails(CustomerDataInvalid), CustomerDataInvalid),
               fails(DebtToIncomeTooHigh), DebtToIncomeTooHigh);
    assert Errors(e) == Accumulate(fails);
    if e.customerData.None? {
      assert !fails(CustomerDataInvalid) && !fails(DebtToIncomeTooHigh);
    }
  }

  lemma QuotientAbove(x: real, m: real, k: real)
    requires m > 0.0
    ensures x / m > k <==> x > k * m
  {
    assert (x / m) * m == x;
    if x / m > k {
      assert (x / m) * m > k * m;
    } else {
      assert (x / m) * m <= k * m;
    }
  }

  /** For a positive income and a finite payment the check is the
      affordability rule: payment plus expenses above 43% of the monthly
      income. */
  lemma DebtToIncomeMeaning(e: ValidationEvent)
    requires e.customerData.Some? && e.amount.Some? && e.term.Some? && e.term.value != 0
    requires e.customerData.value.annualIncome > 0.0
    ensures ReferencePayment(e.amount, e.term).Fin?
    ensures DebtToIncomeExceeded(e) <==>
              ReferencePayment(e.amount, e.term).v + e.customerData.value.monthlyExpenses
                > MaxDebtToIncome * (e.customerData.value.annualIncome / 12.0)
  {
    var cd := e.customerData.value;
    var x := ReferencePayment(e.amount, e.term).v + cd.monthlyExpenses;
    assert DebtToIncomeRatio(e) == Fin(x / (cd.annualIncome / 12.0));
    QuotientAbove(x, cd.annualIncome / 12.0, MaxDebtToIncome);
  }

  /** Without an amount or a term the ratio is NaN and never too high. */
  lemma DebtToIncomeNeedsAmountAndTerm(e: ValidationEvent)
    requires e.amount.None? || e.term.None?
    ensures DebtToIncomeTooHigh !in Errors(e)
  {
    ErrorConditions(e);
  }

  /** A zero term with a positive amount divides by zero: the payment is
      +Infinity, so with a non-negative income the ratio check fails too,
      beside the term check. */
  lemma ZeroTermOverflowsRatio(e: ValidationEvent)
    requires e.customerData.Some? && e.amount.Some? && e.amount.value > 0.0
    requires e.term == Some(0) && e.customerData.value.annualIncome >= 0.0
    ensures TermNotPositive in Errors(e) && DebtToIncomeTooHigh in Errors(e)
  {
    assert e.amount.value * (ReferenceRate / 12.0) > 0.0;
    assert ReferencePayment(e.amount, e.term) == PosInf;
    ErrorConditions(e);
  }

  /** Distinct checks push distinct messages. */
  lemma MessagesDistinct(c: Check, d: Check)
    requires c != d
    ensures c.Message() != d.Message()
  {
    MessageLength(c);
    MessageLength(d);
    if (c == PurposeRequired && d == CustomerDataInvalid) || (c == CustomerDataInvalid && d == PurposeRequired) {
      assert c.Message()[0] != d.Message()[0];
    } else {
      assert MessageLen(c) != MessageLen(d);
    }
  }

  /** The length of each message; only two of them share one. */
  function MessageLen(c: Check): nat
  {
    match c
    case ApplicationIdRequired => 26
    case CustomerIdRequired => 23
    case AmountNotPositive => 37
    case AmountTooLarge => 47
    case TermNotPositive => 35
    case TermTooLong => 45
    case PurposeRequired => 24
    case CustomerDataInvalid => 24
    case DebtToIncomeTooHigh => 50
  }

  lemma MessageLength(c: Check)
    ensures |c.Message()| == MessageLen(c)
  {
  }

  /** An amount of 2,000,000 with everything else in order and no customer
      data fails on that one check. */
  lemma AmountOverLimitScenario(e: ValidationEvent)
    requires e == ValidationEvent(Some("APP1"), Some("CUST456"), Some(2000000.0), Some(36),
                                  Some("Car Purchase"), None)
    ensures Errors(e) == [AmountTooLarge]
    ensures Messages(Errors(e)) == ["Loan amount exceeds maximum limit of $1,000,000"]
  {
    assert !IsBlank(e.applicationId) by { assert !IsWhitespace(e.applicationId.value[0]); }
    assert !IsBlank(e.customerId) by { assert !IsWhitespace(e.customerId.value[0]); }
    assert !IsBlank(e.purpose) by { assert !IsWhitespace(e.purpose.value[0]); }
  }

  /** John Doe's application for 20,000 over 36 months passes every check:
      the reference payment is below 640, so with 3,000 of monthly expenses
      the debt stays under 43% of the 10,000 monthly income. */
  lemma AffordableApplicationPasses(e: ValidationEvent)
    requires e.applicationId == Some("APP123") && e.customerId == Some("CUST456")
    requires e.amount == Some(20000.0) && e.term == Some(36) && e.purpose == Some("Home Renovation")
    requires e.customerData.Some? && e.customerData.value.customerId == "CUST456"
    requires e.customerData.value.annualIncome == 120000.0 && e.customerData.value.monthlyExpenses == 3000.0
    ensures Errors(e) == []
    ensures Messages(Errors(e)) == []
  {
    assert !IsBlank(e.applicationId) by { assert !IsWhitespace(e.applicationId.value[0]); }
    assert !IsBlank(e.customerId) by { assert !IsWhitespace(e.customerId.value[0]); }
    assert !IsBlank(e.purpose) by { assert !IsWhitespace(e.purpose.value[0]); }
    ReferencePaymentAtMost(20000.0, 36);
    DebtToIncomeMeaning(e);
    assert !DebtToIncomeExceeded(e);
  }
}
