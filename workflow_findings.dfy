/** Two defects of the workflow as deployed, each next to the corrected
    wiring that removes it.

    1. Update Loan History reads `decisionDate` and `reason` from the loan
       decision, which never has a `decisionDate`; so every run that gets
       that far fails there, and no valid application is ever notified.
    2. Prepare Risk Assessment passes the first branch's output as the
       application, which has no `monthlyExpenses`; so the risk function
       never sees the applicant's expenses, its numbers are NaN, and the
       decision declines every application. */
module WorkflowFindings {
  import opened Wrappers
  import opened Json
  import opened Workflow
  import opened WorkflowRuns
  import opened WorkflowSteps
  import LT = LoanTypes
  import JN = JsNumber
  import RA = RiskAssessment
  import LD = LoanDecision
  import CDS = CustomerDataService

  // ---- 1. The decision date

  /** The decision function never returns a `decisionDate`. */
  ghost predicate DecisionsUndated(l: Lambdas)
  {
    forall j :: l(LoanDecisionFn, j).Returned? ==> Get(l(LoanDecisionFn, j).result, [Key("decisionDate")]).None?
  }

  predicate NotYetNotified(x: Execution)
  {
    && x.state != SendNotification && SendNotification !in x.trace
    && (x.state == UpdateLoanHistory ==> Get(x.data, DecisionDateAt).None?)
  }

  lemma StepNotYetNotified(l: Lambdas, x: Execution)
    requires DecisionsUndated(l) && !x.state.Terminal() && NotYetNotified(x)
    ensures NotYetNotified(Step(AsDeployed, l, x))
  {
    var y := Step(AsDeployed, l, x);
    if x.state == MakeLoanDecision && y.state == UpdateLoanHistory {
      TaskWritesOwnResult(AsDeployed, l, x);
      var r := l(LoanDecisionFn, x.data).result;
      assert y.data == Put(x.data, "loanDecision", Wrapped(r)).value;
      assert DecisionDateAt == [Key("loanDecision")] + [Key("Payload"), Key("decisionDate")];
      PutThenGet(x.data, "loanDecision", Wrapped(r), "loanDecision", [Key("Payload"), Key("decisionDate")]);
      assert [Key("Payload"), Key("decisionDate")] == [Key("Payload")] + [Key("decisionDate")];
      GetKey(Wrapped(r), "Payload", [Key("decisionDate")]);
    }
    if x.state == UpdateLoanHistory {
      DeployedUpdateNeedsDecisionFields(x.data);
    }
  }

  lemma {:induction false} LoopNotYetNotified(l: Lambdas, x: Execution)
    requires DecisionsUndated(l) && NotYetNotified(x)
    ensures SendNotification !in Loop(AsDeployed, l, x).trace
    decreases Rank(x.state)
  {
    if !x.state.Terminal() {
      StepNotYetNotified(l, x);
      LoopNotYetNotified(l, Step(AsDeployed, l, x));
    }
  }

  /** As deployed, when the decision function returns no `decisionDate`,
      no execution reaches Send Notification, and the only executions that
      succeed are rejections of invalid applications. */
  lemma DeployedNeverNotifiesDecisions(l: Lambdas, input: Json)
    requires DecisionsUndated(l)
    ensures SendNotification !in Run(AsDeployed, l, input).trace
    ensures Run(AsDeployed, l, input).state == Succeeded ==> Run(AsDeployed, l, input).trace == InvalidPath
  {
    LoopNotYetNotified(l, Execution(FetchCustomerData, input, [], []));
    RunOrder(AsDeployed, l, input);
    assert SendNotification in ValidPath;
  }

  /** John Doe's application for 20,000 over 36 months, and the results
      the functions return for it under the corrected wiring, without the
      timestamps they add: his stored record (`ProfileIsStored`), no
      validation errors (`Validation.AffordableApplicationPasses`), a Good
      credit rating, verified income, a risk score of 58 with a maximum of
      151,200 at 13.7%, an empty history from the table, and an approval
      (`SampleRiskNumbers`, `SampleDecisions`). The update's response body
      is left out. As deployed
      the risk numbers would be `null` and the decision a decline; the run
      fails before that matters, at Update Loan History. */
  const Applicant: Json :=
    JObj(map["applicationId" := JStr("APP123"), "customerId" := JStr("CUST456"),
             "amount" := JNum(20000.0), "term" := JNum(36.0), "purpose" := JStr("Home Renovation")])

  /** A customer record as the customer-data function returns it in JSON. */
  function ProfileJson(cd: LT.CustomerData): Json
  {
    JObj(map["customerId" := JStr(cd.customerId), "firstName" := JStr(cd.firstName),
             "lastName" := JStr(cd.lastName), "email" := JStr(cd.email), "phone" := JStr(cd.phone),
             "address" := JStr(cd.address), "dateOfBirth" := JStr(cd.dateOfBirth), "ssn" := JStr(cd.ssn),
             "employmentStatus" := JStr(cd.employmentStatus), "annualIncome" := JNum(cd.annualIncome),
             "monthlyExpenses" := JNum(cd.monthlyExpenses), "creditScore" := JNum(cd.creditScore as real),
             "hasBankruptcy" := JBool(cd.hasBankruptcy), "outstandingLoans" := JNum(cd.outstandingLoans as real)])
  }

  /** John Doe's stored record, all fourteen fields. */
  const Profile: Json :=
    JObj(map["customerId" := JStr("CUST456"), "firstName" := JStr("John"), "lastName" := JStr("Doe"),
             "email" := JStr("john.doe@example.com"), "phone" := JStr("+1-555-123-4567"),
             "address" := JStr("123 Main St, Anytown, USA"), "dateOfBirth" := JStr("1980-05-15"),
             "ssn" := JStr("XXX-XX-1234"), "employmentStatus" := JStr("Full-time"),
             "annualIncome" := JNum(120000.0), "monthlyExpenses" := JNum(3000.0), "creditScore" := JNum(720.0),
             "hasBankruptcy" := JBool(false), "outstandingLoans" := JNum(1.0)])

  /** The stubbed profile is the customer-data table's CUST456 entry. */
  lemma ProfileIsStored()
    ensures "CUST456" in CDS.SampleCustomers()
    ensures Profile == ProfileJson(CDS.SampleCustomers()["CUST456"])
  {
  }

  const CustomerOut: Json := JObj(map["success" := JBool(true), "customerData" := Profile])
  const ValidationOut: Json := JObj(map["isValid" := JBool(true), "errors" := JArr([])])
  const CreditOut: Json :=
    JObj(map["creditScore" := JNum(720.0), "creditRating" := JStr("Good"), "hasBankruptcy" := JBool(false),
             "outstandingLoans" := JNum(1.0)])
  const IncomeOut: Json :=
    JObj(map["employmentVerified" := JBool(true), "verifiedAnnualIncome" := JNum(120000.0),
             "debtToIncomeRatio" := JNum(0.3)])
  const RiskOut: Json :=
    JObj(map["riskScore" := JNum(58.0), "maxLoanAmount" := JNum(151200.0),
             "recommendedInterestRate" := JNum(13.7)])
  const HistoryOut: Json := JObj(map["success" := JBool(true), "loanHistory" := JArr([])])
  const DecisionOut: Json :=
    JObj(map["approved" := JBool(true), "maxAmount" := JNum(151200.0), "interestRate" := JNum(13.7)])
  const UpdateOut: Json := JObj(map["statusCode" := JNum(200.0)])
  const NotificationOut: Json := JObj(map["sent" := JBool(true), "channel" := JStr("both")])

  /** What the risk function reads for the sample: the expenses only under
      the corrected wiring, the credit check of a 720 score with one
      outstanding loan, and verified income of 120,000. */
  function SampleRiskEvent(w: Wiring): RA.RiskAssessmentEvent
  {
    RA.RiskAssessmentEvent(if w.riskGetsExpenses then Some(3000.0) else None,
                           LT.CreditCheckResult(720, LT.Good, false, 1, ""),
                           LT.IncomeVerificationResult(true, 120000.0, JN.Fin(0.3), ""))
  }

  /** With the expenses the score is 50 - 12 + 5 + 15 = 58, the maximum
      round(10,000 * 36 * 0.42) and the rate 5 + 0.58 * 15; without them all
      three are NaN. */
  lemma SampleRiskNumbers()
    ensures RA.Clamp(RA.RawScore(SampleRiskEvent(Corrected))) == JN.Fin(58.0)
    ensures RA.MaxLoanAmount(RA.MonthlyIncome(SampleRiskEvent(Corrected)), JN.Fin(58.0)) == JN.Fin(151200.0)
    ensures RA.InterestRate(JN.Fin(58.0)) == JN.Fin(13.7)
    ensures RA.Clamp(RA.RawScore(SampleRiskEvent(AsDeployed))).NaN?
  {
    RA.NoExpensesNoNumbers(SampleRiskEvent(AsDeployed));
  }

  /** With those numbers 20,000 is approved at 13.7%; with the `null`s the
      deployed wiring sends, it is declined as above the maximum. */
  lemma SampleDecisions()
    ensures LD.Decide(LD.DecisionEvent(20000.0, JN.Number(58.0), JN.Number(151200.0), JN.Number(13.7)))
            == LT.Decision(true, Some(JN.Number(151200.0)), Some(JN.Number(13.7)), None)
    ensures LD.Decide(LD.DecisionEvent(20000.0, JN.Null, JN.Null, JN.Null))
            == LT.Decision(false, Some(JN.Null), None, Some(LD.AmountTooHigh))
  {
  }

  function Cooperative(fn: Fn, input: Json): Invocation
  {
    match fn
    case CustomerDataFn => Returned(CustomerOut)
    case ValidationFn => Returned(ValidationOut)
    case CreditCheckFn => Returned(CreditOut)
    case IncomeVerificationFn => Returned(IncomeOut)
    case RiskAssessmentFn => Returned(RiskOut)
    case HistoryRetrievalFn => Returned(HistoryOut)
    case LoanDecisionFn => Returned(DecisionOut)
    case HistoryUpdateFn => Returned(UpdateOut)
    case NotificationFn => Returned(NotificationOut)
  }

  /** The extracted application, as each branch also sees it. */
  const Extracted: Json :=
    JObj(map["applicationId" := JStr("APP123"), "customerId" := JStr("CUST456"),
             "amount" := JNum(20000.0), "term" := JNum(36.0), "purpose" := JStr("Home Renovation"),
             "customerData" := Profile])

  function With(j: Json, k: string, v: Json): Json
  {
    if j.JObj? then JObj(j.fields[k := v]) else j
  }

  const Fetched: Json := With(Applicant, "customerDataResult", Wrapped(CustomerOut))
  const Validated: Json := With(Extracted, "validationResult", Wrapped(ValidationOut))
  const FirstBranch: Json := With(Extracted, "creditCheckResult", Wrapped(CreditOut))
  const Branches: Json :=
    JArr([FirstBranch, With(Extracted, "incomeVerificationResult", Wrapped(IncomeOut))])

  /** The risk assessment's input; the corrected wiring adds the expenses. */
  function RiskIn(w: Wiring): Json
  {
    var application := if w.riskGetsExpenses then With(FirstBranch, "monthlyExpenses", JNum(3000.0))
                       else FirstBranch;
    JObj(map["application" := application, "creditCheckResult" := Wrapped(CreditOut),
             "incomeVerificationResult" := Wrapped(IncomeOut)])
  }

  function Decided(w: Wiring): Json
  {
    With(With(With(RiskIn(w), "riskAssessmentResult", Wrapped(RiskOut)),
              "loanHistoryResult", Wrapped(HistoryOut)),
         "loanDecision", Wrapped(DecisionOut))
  }

  lemma FetchStep(w: Wiring, tr: seq<State>, cs: seq<Call>)
    ensures var y := Step(w, Cooperative, Execution(FetchCustomerData, Applicant, tr, cs));
      y.state == ExtractCustomerData && y.data == Fetched
  {
  }

  lemma ExtractStep(w: Wiring, tr: seq<State>, cs: seq<Call>)
    ensures var y := Step(w, Cooperative, Execution(ExtractCustomerData, Fetched, tr, cs));
      y.state == ValidateApplication && y.data == Extracted
  {
    ExtractedOfFetched();
  }

  lemma ExtractedOfFetched()
    ensures ExtractedApplication(Fetched) == Some(Extracted)
  {
    assert Fetched.fields["customerDataResult"] == Wrapped(CustomerOut);
    assert Get(Fetched, [Key("customerDataResult"), Key("Payload"), Key("customerData")]) == Some(Profile);
  }

  lemma ValidateStep(w: Wiring, tr: seq<State>, cs: seq<Call>)
    ensures var y := Step(w, Cooperative, Execution(ValidateApplication, Extracted, tr, cs));
      y.state == IsApplicationValid && y.data == Validated
  {
  }

  lemma ChoiceStep(w: Wiring, tr: seq<State>, cs: seq<Call>)
    ensures var y := Step(w, Cooperative, Execution(IsApplicationValid, Validated, tr, cs));
      y.state == ParallelProcessing && y.data == Validated
  {
  }

  lemma BranchInputOfValidated()
    ensures BranchInput(Validated) == Some(Extracted)
  {
    ValidatedReads("customerId");
    ValidatedReads("amount");
    ValidatedReads("term");
    ValidatedReads("purpose");
    ValidatedReads("applicationId");
    ValidatedReads("customerData");
    assert BranchInput(Validated).value.fields == Extracted.fields;
  }

  lemma ValidatedReads(k: string)
    requires k in Extracted.fields && k != "validationResult"
    ensures Get(Validated, [Key(k)]) == Some(Extracted.fields[k])
  {
    GetKey(Validated, k, []);
  }

  lemma ParallelStep(w: Wiring, tr: seq<State>, cs: seq<Call>)
    ensures var y := Step(w, Cooperative, Execution(ParallelProcessing, Validated, tr, cs));
      y.state == PrepareRiskAssessment && y.data == Branches
  {
    var x := Execution(ParallelProcessing, Validated, tr, cs);
    BranchInputOfValidated();
    BranchesReturn();
    assert Step(w, Cooperative, x) == Parallel(Cooperative, x);
  }

  lemma BranchesReturn()
    ensures RunBranch(Cooperative, Some(Extracted), CreditCheckFn, "creditCheckResult").1 == Ok(FirstBranch)
    ensures RunBranch(Cooperative, Some(Extracted), IncomeVerificationFn, "incomeVerificationResult").1
            == Ok(Branches.items[1])
  {
  }

  lemma PrepareRiskStep(w: Wiring, tr: seq<State>, cs: seq<Call>)
    ensures var y := Step(w, Cooperative, Execution(PrepareRiskAssessment, Branches, tr, cs));
      y.state == AssessRisk && y.data == RiskIn(w)
  {
    RiskInputOfBranches(w);
  }

  lemma RiskInputOfBranches(w: Wiring)
    ensures RiskInput(w, Branches) == Some(RiskIn(w))
  {
    assert Get(Branches, [Index(0)]) == Some(FirstBranch);
    GetConcat(Branches, [Index(0)], [Key("creditCheckResult")]);
    GetConcat(Branches, [Index(1)], [Key("incomeVerificationResult")]);
    GetKey(FirstBranch, "creditCheckResult", []);
    if w.riskGetsExpenses {
      GetConcat(FirstBranch, [Key("customerData")], [Key("monthlyExpenses")]);
      assert Get(FirstBranch, [Key("customerData")]) == Some(Profile);
      GetKey(Profile, "monthlyExpenses", []);
    }
  }

  function Assessed(w: Wiring): Json
  {
    With(RiskIn(w), "riskAssessmentResult", Wrapped(RiskOut))
  }

  function Retrieved(w: Wiring): Json
  {
    With(Assessed(w), "loanHistoryResult", Wrapped(HistoryOut))
  }

  lemma AssessStep(w: Wiring, tr: seq<State>, cs: seq<Call>)
    ensures var y := Step(w, Cooperative, Execution(AssessRisk, RiskIn(w), tr, cs));
      y.state == RetrieveLoanHistory && y.data == Assessed(w)
  {
  }

  /** The application's fields read the same at every later state. */
  lemma ApplicationField(w: Wiring, k: string)
    requires k in Extracted.fields && k != "creditCheckResult" && k != "monthlyExpenses"
    ensures Get(Assessed(w), [Key("application"), Key(k)]) == Some(Extracted.fields[k])
    ensures Get(Retrieved(w), [Key("application"), Key(k)]) == Some(Extracted.fields[k])
    ensures Get(Decided(w), [Key("application"), Key(k)]) == Some(Extracted.fields[k])
  {
    ApplicationFieldInRiskIn(w, k);
    ApplicationFieldThrough(w, [Key(k)]);
  }

  lemma ApplicationFieldInRiskIn(w: Wiring, k: string)
    requires k in Extracted.fields && k != "creditCheckResult" && k != "monthlyExpenses"
    ensures Get(RiskIn(w).fields["application"], [Key(k)]) == Some(Extracted.fields[k])
  {
    var app := RiskIn(w).fields["application"];
    assert FirstBranch.fields[k] == Extracted.fields[k];
    assert app.JObj? && k in app.fields && app.fields[k] == Extracted.fields[k];
    GetKey(app, k, []);
  }

  /** Reads below `application` see through the results written after
      Prepare Risk Assessment. */
  lemma ApplicationFieldThrough(w: Wiring, p: Path)
    ensures Get(Assessed(w), [Key("application")] + p) == Get(RiskIn(w).fields["application"], p)
    ensures Get(Retrieved(w), [Key("application")] + p) == Get(RiskIn(w).fields["application"], p)
    ensures Get(Decided(w), [Key("application")] + p) == Get(RiskIn(w).fields["application"], p)
  {
    GetKey(RiskIn(w), "application", p);
    PutThenGet(RiskIn(w), "riskAssessmentResult", Wrapped(RiskOut), "application", p);
    PutThenGet(Assessed(w), "loanHistoryResult", Wrapped(HistoryOut), "application", p);
    PutThenGet(Retrieved(w), "loanDecision", Wrapped(DecisionOut), "application", p);
  }

  lemma RetrieveStep(w: Wiring, tr: seq<State>, cs: seq<Call>)
    ensures var y := Step(w, Cooperative, Execution(RetrieveLoanHistory, Assessed(w), tr, cs));
      y.state == MakeLoanDecision && y.data == Retrieved(w)
  {
    ApplicationField(w, "customerId");
  }

  lemma DecideStep(w: Wiring, tr: seq<State>, cs: seq<Call>)
    ensures var y := Step(w, Cooperative, Execution(MakeLoanDecision, Retrieved(w), tr, cs));
      y.state == UpdateLoanHistory && y.data == Decided(w)
  {
  }

  /** The decision as the update reads it: approved, and undated. */
  lemma DecisionFields(w: Wiring)
    ensures Get(Decided(w), ApprovedAt) == Some(JBool(true))
    ensures Get(Decided(w), DecisionDateAt).None?
  {
    assert ApprovedAt == [Key("loanDecision")] + [Key("Payload"), Key("approved")];
    assert DecisionDateAt == [Key("loanDecision")] + [Key("Payload"), Key("decisionDate")];
    PutThenGet(Retrieved(w), "loanDecision", Wrapped(DecisionOut), "loanDecision", [Key("Payload"), Key("approved")]);
    PutThenGet(Retrieved(w), "loanDecision", Wrapped(DecisionOut), "loanDecision", [Key("Payload"), Key("decisionDate")]);
    assert [Key("Payload"), Key("approved")] == [Key("Payload")] + [Key("approved")];
    assert [Key("Payload"), Key("decisionDate")] == [Key("Payload")] + [Key("decisionDate")];
    GetKey(Wrapped(DecisionOut), "Payload", [Key("approved")]);
    GetKey(Wrapped(DecisionOut), "Payload", [Key("decisionDate")]);
    GetKey(DecisionOut, "approved", []);
    GetKey(DecisionOut, "decisionDate", []);
  }

  /** As deployed, Update Loan History fails on any state whose decision
      has no `decisionDate`. */
  lemma DeployedUpdateFailsUndated(l: Lambdas, x: Execution)
    requires x.state == UpdateLoanHistory && Get(x.data, DecisionDateAt).None?
    ensures Step(AsDeployed, l, x).state == Failed(RuntimeError)
  {
    DeployedUpdateNeedsDecisionFields(x.data);
    assert TaskPayload(AsDeployed, x.state, x.data).None?;
    TaskOutcome(AsDeployed, l, x);
  }

  lemma DeployedUpdateStep(tr: seq<State>, cs: seq<Call>)
    ensures Step(AsDeployed, Cooperative, Execution(UpdateLoanHistory, Decided(AsDeployed), tr, cs)).state
            == Failed(RuntimeError)
  {
    DecisionFields(AsDeployed);
    DeployedUpdateFailsUndated(Cooperative, Execution(UpdateLoanHistory, Decided(AsDeployed), tr, cs));
  }

  lemma CorrectedPayloadBuilt()
    ensures UpdatePayload(Corrected, Decided(Corrected)).Some?
  {
    var d := Decided(Corrected);
    DecisionFields(Corrected);
    ApplicationField(Corrected, "customerId");
    ApplicationField(Corrected, "applicationId");
    ApplicationField(Corrected, "amount");
    ApplicationField(Corrected, "term");
    ApplicationField(Corrected, "purpose");
    CorrectedUpdatePayload(d);
  }

  lemma CorrectedUpdateStep(d: Json, tr: seq<State>, cs: seq<Call>)
    requires d.JObj? && UpdatePayload(Corrected, d).Some?
    ensures Step(Corrected, Cooperative, Execution(UpdateLoanHistory, d, tr, cs)).state == SendNotification
  {
    var p := TaskPayload(Corrected, UpdateLoanHistory, d);
    assert p == UpdatePayload(Corrected, d);
    assert Cooperative(HistoryUpdateFn, p.value) == Returned(UpdateOut);
    TaskOutcome(Corrected, Cooperative, Execution(UpdateLoanHistory, d, tr, cs));
  }

  // ---- 2. The monthly expenses

  const ExpensesAt: Path := [Key("application"), Key("monthlyExpenses")]

  /** Every call to the risk function so far had no
      `application.monthlyExpenses` in its input. */
  predicate RiskCallsLackExpenses(cs: seq<Call>)
  {
    forall i :: 0 <= i < |cs| && cs[i].fn == RiskAssessmentFn ==> Get(cs[i].input, ExpensesAt).None?
  }

  /** The invariant as deployed: the calls so far, and the data on its way
      to the risk function. */
  predicate ExpensesAbsent(x: Execution)
  {
    && RiskCallsLackExpenses(x.calls)
    && (x.state == PrepareRiskAssessment ==> Get(x.data, [Index(0), Key("monthlyExpenses")]).None?)
    && (x.state == AssessRisk ==> Get(x.data, ExpensesAt).None?)
  }

  lemma RiskCallsAppend(cs: seq<Call>, more: seq<Call>)
    requires RiskCallsLackExpenses(cs) && RiskCallsLackExpenses(more)
    ensures RiskCallsLackExpenses(cs + more)
  {
    forall i | 0 <= i < |cs + more| && (cs + more)[i].fn == RiskAssessmentFn
      ensures Get((cs + more)[i].input, ExpensesAt).None?
    {
      if i >= |cs| {
        assert (cs + more)[i] == more[i - |cs|];
      }
    }
  }

  /** The Parallel state's first result is the branch input plus the
      credit check result, and the branch input has no `monthlyExpenses`. */
  lemma ParallelLacksExpenses(l: Lambdas, x: Execution)
    requires x.state == ParallelProcessing && RiskCallsLackExpenses(x.calls)
    ensures ExpensesAbsent(Step(AsDeployed, l, x))
  {
    var y := Step(AsDeployed, l, x);
    ParallelJoin(AsDeployed, l, x);
    var input := BranchInput(x.data);
    ParallelCallsLackExpenses(l, x);
    if y.state == PrepareRiskAssessment {
      BranchResultLacksExpenses(input.value, Wrapped(l(CreditCheckFn, input.value).result));
      GetConcat(y.data, [Index(0)], [Key("monthlyExpenses")]);
    }
  }

  /** The Parallel state calls only the credit check and the income
      verification. */
  lemma ParallelCallsLackExpenses(l: Lambdas, x: Execution)
    requires x.state == ParallelProcessing && RiskCallsLackExpenses(x.calls)
    ensures RiskCallsLackExpenses(Step(AsDeployed, l, x).calls)
  {
    ParallelJoin(AsDeployed, l, x);
    var input := BranchInput(x.data);
    if input.Some? {
      RiskCallsAppend(x.calls, [Call(CreditCheckFn, input.value), Call(IncomeVerificationFn, input.value)]);
    } else {
      assert Step(AsDeployed, l, x).calls == x.calls;
    }
  }

  /** A branch's output is its input, which has the six selected fields,
      plus its own result. */
  lemma BranchResultLacksExpenses(input: Json, r: Json)
    requires input.JObj? && input.fields.Keys == BranchKeys
    ensures Get(JObj(input.fields["creditCheckResult" := r]), [Key("monthlyExpenses")]).None?
  {
    var b0 := JObj(input.fields["creditCheckResult" := r]);
    assert "monthlyExpenses" !in b0.fields;
    GetKey(b0, "monthlyExpenses", []);
  }

  /** Prepare Risk Assessment, as deployed, passes the first result on as
      the application unchanged. */
  lemma PrepareLacksExpenses(l: Lambdas, x: Execution)
    requires x.state == PrepareRiskAssessment && ExpensesAbsent(x)
    ensures ExpensesAbsent(Step(AsDeployed, l, x))
  {
    var y := Step(AsDeployed, l, x);
    if y.state == AssessRisk {
      var app := Get(x.data, [Index(0)]).value;
      assert y.data.fields["application"] == app;
      GetConcat(x.data, [Index(0)], [Key("monthlyExpenses")]);
      GetKey(y.data, "application", [Key("monthlyExpenses")]);
    }
  }

  /** A task adds at most the call to its own function, with its payload;
      Assess Risk's payload is the state's data itself. */
  lemma TaskLacksExpenses(l: Lambdas, x: Execution)
    requires IsTask(x.state) && ExpensesAbsent(x)
    ensures ExpensesAbsent(Step(AsDeployed, l, x))
  {
    var y := Step(AsDeployed, l, x);
    var p := TaskPayload(AsDeployed, x.state, x.data);
    if p.Some? {
      assert y.calls == x.calls + [Call(TaskFn(x.state), p.value)];
      RiskCallsAppend(x.calls, [Call(TaskFn(x.state), p.value)]);
    } else {
      assert y.calls == x.calls;
    }
  }

  lemma StepLacksExpenses(l: Lambdas, x: Execution)
    requires !x.state.Terminal() && ExpensesAbsent(x)
    ensures ExpensesAbsent(Step(AsDeployed, l, x))
  {
    if IsTask(x.state) {
      TaskLacksExpenses(l, x);
    } else if x.state == ParallelProcessing {
      ParallelLacksExpenses(l, x);
    } else if x.state == PrepareRiskAssessment {
      PrepareLacksExpenses(l, x);
    }
  }

  lemma {:induction false} LoopLacksExpenses(l: Lambdas, x: Execution)
    requires ExpensesAbsent(x)
    ensures RiskCallsLackExpenses(Loop(AsDeployed, l, x).calls)
    decreases Rank(x.state)
  {
    if !x.state.Terminal() {
      StepLacksExpenses(l, x);
      LoopLacksExpenses(l, Step(AsDeployed, l, x));
    }
  }

  /** As deployed, whatever the functions return, the risk function is
      never given `application.monthlyExpenses`. */
  lemma DeployedRiskNeverSeesExpenses(l: Lambdas, input: Json)
    ensures forall c :: c in Run(AsDeployed, l, input).calls && c.fn == RiskAssessmentFn ==>
              Get(c.input, ExpensesAt).None?
  {
    LoopLacksExpenses(l, Execution(FetchCustomerData, input, [], []));
  }

  /** What the risk function then computes reaches the decision function
      through JSON: with no expenses its three numbers are NaN, JSON turns
      them into `null`, and every positive amount is declined as exceeding
      a `null` maximum. `r` is what `RiskAssessment.Assess` returns. */
  lemma MissingExpensesDeclineEveryLoan(e: RA.RiskAssessmentEvent, r: LT.RiskAssessmentResult, amount: real)
    requires e.monthlyExpenses.None? && amount > 0.0
    requires r.riskScore == RA.Clamp(RA.RawScore(e))
    requires r.maxLoanAmount == RA.MaxLoanAmount(RA.MonthlyIncome(e), r.riskScore)
    requires r.recommendedInterestRate == RA.InterestRate(r.riskScore)
    ensures var event := LD.DecisionEvent(amount, JN.ToWire(r.riskScore), JN.ToWire(r.maxLoanAmount),
                                          JN.ToWire(r.recommendedInterestRate));
      LD.Decide(event) == LT.Decision(false, Some(JN.Null), None, Some(LD.AmountTooHigh))
  {
    RA.NoExpensesNoNumbers(e);
    LD.NullRiskDeclines(LD.DecisionEvent(amount, JN.ToWire(r.riskScore), JN.ToWire(r.maxLoanAmount),
                                         JN.ToWire(r.recommendedInterestRate)));
  }
}
