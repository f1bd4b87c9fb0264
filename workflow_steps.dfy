/** What single states of the workflow do: the choice's routing, the
    Parallel join, the payloads built for the risk assessment, the history
    update and the rejection notice, and where tasks write their results. */
module WorkflowSteps {
  import opened Wrappers
  import opened Json
  import opened Workflow

  /** The choice reads `isValid`: `true` leads to the Parallel state, any
      other value to the rejection notice, and a missing one fails the run.
      Nothing is invoked and the data is unchanged. */
  lemma ChoiceRoutes(w: Wiring, l: Lambdas, x: Execution)
    requires x.state == IsApplicationValid
    ensures var y := Step(w, l, x); var v := Get(x.data, IsValidPath);
      && (y.state == ParallelProcessing <==> v == Some(JBool(true)))
      && (y.state == NotifyValidationFailure <==> v.Some? && v.value != JBool(true))
      && (y.state == Failed(RuntimeError) <==> v.None?)
      && y.data == x.data && y.calls == x.calls
  {
  }

  const ErrorsHead: Path := [Key("validationResult"), Key("Payload"), Key("errors"), Index(0)]

  /** The rejection notice carries the whole state as the application, and
      a decision that is not approved whose reason is the first validation
      error; without a first error it cannot be built. */
  lemma ValidationFailureNotice(d: Json)
    ensures ValidationFailurePayload(d).Some? <==> Get(d, ErrorsHead).Some?
    ensures ValidationFailurePayload(d).Some? ==>
      var p := ValidationFailurePayload(d).value;
      && Get(p, [Key("application")]) == Some(d)
      && Get(p, [Key("decision"), Key("approved")]) == Some(JBool(false))
      && Get(p, [Key("decision"), Key("reason")]) == Get(d, ErrorsHead)
  {
  }

  /** The Parallel state either fails or moves on with one result per
      branch, each branch's input extended by its own result; it invokes
      both functions on the same input, credit check first. */
  lemma ParallelJoin(w: Wiring, l: Lambdas, x: Execution)
    requires x.state == ParallelProcessing
    ensures var y := Step(w, l, x); var input := BranchInput(x.data);
      && (y.state == PrepareRiskAssessment <==>
            input.Some? && l(CreditCheckFn, input.value).Returned? && l(IncomeVerificationFn, input.value).Returned?)
      && (input.Some? ==> y.calls == x.calls + [Call(CreditCheckFn, input.value), Call(IncomeVerificationFn, input.value)])
      && (y.state == PrepareRiskAssessment ==>
            && y.data.JArr? && |y.data.items| == 2
            && y.data.items[0] == JObj(input.value.fields["creditCheckResult" := Wrapped(l(CreditCheckFn, input.value).result)])
            && y.data.items[1] == JObj(input.value.fields["incomeVerificationResult" := Wrapped(l(IncomeVerificationFn, input.value).result)]))
  {
  }

  /** Prepare Risk Assessment takes the credit check result from the first
      branch and the income verification result from the second; the
      application is the first branch's output, to which the corrected
      wiring adds the profile's monthly expenses. */
  lemma RiskInputFromBranches(w: Wiring, b0: Json, b1: Json)
    requires b0.JObj? && b1.JObj?
    requires "creditCheckResult" in b0.fields && "incomeVerificationResult" in b1.fields
    ensures var r := RiskInput(w, JArr([b0, b1]));
      && (!w.riskGetsExpenses ==> r.Some?)
      && (r.Some? ==>
            && Get(r.value, [Key("creditCheckResult")]) == Some(b0.fields["creditCheckResult"])
            && Get(r.value, [Key("incomeVerificationResult")]) == Some(b1.fields["incomeVerificationResult"]))
      && (r.Some? && !w.riskGetsExpenses ==> Get(r.value, [Key("application")]) == Some(b0))
  {
    var d := JArr([b0, b1]);
    assert Get(d, [Index(0)]) == Some(b0);
    GetKey(b0, "creditCheckResult", []);
    GetKey(b1, "incomeVerificationResult", []);
    assert Get(d, [Index(0), Key("creditCheckResult")]) == Get(b0, [Key("creditCheckResult")]);
    assert Get(d, [Index(1), Key("incomeVerificationResult")]) == Get(b1, [Key("incomeVerificationResult")]);
  }

  /** With the corrected wiring the application reads the profile's
      monthly expenses, and otherwise what the first branch gave it. */
  lemma CorrectedRiskInputCarriesExpenses(d: Json, k: string)
    requires RiskInput(Corrected, d).Some?
    ensures var app := Get(RiskInput(Corrected, d).value, [Key("application")]);
      && app.Some?
      && Get(app.value, [Key("monthlyExpenses")]) == Get(d, [Index(0), Key("customerData"), Key("monthlyExpenses")])
      && Get(d, [Index(0), Key("customerData"), Key("monthlyExpenses")]).Some?
      && (k != "monthlyExpenses" ==> Get(app.value, [Key(k)]) == Get(d, [Index(0), Key(k)]))
  {
    var a := Get(d, [Index(0)]).value;
    GetConcat(d, [Index(0)], [Key(k)]);
    GetConcat(d, [Index(0)], [Key("customerData"), Key("monthlyExpenses")]);
    var e := Get(a, [Key("customerData"), Key("monthlyExpenses")]).value;
    PutThenGet(a, "monthlyExpenses", e, "monthlyExpenses", []);
    PutThenGet(a, "monthlyExpenses", e, k, []);
  }

  /** A task that moves on made exactly one call, with its payload; it
      wrote the function's result under its own key and left every other
      field of the state as it was. */
  lemma TaskWritesOwnResult(w: Wiring, l: Lambdas, x: Execution)
    requires IsTask(x.state)
    ensures var y := Step(w, l, x); var p := TaskPayload(w, x.state, x.data);
      y.state == Next(x.state) ==>
        && p.Some? && l(TaskFn(x.state), p.value).Returned?
        && y.calls == x.calls + [Call(TaskFn(x.state), p.value)]
        && Get(y.data, [Key(ResultKey(x.state)), Key("Payload")]) == Some(l(TaskFn(x.state), p.value).result)
        && x.data.JObj? && y.data.JObj?
        && (forall k :: k in x.data.fields && k != ResultKey(x.state) ==>
              k in y.data.fields && y.data.fields[k] == x.data.fields[k])
  {
    var y := Step(w, l, x);
    var p := TaskPayload(w, x.state, x.data);
    if y.state == Next(x.state) {
      var r := l(TaskFn(x.state), p.value).result;
      PutThenGet(x.data, ResultKey(x.state), Wrapped(r), ResultKey(x.state), [Key("Payload")]);
    }
  }

  /** A task fails with a runtime error when its payload cannot be built,
      and moves on when it can, its function returns and the state is an
      object. */
  lemma TaskOutcome(w: Wiring, l: Lambdas, x: Execution)
    requires IsTask(x.state)
    ensures var p := TaskPayload(w, x.state, x.data); var y := Step(w, l, x);
      && (p.None? ==> y.state == Failed(RuntimeError))
      && (p.Some? && l(TaskFn(x.state), p.value).Returned? && x.data.JObj? ==> y.state == Next(x.state))
  {
  }

  /** Different tasks write under different keys, except that the
      notification tasks share one. */
  lemma ResultKeysDistinct(s1: State, s2: State)
    requires IsTask(s1) && IsTask(s2) && s1 != s2
    requires TaskFn(s1) != NotificationFn || TaskFn(s2) != NotificationFn
    ensures ResultKey(s1) != ResultKey(s2)
  {
  }

  function ApplicationAt(k: string): Path
  {
    [Key("application"), Key(k)]
  }
  const ApprovedAt: Path := [Key("loanDecision"), Key("Payload"), Key("approved")]
  const DecisionDateAt: Path := [Key("loanDecision"), Key("Payload"), Key("decisionDate")]
  const ReasonAt: Path := [Key("loanDecision"), Key("Payload"), Key("reason")]

  /** The history update's `loanData`: the loan id is the application id,
      the status the decision's `approved`, the amount the application's;
      there is no `applicationId` field. */
  lemma UpdateLoanDataShape(w: Wiring, d: Json)
    requires UpdateLoanData(w, d).Some?
    ensures var m := UpdateLoanData(w, d).value;
      && "loanId" in m && Some(m["loanId"]) == Get(d, ApplicationAt("applicationId"))
      && "status" in m && Some(m["status"]) == Get(d, ApprovedAt)
      && "amount" in m && Some(m["amount"]) == Get(d, ApplicationAt("amount"))
      && "applicationId" !in m
  {
  }

  /** The history update request is an `add` for the application's
      customer. */
  lemma UpdatePayloadShape(w: Wiring, d: Json)
    requires UpdatePayload(w, d).Some?
    ensures var p := UpdatePayload(w, d).value;
      && Get(p, [Key("customerId")]) == Get(d, ApplicationAt("customerId"))
      && Get(p, [Key("action")]) == Some(JStr("add"))
      && Get(p, [Key("loanData")]) == Some(JObj(UpdateLoanData(w, d).value))
  {
  }

  /** As deployed the update request can only be built when the decision
      has both a `decisionDate` and a `reason`. */
  lemma DeployedUpdateNeedsDecisionFields(d: Json)
    ensures UpdatePayload(AsDeployed, d).Some? ==> Get(d, DecisionDateAt).Some? && Get(d, ReasonAt).Some?
  {
  }

  /** With the corrected wiring the request is built exactly when the
      application's fields and the decision's `approved` are present. */
  lemma CorrectedUpdatePayload(d: Json)
    ensures UpdatePayload(Corrected, d).Some? <==>
      && Get(d, ApplicationAt("customerId")).Some? && Get(d, ApplicationAt("applicationId")).Some?
      && Get(d, ApplicationAt("amount")).Some? && Get(d, ApplicationAt("term")).Some?
      && Get(d, ApplicationAt("purpose")).Some? && Get(d, ApprovedAt).Some?
  {
  }
}
