/** The loan-processing state machine of lib/orchestration-example-stack.ts:
    the states of the Step Functions definition, what each reads from the
    execution's JSON, which Lambda function it invokes, and where it writes
    the result. The functions themselves are a parameter `Lambdas`: what
    each one returns, or whether it raises, for a given input. */
module Workflow {
  import opened Wrappers
  import opened Json

  datatype State =
    | FetchCustomerData
    | ExtractCustomerData
    | ValidateApplication
    | IsApplicationValid
    | ParallelProcessing
    | PrepareRiskAssessment
    | AssessRisk
    | RetrieveLoanHistory
    | MakeLoanDecision
    | UpdateLoanHistory
    | SendNotification
    | NotifyValidationFailure
    | NotifyError
    | Succeeded
    | Failed(error: string)
  {
    predicate Terminal() { Succeeded? || Failed? }
  }

  /** A JsonPath that leaves the document, or a result path on a non-object. */
  const RuntimeError: string := "States.Runtime"
  /** A Lambda function that raised. This names the error class a
      `Catch` would match; the execution itself reports the function's own
      error type, which the model does not keep. */
  const TaskFailed: string := "States.TaskFailed"

  datatype Fn =
    | CustomerDataFn
    | ValidationFn
    | CreditCheckFn
    | IncomeVerificationFn
    | RiskAssessmentFn
    | HistoryRetrievalFn
    | LoanDecisionFn
    | HistoryUpdateFn
    | NotificationFn

  datatype Invocation = Returned(result: Json) | Raised(cause: string)

  type Lambdas = (Fn, Json) -> Invocation

  datatype Call = Call(fn: Fn, input: Json)

  /** Two ways of wiring the payloads. `AsDeployed` is the definition as
      written; `Corrected` gives the risk assessment the applicant's monthly
      expenses and stops the history update from reading decision fields
      the decision function does not return. */
  datatype Wiring = Wiring(riskGetsExpenses: bool, updateReadsAbsentFields: bool)

  const AsDeployed: Wiring := Wiring(false, true)
  const Corrected: Wiring := Wiring(true, false)

  /** Where an execution is, its current JSON, the states it has left, and
      the invocations it has made. */
  datatype Execution = Execution(state: State, data: Json, trace: seq<State>, calls: seq<Call>)

  // ---- Payloads and Pass states

  /** Fetch Customer Data's payload. */
  function FetchPayload(d: Json): Option<Json>
  {
    var customerId :- Get(d, [Key("customerId")]);
    Some(JObj(map["customerId" := customerId, "action" := JStr("get")]))
  }

  /** Extract Customer Data: the application's fields and the fetched profile. */
  function ExtractedApplication(d: Json): (r: Option<Json>)
    ensures r.Some? ==> Get(r.value, [Key("customerData")]) ==
                        Get(d, [Key("customerDataResult"), Key("Payload"), Key("customerData")])
  {
    var applicationId :- Get(d, [Key("applicationId")]);
    var customerId :- Get(d, [Key("customerId")]);
    var amount :- Get(d, [Key("amount")]);
    var term :- Get(d, [Key("term")]);
    var purpose :- Get(d, [Key("purpose")]);
    var customerData :- Get(d, [Key("customerDataResult"), Key("Payload"), Key("customerData")]);
    Some(JObj(map["applicationId" := applicationId, "customerId" := customerId, "amount" := amount,
                   "term" := term, "purpose" := purpose, "customerData" := customerData]))
  }

  const BranchKeys: set<string> := {"customerId", "amount", "term", "purpose", "applicationId", "customerData"}

  /** Prepare Credit Check and Prepare Income Verification: both branches
      select the same six fields. */
  function BranchInput(d: Json): (r: Option<Json>)
    ensures r.Some? ==> r.value.JObj? && r.value.fields.Keys == BranchKeys
  {
    var customerId :- Get(d, [Key("customerId")]);
    var amount :- Get(d, [Key("amount")]);
    var term :- Get(d, [Key("term")]);
    var purpose :- Get(d, [Key("purpose")]);
    var applicationId :- Get(d, [Key("applicationId")]);
    var customerData :- Get(d, [Key("customerData")]);
    Some(JObj(map["customerId" := customerId, "amount" := amount, "term" := term,
                   "purpose" := purpose, "applicationId" := applicationId, "customerData" := customerData]))
  }

  /** The application with `monthlyExpenses` copied up from its profile. */
  function WithExpenses(application: Json): Option<Json>
  {
    var expenses :- Get(application, [Key("customerData"), Key("monthlyExpenses")]);
    Put(application, "monthlyExpenses", expenses)
  }

  /** Prepare Risk Assessment, on the Parallel state's two-element output. */
  function RiskInput(w: Wiring, d: Json): Option<Json>
  {
    var application :- Get(d, [Index(0)]);
    var creditCheckResult :- Get(d, [Index(0), Key("creditCheckResult")]);
    var incomeVerificationResult :- Get(d, [Index(1), Key("incomeVerificationResult")]);
    var application' :- if w.riskGetsExpenses then WithExpenses(application) else Some(application);
    Some(JObj(map["application" := application', "creditCheckResult" := creditCheckResult,
                   "incomeVerificationResult" := incomeVerificationResult]))
  }

  /** Retrieve Loan History's payload. */
  function RetrievalPayload(d: Json): Option<Json>
  {
    var customerId :- Get(d, [Key("application"), Key("customerId")]);
    Some(JObj(map["customerId" := customerId]))
  }

  /** The decision fields the deployed update payload reads as well. */
  function WithDecisionFields(loanData: map<string, Json>, d: Json): Option<map<string, Json>>
  {
    var decisionDate :- Get(d, [Key("loanDecision"), Key("Payload"), Key("decisionDate")]);
    var reason :- Get(d, [Key("loanDecision"), Key("Payload"), Key("reason")]);
    Some(loanData["decisionDate" := decisionDate]["reason" := reason])
  }

  /** The `loanData` of the history update: the application's id is sent
      as the loan id and the decision's `approved` as the status. */
  function UpdateLoanData(w: Wiring, d: Json): Option<map<string, Json>>
  {
    var loanId :- Get(d, [Key("application"), Key("applicationId")]);
    var amount :- Get(d, [Key("application"), Key("amount")]);
    var term :- Get(d, [Key("application"), Key("term")]);
    var purpose :- Get(d, [Key("application"), Key("purpose")]);
    var status :- Get(d, [Key("loanDecision"), Key("Payload"), Key("approved")]);
    var loanData := map["loanId" := loanId, "amount" := amount, "term" := term,
                        "purpose" := purpose, "status" := status];
    if w.updateReadsAbsentFields then WithDecisionFields(loanData, d) else Some(loanData)
  }

  /** Update Loan History's payload. */
  function UpdatePayload(w: Wiring, d: Json): Option<Json>
  {
    var customerId :- Get(d, [Key("application"), Key("customerId")]);
    var loanData :- UpdateLoanData(w, d);
    Some(JObj(map["customerId" := customerId, "action" := JStr("add"), "loanData" := JObj(loanData)]))
  }

  /** Notify Validation Failure's payload: the whole state and a rejection
      whose reason is the first validation error. */
  function ValidationFailurePayload(d: Json): Option<Json>
  {
    var reason :- Get(d, [Key("validationResult"), Key("Payload"), Key("errors"), Index(0)]);
    Some(JObj(map["application" := d,
                   "decision" := JObj(map["approved" := JBool(false), "reason" := reason])]))
  }

  const ProcessingError: string := "Application processing error occurred"

  /** Notify Error's payload (a state no transition leads to). */
  function ErrorPayload(d: Json): Json
  {
    JObj(map["application" := d,
             "decision" := JObj(map["approved" := JBool(false), "reason" := JStr(ProcessingError)])])
  }

  // ---- The transition function

  predicate IsTask(s: State)
  {
    !(s.Terminal() || s.ExtractCustomerData? || s.IsApplicationValid? || s.ParallelProcessing?
      || s.PrepareRiskAssessment?)
  }

  function TaskFn(s: State): Fn
    requires IsTask(s)
  {
    match s
    case FetchCustomerData => CustomerDataFn
    case ValidateApplication => ValidationFn
    case AssessRisk => RiskAssessmentFn
    case RetrieveLoanHistory => HistoryRetrievalFn
    case MakeLoanDecision => LoanDecisionFn
    case UpdateLoanHistory => HistoryUpdateFn
    case SendNotification => NotificationFn
    case NotifyValidationFailure => NotificationFn
    case NotifyError => NotificationFn
  }

  function ResultKey(s: State): string
    requires IsTask(s)
  {
    match s
    case FetchCustomerData => "customerDataResult"
    case ValidateApplication => "validationResult"
    case AssessRisk => "riskAssessmentResult"
    case RetrieveLoanHistory => "loanHistoryResult"
    case MakeLoanDecision => "loanDecision"
    case UpdateLoanHistory => "loanHistoryUpdateResult"
    case SendNotification => "notificationResult"
    case NotifyValidationFailure => "notificationResult"
    case NotifyError => "notificationResult"
  }

  /** What a task sends its function: a payload template, or (`inputPath:
      '$'`) the whole state. */
  function TaskPayload(w: Wiring, s: State, d: Json): Option<Json>
    requires IsTask(s)
  {
    match s
    case FetchCustomerData => FetchPayload(d)
    case RetrieveLoanHistory => RetrievalPayload(d)
    case UpdateLoanHistory => UpdatePayload(w, d)
    case NotifyValidationFailure => ValidationFailurePayload(d)
    case NotifyError => Some(ErrorPayload(d))
    case _ => Some(d)
  }

  /** The `.next` of each state; for the choice, its `when` branch. */
  function Next(s: State): State
    requires !s.Terminal()
  {
    match s
    case FetchCustomerData => ExtractCustomerData
    case ExtractCustomerData => ValidateApplication
    case ValidateApplication => IsApplicationValid
    case IsApplicationValid => ParallelProcessing
    case ParallelProcessing => PrepareRiskAssessment
    case PrepareRiskAssessment => AssessRisk
    case AssessRisk => RetrieveLoanHistory
    case RetrieveLoanHistory => MakeLoanDecision
    case MakeLoanDecision => UpdateLoanHistory
    case UpdateLoanHistory => SendNotification
    case SendNotification => Succeeded
    case NotifyValidationFailure => Succeeded
    case NotifyError => Succeeded
  }

  function Rank(s: State): nat
  {
    match s
    case FetchCustomerData => 11
    case ExtractCustomerData => 10
    case ValidateApplication => 9
    case IsApplicationValid => 8
    case ParallelProcessing => 7
    case PrepareRiskAssessment => 6
    case AssessRisk => 5
    case RetrieveLoanHistory => 4
    case MakeLoanDecision => 3
    case UpdateLoanHistory => 2
    case SendNotification => 1
    case NotifyValidationFailure => 1
    case NotifyError => 1
    case Succeeded => 0
    case Failed(_) => 0
  }

  /** One Lambda task: the call (when the payload could be built) and
      either the state input with the result written under `key`, or the
      error. */
  function Invoke(l: Lambdas, data: Json, payload: Option<Json>, fn: Fn, key: string)
    : (r: (seq<Call>, Result<Json, string>))
    ensures payload.None? ==> r == ([], Err(RuntimeError))
    ensures payload.Some? ==> r.0 == [Call(fn, payload.value)]
    ensures r.1.Ok? <==> payload.Some? && l(fn, payload.value).Returned? && data.JObj?
    ensures payload.Some? && l(fn, payload.value).Raised? ==> r.1 == Err(TaskFailed)
    ensures r.1.Ok? ==> r.1.value == Put(data, key, Wrapped(l(fn, payload.value).result)).value
  {
    if payload.None? then ([], Err(RuntimeError))
    else
      var call := Call(fn, payload.value);
      match l(fn, payload.value)
      case Raised(_) => ([call], Err(TaskFailed))
      case Returned(result) =>
        match Put(data, key, Wrapped(result))
        case None => ([call], Err(RuntimeError))
        case Some(out) => ([call], Ok(out))
  }

  /** A task state: invoke its function and move on, or fail. */
  function TaskStep(w: Wiring, l: Lambdas, x: Execution): (y: Execution)
    requires IsTask(x.state)
    ensures y.trace == x.trace + [x.state]
    ensures y.state == Next(x.state) || y.state.Failed?
    ensures x.calls <= y.calls && |y.calls| <= |x.calls| + 1
  {
    var s := x.state;
    var (c, r) := Invoke(l, x.data, TaskPayload(w, s, x.data), TaskFn(s), ResultKey(s));
    if r.Ok? then Execution(Next(s), r.value, x.trace + [s], x.calls + c)
    else Execution(Failed(r.error), x.data, x.trace + [s], x.calls + c)
  }

  const IsValidPath: Path := [Key("validationResult"), Key("Payload"), Key("isValid")]

  /** Is Application Valid?: `isValid` equal to `true` goes on to the
      Parallel state, any other value to the rejection notice; a missing
      one is a runtime error. */
  function Choose(x: Execution): (y: Execution)
    ensures y.trace == x.trace + [x.state] && y.calls == x.calls
    ensures y.state in {ParallelProcessing, NotifyValidationFailure, Failed(RuntimeError)}
  {
    var v := Get(x.data, IsValidPath);
    var s' := if v.None? then Failed(RuntimeError)
              else if v.value == JBool(true) then ParallelProcessing
              else NotifyValidationFailure;
    Execution(s', x.data, x.trace + [x.state], x.calls)
  }

  /** One branch of the Parallel state: its Pass state, then its task. */
  function RunBranch(l: Lambdas, input: Option<Json>, fn: Fn, key: string): (r: (seq<Call>, Result<Json, string>))
    ensures input.None? ==> r.0 == []
    ensures input.Some? ==> r.0 == [Call(fn, input.value)]
  {
    if input.None? then ([], Err(RuntimeError)) else Invoke(l, input.value, input, fn, key)
  }

  /** The Parallel state: both branches run on the same input; it moves on
      only when both have a result, and its output lists them in branch
      order. */
  function Parallel(l: Lambdas, x: Execution): (y: Execution)
    ensures y.trace == x.trace + [x.state]
    ensures y.state == PrepareRiskAssessment || y.state.Failed?
    ensures x.calls <= y.calls
  {
    var input := BranchInput(x.data);
    var (c0, r0) := RunBranch(l, input, CreditCheckFn, "creditCheckResult");
    var (c1, r1) := RunBranch(l, input, IncomeVerificationFn, "incomeVerificationResult");
    var trace := x.trace + [x.state];
    var calls := x.calls + c0 + c1;
    if r0.Ok? && r1.Ok? then Execution(PrepareRiskAssessment, JArr([r0.value, r1.value]), trace, calls)
    else Execution(Failed(if r0.Err? then r0.error else r1.error), x.data, trace, calls)
  }

  /** The two Pass states: their output replaces the state. */
  function PassStep(w: Wiring, x: Execution): (y: Execution)
    requires x.state == ExtractCustomerData || x.state == PrepareRiskAssessment
    ensures y.trace == x.trace + [x.state] && y.calls == x.calls
    ensures y.state == Next(x.state) || y.state == Failed(RuntimeError)
  {
    var out := if x.state == ExtractCustomerData then ExtractedApplication(x.data) else RiskInput(w, x.data);
    if out.Some? then Execution(Next(x.state), out.value, x.trace + [x.state], x.calls)
    else Execution(Failed(RuntimeError), x.data, x.trace + [x.state], x.calls)
  }

  lemma NextLowersRank(s: State)
    requires !s.Terminal()
    ensures Rank(Next(s)) < Rank(s) && Rank(NotifyValidationFailure) < Rank(IsApplicationValid)
  {
  }

  function Step(w: Wiring, l: Lambdas, x: Execution): (y: Execution)
    requires !x.state.Terminal()
    ensures y.trace == x.trace + [x.state]
    ensures x.calls <= y.calls
    ensures y.state == Next(x.state) || y.state.Failed?
            || (x.state == IsApplicationValid && y.state == NotifyValidationFailure)
    ensures Rank(y.state) < Rank(x.state)
  {
    NextLowersRank(x.state);
    if IsTask(x.state) then TaskStep(w, l, x)
    else if x.state == IsApplicationValid then Choose(x)
    else if x.state == ParallelProcessing then Parallel(l, x)
    else PassStep(w, x)
  }

  function Loop(w: Wiring, l: Lambdas, x: Execution): (y: Execution)
    ensures y.state.Terminal()
    ensures x.trace <= y.trace && x.calls <= y.calls
    decreases Rank(x.state)
  {
    if x.state.Terminal() then x else Loop(w, l, Step(w, l, x))
  }

  /** An execution started on the application `input`. */
  function Run(w: Wiring, l: Lambdas, input: Json): Execution
  {
    Loop(w, l, Execution(FetchCustomerData, input, [], []))
  }
}
