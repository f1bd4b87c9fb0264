# Loan processing workflow, modelled in Dafny

This project models the loan-processing example: an AWS Step Functions state
machine (`lib/orchestration-example-stack.ts`) that takes a loan application
through nine Lambda functions, and the handlers of those functions under
`src/lambdas/`. The run goes:
- fetch the customer's profile;
- extract the application;
- validate it, and reject an invalid one with a notification;
- check credit and verify income in parallel;
- assess the risk;
- read the customer's loan history;
- decide;
- record the decision in the history table;
- notify the customer.

The model has two layers.

- **Handlers**: one module per handler, on typed events.
  - Validation, credit check, income verification, risk assessment, loan
    decision and notification are functions. Validation and risk
    assessment also have the step-by-step method the handler is.
  - The two in-memory services (customer data, loan history) are classes
    whose table is a `map` field, next to a function on table values that
    specifies them.
  - The two DynamoDB-backed history handlers take the database's answer as
    a parameter.
  - JavaScript numbers are `JsNumber.Num`: exact values, ±Infinity and NaN.
    After a trip through JSON a number becomes `JsNumber.Wire`, a number
    or `null`.
- **Workflow**: the state machine runs over a small JSON datatype.
  - A JsonPath read that finds nothing fails the run with `States.Runtime`.
  - A task's `resultPath: '$.k'` writes `{Payload: result}` under `k`.
  - A Pass state with `parameters` replaces the data.
  - The Parallel state outputs its two branch results as an array.
  - The Lambda functions are a parameter `Lambdas = (Fn, Json) -> Invocation`.
    So the run-level lemmas hold whatever the functions return.
  - `JsonPath.stringAt` and `numberAt` are typing hints of the CDK only; the
    model passes values of any type.
  - `Workflow.Wiring` selects the payloads as deployed (`AsDeployed`) or with
    the two defects under "## Findings" repaired (`Corrected`).

## Model

| member | source | states |
|---|---|---|
| Validation.Validate | src/lambdas/validation/index.ts:16-77 | the errors are the messages of exactly the failing checks, in the order the handler runs them; the application is valid iff there is no error |
| Validation.CheckIds | src/lambdas/validation/index.ts:27-35 | a blank application id, then a blank customer id, each appends its message, in that order |
| Validation.CheckAmount | src/lambdas/validation/index.ts:37-42 | a missing or non-positive amount appends one message, an amount above 1,000,000 the other, never both |
| Validation.CheckTerm | src/lambdas/validation/index.ts:44-49 | a missing or non-positive term appends one message, a term above 360 the other |
| Validation.CheckPurpose | src/lambdas/validation/index.ts:51-54 | a blank purpose appends its message |
| Validation.CheckCustomerData | src/lambdas/validation/index.ts:56-71 | with customer data: an empty customer id and a debt-to-income ratio above 0.43 each append their message |
| Validation.Messages | src/lambdas/validation/index.ts:25-75 | one message per failing check, in the same order |
| Validation.ErrorConditions | src/lambdas/validation/index.ts:27-71 | each message is present iff its condition holds; no check short-circuits another |
| Validation.ErrorsInCheckOrder | src/lambdas/validation/index.ts:25-71 | the failing checks appear in check order, without repetition |
| Validation.ErrorBounds | src/lambdas/validation/index.ts:37-71 | at most one amount and one term message; none for a value in range; without customer data at most five messages and no ratio message |
| Validation.MessagesDistinct | src/lambdas/validation/index.ts:29-69 | different checks push different messages |
| Validation.AmountOverLimitScenario | src/lambdas/validation/index.ts:37-42 | an amount of 2,000,000 with all else in order gives exactly the over-limit message |
| Validation.ReferencePayment | src/lambdas/validation/index.ts:64 | the payment estimate is NaN when the amount or the term is missing and finite for a non-zero term |
| Validation.MonthlyPaymentRepays | src/lambdas/validation/index.ts:80-93 | paying calculateMonthlyPayment every month leaves nothing owed after `term` months (against `Balance`, month-by-month interest and payment) |
| Validation.EvenSplitRepays | src/lambdas/validation/index.ts:84-86 | at a zero rate, principal / term repays the loan in `term` months |
| Validation.AnnuityRepays | src/lambdas/validation/index.ts:88-92 | the annuity formula repays the loan in `term` months for a non-zero rate |
| Validation.BalanceAtZeroRate | src/lambdas/validation/index.ts:84-86 | at a zero rate the balance after k months is the principal less k payments |
| Validation.DebtToIncomeMeaning | src/lambdas/validation/index.ts:63-70 | for a positive income, the ratio check fails iff payment plus expenses exceed 43% of the monthly income |
| Validation.DebtToIncomeNeedsAmountAndTerm | src/lambdas/validation/index.ts:64-70 | without an amount or a term the ratio is NaN and the check never fires |
| Validation.ZeroTermOverflowsRatio | src/lambdas/validation/index.ts:44-70 | a zero term with a positive amount gives both the term message and the ratio message (division by zero gives Infinity) |
| Validation.PowAtLeastLinear | src/lambdas/validation/index.ts:90-91 | `n` months of growth at a non-negative rate `r` are at least `1 + n r` (Bernoulli's inequality) |
| Validation.ReferencePaymentAtMost | src/lambdas/validation/index.ts:64-93 | for a positive term the 5% payment estimate is finite and at most one month's interest plus `amount / term` |
| Validation.AffordableApplicationPasses | src/lambdas/validation/index.ts:16-77 | CUST456 (income 120,000, expenses 3,000) asking for 20,000 over 36 months for "Home Renovation" gets no validation error |
| CreditCheck.Rating | src/lambdas/credit-check/index.ts:33-43 | Excellent iff score ≥ 750, Good iff 700 ≤ score < 750, Fair iff 650 ≤ score < 700, Poor iff score < 650 |
| CreditCheck.RatingMonotone | src/lambdas/credit-check/index.ts:33-43 | a higher score never gives a worse rating |
| CreditCheck.RatingIsBestReached | src/lambdas/credit-check/index.ts:33-43 | the rating is the best whose threshold the score reaches |
| CreditCheck.Check | src/lambdas/credit-check/index.ts:11-52 | an error iff there is no customer data; otherwise the score, its rating, bankruptcy and loans copied from the profile, stamped with the current time |
| IncomeVerification.ExpenseRatio | src/lambdas/income-verification/index.ts:36-38 | for a non-zero income, expenses divided by the monthly income |
| IncomeVerification.Verify | src/lambdas/income-verification/index.ts:11-46 | an error iff there is no customer data; otherwise the given employment outcome, the profile's income and the ratio |
| IncomeVerification.RatioMeaning | src/lambdas/income-verification/index.ts:36-38 | for a positive income, ratio times monthly income is the expenses; the ratio is below 1 iff expenses are below the monthly income |
| IncomeVerification.ZeroIncomeRatio | src/lambdas/income-verification/index.ts:36-38 | a zero income gives +Infinity for positive expenses and NaN for none |
| JsNumber.Add | src/lambdas/risk-assessment/index.ts:31-50 | finite sums are exact; NaN absorbs |
| JsNumber.Scale | src/lambdas/risk-assessment/index.ts:37 | finite products are exact; NaN absorbs |
| JsNumber.Div | src/lambdas/risk-assessment/index.ts:28 | finite quotients by non-zero divisors are exact; NaN absorbs |
| JsNumber.Min | src/lambdas/risk-assessment/index.ts:53 | NaN iff the argument is NaN; a finite result is at most the bound |
| JsNumber.Max | src/lambdas/risk-assessment/index.ts:53 | NaN iff the argument is NaN; a finite result is at least the bound |
| JsNumber.ClampInRange | src/lambdas/risk-assessment/index.ts:53 | the clamp keeps NaN and puts anything else in [0, 100], leaving values already in range unchanged |
| JsNumber.RoundReal | src/lambdas/risk-assessment/index.ts:75 | Math.round: the integer within half of the value, halves upward |
| JsNumber.Round | src/lambdas/risk-assessment/index.ts:75 | finite iff its argument is, and then the rounded value |
| JsNumber.RoundRealMonotone | src/lambdas/risk-assessment/index.ts:75 | rounding keeps order |
| JsNumber.RoundRealOfInteger | src/lambdas/risk-assessment/index.ts:75 | integers round to themselves |
| JsNumber.Fixed2Real | src/lambdas/risk-assessment/index.ts:85 | Number(x.toFixed(2)) is within half a cent of x |
| JsNumber.Fixed2 | src/lambdas/risk-assessment/index.ts:85 | finite iff its argument is, and then the value to two decimals |
| JsNumber.Fixed2OfCents | src/lambdas/risk-assessment/index.ts:85 | a whole number of cents is unchanged |
| JsNumber.Fixed2Monotone | src/lambdas/risk-assessment/index.ts:85 | rounding to cents keeps order |
| JsNumber.ToWire | src/lambdas/risk-assessment/index.ts:61-65 | a returned number survives JSON iff it is finite; NaN and the infinities become `null` |
| RiskAssessment.Assess | src/lambdas/risk-assessment/index.ts:18-66 | the score is the clamped sum of the handler's terms; the amount and the rate are computed from that score |
| RiskAssessment.MaxLoanAmount | src/lambdas/risk-assessment/index.ts:68-76 | round(36 × monthly income × (100 − score) / 100) for a finite score; NaN for NaN |
| RiskAssessment.InterestRate | src/lambdas/risk-assessment/index.ts:78-86 | 5 + score / 100 × 15 to two decimals for a finite score; NaN for NaN |
| RiskAssessment.ScoreInRange | src/lambdas/risk-assessment/index.ts:28-53 | the score is NaN exactly when the expense ratio is; otherwise it lies in [0, 100] |
| RiskAssessment.RawScoreFormula | src/lambdas/risk-assessment/index.ts:26-50 | with expenses and a positive income, the unclamped score is the closed formula |
| RiskAssessment.ClampMonotone | src/lambdas/risk-assessment/index.ts:53 | clamping keeps order |
| RiskAssessment.ScoreMonotone | src/lambdas/risk-assessment/index.ts:33-45 | a better credit score, no bankruptcy and fewer loans never raise the score |
| RiskAssessment.UnverifiedNeverLowers | src/lambdas/risk-assessment/index.ts:47-50 | unverified employment never lowers the score |
| RiskAssessment.MaxLoanAmountBounds | src/lambdas/risk-assessment/index.ts:68-76 | the amount lies between 0 and 36 months of income; a score of 100 gives 0 |
| RiskAssessment.MaxLoanAmountMonotone | src/lambdas/risk-assessment/index.ts:68-76 | a riskier score never raises the amount |
| RiskAssessment.InterestRateBounds | src/lambdas/risk-assessment/index.ts:78-86 | the rate lies in [5, 20] |
| RiskAssessment.InterestRateMonotone | src/lambdas/risk-assessment/index.ts:78-86 | a riskier score never lowers the rate |
| RiskAssessment.NoExpensesNoNumbers | src/lambdas/risk-assessment/index.ts:27-28 | without `application.monthlyExpenses` the score, the amount and the rate are all NaN |
| LoanDecision.Decide | src/lambdas/loan-decision/index.ts:14-42 | approve iff the score is at most 80 and the amount at most the maximum; otherwise the matching rejection, with the fields the handler returns in each case |
| LoanDecision.DecisionShape | src/lambdas/loan-decision/index.ts:20-41 | an approval has a rate and no reason, a rejection a reason and no rate |
| LoanDecision.ApprovalMonotone | src/lambdas/loan-decision/index.ts:20-41 | asking for less or carrying less risk keeps an approval |
| LoanDecision.RiskRejectsAnyAmount | src/lambdas/loan-decision/index.ts:21-26 | a score above 80 rejects whatever the amount |
| LoanDecision.NullRiskDeclines | src/lambdas/loan-decision/index.ts:28-34 | with `null` risk numbers any positive amount is declined as above a `null` maximum |
| Notification.SelectDecision | src/lambdas/notification/index.ts:21-29 | `loanDecision.Payload` first, then `decision`; the error iff neither is present |
| Notification.Message | src/lambdas/notification/index.ts:48-50 | an approval begins with the congratulation, a rejection with the regret |
| Notification.ApprovalCarriesAmountAndRate | src/lambdas/notification/index.ts:49 | the approval message is the congratulation, the requested amount, then the interest rate; a given amount appears right after the congratulation |
| Notification.MessagesDiffer | src/lambdas/notification/index.ts:48-50 | an approval message never equals a rejection message |
| Notification.DeclineCarriesReason | src/lambdas/notification/index.ts:50 | the rejection message ends in the reason |
| Notification.Notify | src/lambdas/notification/index.ts:15-63 | the missing-decision error comes before any send; a failed send, or an event with no application, raises the send failure; it succeeds exactly when a decision is present, the send succeeds and the application is present, and then reports `sent` on both channels |
| LoanTypes.ToLoanStatus | src/lambdas/loan-history/index.ts:88-90 | a boolean status becomes Approved iff true; a named one is kept |
| LoanTypes.OrElse | src/lambdas/loan-history/index.ts:91-92 | an absent or empty string falls back, any other is kept |
| CustomerDataService.MergeOverridesExactlyPatched | src/lambdas/customer-data/index.ts:70-73 | a field the patch sets takes its value, every other keeps its own |
| CustomerDataService.MergeLaws | src/lambdas/customer-data/index.ts:70-73 | the empty patch changes nothing, a patch is idempotent, and two patches compose into one |
| CustomerDataService.ServeChangesOnlyOnUpdate | src/lambdas/customer-data/index.ts:48-85 | only a successful update changes the table, and only the requested customer's record, to the merged record it returns |
| CustomerDataService.ServeErrors | src/lambdas/customer-data/index.ts:53-84 | an unknown customer always gets not-found; a known one succeeds iff the action is `get` or an `update` with data |
| CustomerDataService.GetAfterUpdate | src/lambdas/customer-data/index.ts:62-78 | a `get` after an update reads the merged record |
| CustomerDataService.CustomerStore.constructor | src/lambdas/customer-data/index.ts:7-40 | the table starts with the two sample customers |
| CustomerDataService.CustomerStore.Handle | src/lambdas/customer-data/index.ts:48-85 | the new table and the response are those of `Serve` on the old table |
| LoanHistoryService.NewLoan | src/lambdas/loan-history/index.ts:82-95 | the record belongs to the requesting customer and keeps the request's loan id, amount, term, purpose, interest rate and reason |
| LoanHistoryService.ServeFrames | src/lambdas/loan-history/index.ts:68-71 | every call leaves the customer with a list and changes no other customer's |
| LoanHistoryService.ServeAppends | src/lambdas/loan-history/index.ts:73-108 | `add` appends exactly the new record at the end and returns the list; anything else leaves the list unchanged; the error for a bad request |
| LoanHistoryService.GetIsIdempotent | src/lambdas/loan-history/index.ts:74-79 | reading twice is reading once |
| LoanHistoryService.NewLoanFields | src/lambdas/loan-history/index.ts:88-92 | the status is converted; given dates are kept, missing or empty ones become today |
| LoanHistoryService.HistoryStore.constructor | src/lambdas/loan-history/index.ts:7-45 | the table starts with the sample histories |
| LoanHistoryService.HistoryStore.Handle | src/lambdas/loan-history/index.ts:63-109 | the new table and the response are those of `Serve` on the old table |
| LoanHistoryRetrieval.Retrieve | src/lambdas/loan-history-service/loan-history-retrieval/index.ts:56-103 | success iff the query answered or the customer is in the sample data; success always carries a list; the one failure is the fixed error |
| LoanHistoryRetrieval.AnsweredReturnsItems | src/lambdas/loan-history-service/loan-history-retrieval/index.ts:73-85 | an answered query returns its items, no items as the empty list |
| LoanHistoryRetrieval.FallbackAgreesWithInMemoryStore | src/lambdas/loan-history-service/loan-history-retrieval/index.ts:89-96 | a failed query for a sample customer returns what the in-memory history service answers to `get` at start |
| LoanHistoryRetrieval.OnlyFailure | src/lambdas/loan-history-service/loan-history-retrieval/index.ts:86-101 | the handler fails iff the query threw and the customer is not in the sample |
| LoanHistoryUpdate.Decimal | src/lambdas/loan-history-service/loan-history-update/index.ts:23 | the decimal rendering has at least one digit, at least two from 10 on |
| LoanHistoryUpdate.DecimalInjective | src/lambdas/loan-history-service/loan-history-update/index.ts:23 | different numbers render differently |
| LoanHistoryUpdate.LoanIdShape | src/lambdas/loan-history-service/loan-history-update/index.ts:23 | ids start with LOAN, and different instants give different ids |
| LoanHistoryUpdate.Record | src/lambdas/loan-history-service/loan-history-update/index.ts:22-30 | the item has the generated id, the customer, the `loanData`'s application id and amount and the converted status |
| LoanHistoryUpdate.RecordDates | src/lambdas/loan-history-service/loan-history-update/index.ts:28-29 | given dates are kept, missing or empty ones become the current time |
| LoanHistoryUpdate.Update | src/lambdas/loan-history-service/loan-history-update/index.ts:19-54 | 200 with the item iff the request has `loanData` and the put succeeded; a missing `loanData` is 500 with the TypeError's message; a failed put is 500 with the error's message or the unknown-error text |
| Json.GetConcat | lib/orchestration-example-stack.ts:232 | reading a path `p + q` is reading `p`, then `q` |
| Json.Put | lib/orchestration-example-stack.ts:98 | a result path writes into an object only, adding its key |
| Json.PutThenGet | lib/orchestration-example-stack.ts:98 | after a write the key reads the result and every other key what it read before |
| Json.Wrapped | lib/orchestration-example-stack.ts:113 | the stored result reads back under `Payload` |
| Workflow.ExtractedApplication | lib/orchestration-example-stack.ts:106-115 | the extracted application carries the profile under `customerData` |
| Workflow.BranchInput | lib/orchestration-example-stack.ts:124-151 | both branch inputs have exactly the six selected fields |
| Workflow.Invoke | lib/orchestration-example-stack.ts:117-121 | no payload: a runtime error and no call; otherwise one call; a raised function is States.TaskFailed; a returned one is written under the result key |
| Workflow.TaskStep | lib/orchestration-example-stack.ts:117-121 | the state is recorded, the run moves to the next state or fails, and at most one call is added |
| Workflow.Choose | lib/orchestration-example-stack.ts:231-232 | the choice leads to the Parallel state, the rejection notice or a runtime error, without a call |
| Workflow.RunBranch | lib/orchestration-example-stack.ts:233-241 | a branch makes its call iff its input can be built |
| Workflow.Parallel | lib/orchestration-example-stack.ts:233-242 | the Parallel state moves to Prepare Risk Assessment or fails, keeping earlier calls |
| Workflow.PassStep | lib/orchestration-example-stack.ts:159-166 | a Pass state makes no call and moves on or fails with a runtime error |
| Workflow.NextLowersRank | lib/orchestration-example-stack.ts:228-261 | every transition moves forward in the definition |
| Workflow.Step | lib/orchestration-example-stack.ts:228-261 | one transition: the state is recorded, calls only grow, the successor is the `.next`, the rejection notice or a failure |
| Workflow.Loop | lib/orchestration-example-stack.ts:228-261 | every execution ends in a terminal state, extending its trace and calls |
| WorkflowRuns.RunOrder | lib/orchestration-example-stack.ts:228-261 | every run walks a prefix of the valid or the invalid path; a successful one walks one of them entirely; Notify Error is never visited |
| WorkflowRuns.RunNotifies | lib/orchestration-example-stack.ts:228-261 | a successful run sends exactly one notification; a failed one at most one, and one only when the notification itself failed |
| WorkflowSteps.ChoiceRoutes | lib/orchestration-example-stack.ts:231-232 | `isValid` true iff to the Parallel state; another value iff to the rejection notice; missing iff a runtime error; data and calls unchanged |
| WorkflowSteps.ValidationFailureNotice | lib/orchestration-example-stack.ts:249-258 | the notice is built iff there is a first error; it carries the whole state as the application and that error as the reason of a rejection |
| WorkflowSteps.ParallelJoin | lib/orchestration-example-stack.ts:233-242 | the join succeeds iff both functions return; both are called with the same input, credit first; the output lists each branch input with its own result |
| WorkflowSteps.RiskInputFromBranches | lib/orchestration-example-stack.ts:159-166 | the risk input takes the credit result from the first branch and the income result from the second; as deployed the application is the first branch's output |
| WorkflowSteps.CorrectedRiskInputCarriesExpenses | lib/orchestration-example-stack.ts:159-166 | with the corrected wiring the application carries the profile's monthly expenses and otherwise the first branch's fields |
| WorkflowSteps.TaskWritesOwnResult | lib/orchestration-example-stack.ts:168-172 | a task that moves on made one call with its payload, wrote the result under its key and left every other field unchanged |
| WorkflowSteps.TaskOutcome | lib/orchestration-example-stack.ts:189-206 | a task whose payload cannot be built fails with a runtime error; one whose function returns moves on |
| WorkflowSteps.ResultKeysDistinct | lib/orchestration-example-stack.ts:208-217 | different tasks write under different keys, except the notification tasks |
| WorkflowSteps.UpdateLoanDataShape | lib/orchestration-example-stack.ts:196-204 | the loan id is the application id, the status the decision's `approved`, the amount the application's; no `applicationId` is sent |
| WorkflowSteps.UpdatePayloadShape | lib/orchestration-example-stack.ts:193-205 | the update is an `add` for the application's customer with that loan data |
| WorkflowSteps.DeployedUpdateNeedsDecisionFields | lib/orchestration-example-stack.ts:201-203 | as deployed, the request can be built only when the decision has a `decisionDate` and a `reason` |
| WorkflowSteps.CorrectedUpdatePayload | lib/orchestration-example-stack.ts:193-205 | with the corrected wiring the request is built iff the application's fields and `approved` are present |
| WorkflowFindings.DeployedNeverNotifiesDecisions | lib/orchestration-example-stack.ts:201-203 | as deployed, when the decision function returns no `decisionDate`, no run reaches Send Notification, and only rejections of invalid applications succeed |
| WorkflowFindings.ProfileIsStored | src/lambdas/customer-data/index.ts:8-23 | the stubbed profile is the JSON of the stored CUST456 record, all fourteen fields |
| WorkflowFindings.SampleRiskNumbers | src/lambdas/risk-assessment/index.ts:27-85 | for the sample (score 720, one outstanding loan, verified income 120,000, expenses 3,000) the risk score is 58, the maximum 151,200 and the rate 13.7; without the expenses the score is NaN |
| WorkflowFindings.SampleDecisions | src/lambdas/loan-decision/index.ts:20-41 | 20,000 against those numbers is approved with maximum 151,200 at 13.7; against `null` numbers it is declined as above the maximum |
| WorkflowFindings.FetchStep | lib/orchestration-example-stack.ts:96-103 | for the sample application (CUST456 asking for 20,000 over 36 months, with each function returning what its handler returns under the corrected wiring, timestamps and the update's response body aside; the profile is the full stored record), Fetch Customer Data moves on with the profile stored |
| WorkflowFindings.ExtractStep | lib/orchestration-example-stack.ts:106-115 | Extract Customer Data moves on with the extracted application |
| WorkflowFindings.ValidateStep | lib/orchestration-example-stack.ts:117-121 | Validate Application moves on with the validation stored |
| WorkflowFindings.ChoiceStep | lib/orchestration-example-stack.ts:231-232 | the valid application goes to the Parallel state |
| WorkflowFindings.ParallelStep | lib/orchestration-example-stack.ts:233-242 | the Parallel state joins both results |
| WorkflowFindings.PrepareRiskStep | lib/orchestration-example-stack.ts:160-166 | Prepare Risk Assessment builds the risk input of each wiring |
| WorkflowFindings.AssessStep | lib/orchestration-example-stack.ts:168-172 | Assess Risk moves on with the assessment stored |
| WorkflowFindings.RetrieveStep | lib/orchestration-example-stack.ts:181-187 | Retrieve Loan History moves on with the history stored |
| WorkflowFindings.DecideStep | lib/orchestration-example-stack.ts:174-178 | Make Loan Decision moves on to Update Loan History with the approval stored |
| WorkflowFindings.ApplicationField | lib/orchestration-example-stack.ts:194-200 | the application's fields read the same in every later state |
| WorkflowFindings.DecisionFields | lib/orchestration-example-stack.ts:201-202 | at Update Loan History the decision is approved and has no `decisionDate` |
| WorkflowFindings.DeployedUpdateFailsUndated | lib/orchestration-example-stack.ts:190-205 | as deployed, Update Loan History fails with a runtime error on any state whose decision has no `decisionDate` |
| WorkflowFindings.DeployedUpdateStep | lib/orchestration-example-stack.ts:201-203 | as deployed, Update Loan History then fails with a runtime error |
| WorkflowFindings.CorrectedPayloadBuilt | lib/orchestration-example-stack.ts:193-205 | with the corrected wiring the update request is built for it |
| WorkflowFindings.CorrectedUpdateStep | lib/orchestration-example-stack.ts:189-206 | with the corrected wiring, an update whose request can be built moves on to Send Notification |
| WorkflowFindings.DeployedRiskNeverSeesExpenses | lib/orchestration-example-stack.ts:162 | as deployed, whatever the functions return, no call to the risk function has `application.monthlyExpenses` |
| WorkflowFindings.MissingExpensesDeclineEveryLoan | src/lambdas/loan-decision/index.ts:28-34 | the risk results for an application without expenses reach the decision as `null`, and every positive amount is declined |

## Left out

- Floating point: amounts, incomes, expenses and rates are exact reals. Rounding error and −0 are not modelled. NaN and ±Infinity are modelled where they arise from a missing operand or from a division by zero, but not from overflow.
- `term`, `creditScore` and `outstandingLoans` are integers in the model, while the source types them as `number`. A fractional value, such as a term of 36.5 that passes validation and reaches `Math.pow` with a fractional exponent, cannot be expressed.
- Validation.ReferencePayment: it uses an exact power, so `Math.pow` overflowing to Infinity for a huge term (from about 170,800 months at 5%) is not modelled. There the source's payment is NaN and its 43% check stays silent, while the model can still add the 43% message next to the term message.
- LoanHistoryUpdate.Record: one `nowIso` fills both missing dates, while the source reads the clock once per date, so the two defaults can differ by the time between the reads.
- LoanHistoryUpdate.Update: the message for a missing `loanData` is Node.js's TypeError text, held in a constant; other JavaScript engines word it differently.
- LoanHistoryService.NewLoan: one `today` fills both missing dates, while the source reads the clock once per date, so the two defaults can differ across midnight.
- Values of the wrong JSON type (a string amount, say), JavaScript truthiness of such values, and inherited object keys are not modelled. Absent fields are `Option`s.
- `console.log` output, and the message text's rendering of numbers, which is the parameter `show` in `Notification.Message`, are left out.
- Delays (`setTimeout`) are left out. `Math.random` is a parameter: `employmentVerified` in `IncomeVerification.Verify`, `sendSucceeds` in `Notification.Notify`.
- The clock is a parameter: `now`, `today`, `nowMillis` and `nowIso`.
- DynamoDB is left out. The query and the put are the parameters `QueryOutcome` and `PutOutcome`.
- The update handler's response body is kept as fields, not as the `JSON.stringify` text.
- The Parallel state's branches run one after the other here, credit check first; real concurrency is left out.
- The state machine's timeout, tracing and IAM policy, and the stack output, are not modelled.
- A Lambda result keeps only its `Payload`; the other invocation metadata is dropped.
- Workflow.Invoke: the retries every `LambdaInvoke` gets by default (`retryOnServiceExceptions`: up to six attempts, for `Lambda.ServiceException`, `Lambda.AWSLambdaException`, `Lambda.SdkClientException` and `Lambda.ClientExecutionTimeoutException`) are not modelled. `Raised` stands for a function error, which is not retried. Under a retried service error a function, the notification included, may run more than once, while the model makes exactly one call per task.
- The infrastructure (`lib/orchestration-example-stack.ts:1-92`, `lib/loan-history-service-stack.ts`) and the table-population script are not part of this model.
- Notify Error (`lib/orchestration-example-stack.ts:215-225`) is modelled as a state but is attached to no transition, as in the source. `WorkflowRuns.RunOrder` proves it is never visited.
- The handlers are modelled on typed events and the workflow on JSON. Decoding one into the other is not modelled; `WorkflowFindings.MissingExpensesDeclineEveryLoan` makes the link on the typed side.
- The in-memory history service returns the very array it later appends to. The model returns a copy of the list, so that aliasing is not modelled.
- The services' module-level tables are one object each. Several Lambda containers with separate tables are not modelled.
- The sample's function results leave out the timestamps the handlers add (`lastUpdated`, `verificationDate`, and so on) and the update handler's response body. The history stub is the answer of a table with no items for the customer.
- The sample application's run is shown state by state (`WorkflowFindings.FetchStep` … `DecideStep`, then `DeployedUpdateStep` or `CorrectedUpdateStep`). There is no single lemma about its whole `Run`; the solver could not check one within its budget.

## Findings

| source | as written | input that shows it | evidently intended | confidence | as-written member | corrected member |
|---|---|---|---|---|---|---|
| lib/orchestration-example-stack.ts:202 | Update Loan History reads `$.loanDecision.Payload.decisionDate`. The decision function never returns that field, and returns no `reason` on approval (line 203). So building the request is a `States.Runtime` error. | any application that passes validation, e.g. CUST456 asking for 20,000 over 36 months (`Validation.AffordableApplicationPasses`) | the update is recorded and the run goes on to Send Notification. The update handler already defaults a missing date, and it ignores `reason`. The stored item still lacks the application id, because the request sends it as `loanId` (line 197) while the handler reads `loanData.applicationId` (`WorkflowSteps.UpdateLoanDataShape`). | not executed | WorkflowFindings.DeployedNeverNotifiesDecisions | WorkflowFindings.CorrectedUpdateStep |
| lib/orchestration-example-stack.ts:162 | Prepare Risk Assessment passes `$[0]`, the first branch's output, as the application. That output has no `monthlyExpenses`, so the risk function's ratio, score, maximum and rate are NaN. JSON turns them into `null`, and the decision declines every positive amount. | any application that passes validation, e.g. CUST456 asking for 20,000 over 36 months: with the expenses it would be approved at 13.7%, with the `null`s it is declined (`WorkflowFindings.SampleDecisions`) | the risk function sees the applicant's monthly expenses, taken from `customerData.monthlyExpenses` | not executed | WorkflowFindings.DeployedRiskNeverSeesExpenses | WorkflowSteps.CorrectedRiskInputCarriesExpenses |
