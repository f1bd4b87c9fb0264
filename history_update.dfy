/** The history update handler
    (src/lambdas/loan-history-service/loan-history-update/index.ts): it
    builds a record with a time-based id, puts it into the table, and
    answers 200 with the record or 500 with the error. The clock and the
    put's outcome are parameters. */
module LoanHistoryUpdate {
  import opened Wrappers
  import opened LoanTypes

  /** The request's `loanData`, as far as the handler reads it. */
  datatype UpdateLoanData = UpdateLoanData(
    applicationId: Option<string>,
    amount: Option<real>,
    status: StatusInput,
    applicationDate: Option<string>,
    decisionDate: Option<string>)

  /** A request without `loanData` makes the record's first read of it
      throw a TypeError inside the `try`. */
  datatype UpdateEvent = UpdateEvent(customerId: Option<string>, loanData: Option<UpdateLoanData>)

  /** The item written to the table. Fields the request lacks stay absent. */
  datatype StoredLoan = StoredLoan(
    loanId: string,
    customerId: Option<string>,
    applicationId: Option<string>,
    amount: Option<real>,
    status: LoanStatus,
    applicationDate: string,
    decisionDate: string)

  /** The put's outcome; a failure carries the thrown error's message, or
      none when what was thrown is not an `Error`. */
  datatype PutOutcome = Stored | PutFailed(message: Option<string>)

  /** The response; the handler serialises the body, which is left
      structured here. */
  datatype UpdateResponse = UpdateResponse(
    statusCode: int,
    message: string,
    loanHistory: Option<StoredLoan>,
    error: Option<string>)

  const Updated: string := "Loan history updated successfully"
  const UpdateFailed: string := "Error updating loan history"
  const UnknownError: string := "Unknown error occurred"
  /** The TypeError's message when `loanData` is missing, as Node.js words it. */
  const MissingLoanData: string := "Cannot read properties of undefined (reading 'applicationId')"

  function DigitChar(d: nat): char
    requires d < 10
  {
    "0123456789"[d]
  }

  /** The decimal rendering of a natural number, as template literals
      print it. Its length facts are the ones `DecimalInjective` needs. */
  function Decimal(n: nat): (s: string)
    ensures |s| >= 1
    ensures n >= 10 ==> |s| >= 2
    decreases n
  {
    if n < 10 then [DigitChar(n)] else Decimal(n / 10) + [DigitChar(n % 10)]
  }

  lemma DigitCharInjective(a: nat, b: nat)
    requires a < 10 && b < 10 && DigitChar(a) == DigitChar(b)
    ensures a == b
  {
  }

  /** Different numbers render differently. */
  lemma {:induction false} DecimalInjective(a: nat, b: nat)
    requires Decimal(a) == Decimal(b)
    ensures a == b
    decreases a
  {
    var s := Decimal(a);
    assert s[|s| - 1] == DigitChar(a % 10);
    assert s[|s| - 1] == DigitChar(b % 10);
    DigitCharInjective(a % 10, b % 10);
    if a >= 10 && b >= 10 {
      assert Decimal(a / 10) == s[..|s| - 1] == Decimal(b / 10);
      DecimalInjective(a / 10, b / 10);
    }
  }

  /** `LOAN${Date.now()}`. */
  function LoanId(nowMillis: nat): string
  {
    "LOAN" + Decimal(nowMillis)
  }

  /** Ids start with LOAN, and ids from different instants differ. */
  lemma LoanIdShape(t1: nat, t2: nat)
    ensures "LOAN" <= LoanId(t1)
    ensures t1 != t2 ==> LoanId(t1) != LoanId(t2)
  {
    if LoanId(t1) == LoanId(t2) {
      assert Decimal(t1) == LoanId(t1)[4..] == LoanId(t2)[4..] == Decimal(t2);
      DecimalInjective(t1, t2);
    }
  }

  /** The record: the customer, application id and amount copied, the
      status converted, missing or empty dates set to `nowIso`. */
  function Record(customerId: Option<string>, d: UpdateLoanData, nowMillis: nat, nowIso: string): (l: StoredLoan)
    ensures l.loanId == LoanId(nowMillis)
    ensures l.customerId == customerId && l.applicationId == d.applicationId
    ensures l.amount == d.amount
    ensures l.status == ToLoanStatus(d.status)
  {
    StoredLoan(LoanId(nowMillis), customerId, d.applicationId, d.amount, ToLoanStatus(d.status),
               OrElse(d.applicationDate, nowIso), OrElse(d.decisionDate, nowIso))
  }

  /** The handler: a missing `loanData` fails before the put; otherwise the
      put's outcome picks the answer. A failure is reported, not raised. */
  function Update(e: UpdateEvent, nowMillis: nat, nowIso: string, put: PutOutcome): (r: UpdateResponse)
    ensures r.statusCode == 200 <==> e.loanData.Some? && put == Stored
    ensures r.statusCode == 200 || r.statusCode == 500
    ensures e.loanData.None? ==> r == UpdateResponse(500, UpdateFailed, None, Some(MissingLoanData))
    ensures e.loanData.Some? && put == Stored ==>
              r == UpdateResponse(200, Updated, Some(Record(e.customerId, e.loanData.value, nowMillis, nowIso)), None)
    ensures e.loanData.Some? && put.PutFailed? ==>
              r == UpdateResponse(500, UpdateFailed, None,
                                  Some(if put.message.Some? then put.message.value else UnknownError))
  {
    match e.loanData
    case None => UpdateResponse(500, UpdateFailed, None, Some(MissingLoanData))
    case Some(d) =>
      var record := Record(e.customerId, d, nowMillis, nowIso);
      match put
      case Stored => UpdateResponse(200, Updated, Some(record), None)
      case PutFailed(m) =>
        UpdateResponse(500, UpdateFailed, None, Some(if m.Some? then m.value else UnknownError))
  }

  /** Dates the request gives are kept; missing or empty ones are the
      current time. */
  lemma RecordDates(customerId: Option<string>, d: UpdateLoanData, nowMillis: nat, nowIso: string)
    ensures d.decisionDate == None || d.decisionDate == Some("") ==>
              Record(customerId, d, nowMillis, nowIso).decisionDate == nowIso
    ensures d.applicationDate == None || d.applicationDate == Some("") ==>
              Record(customerId, d, nowMillis, nowIso).applicationDate == nowIso
    ensures d.decisionDate.Some? && d.decisionDate.value != "" ==>
              Record(customerId, d, nowMillis, nowIso).decisionDate == d.decisionDate.value
    ensures d.applicationDate.Some? && d.applicationDate.value != "" ==>
              Record(customerId, d, nowMillis, nowIso).applicationDate == d.applicationDate.value
  {
  }
}
