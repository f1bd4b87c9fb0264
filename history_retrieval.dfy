/** The history retrieval handler
    (src/lambdas/loan-history-service/loan-history-retrieval/index.ts): it
    returns the customer's items from the table query, and when the query
    fails it falls back to a built-in sample table. The query's outcome is a
    parameter. */
module LoanHistoryRetrieval {
  import opened Wrappers
  import opened LoanTypes
  import LoanHistoryService

  /** What the table query did: answered, with or without `Items`, or threw. */
  datatype QueryOutcome = Answered(items: Option<seq<LoanHistory>>) | QueryFailed

  const RetrievalFailed: string := "Failed to retrieve loan history"

  function Retrieve(customerId: string, q: QueryOutcome): (r: LoanHistoryResult)
    ensures r.success <==> q.Answered? || customerId in SampleLoanHistory()
    ensures r.success ==> r.loanHistory.Some? && r.error.None?
    ensures !r.success ==> r == LoanHistoryResult(false, None, Some(RetrievalFailed))
  {
    match q
    case Answered(items) =>
      if items.None? || |items.value| == 0 then LoanHistoryResult(true, Some([]), None)
      else LoanHistoryResult(true, Some(items.value), None)
    case QueryFailed =>
      if customerId in SampleLoanHistory() then
        LoanHistoryResult(true, Some(SampleLoanHistory()[customerId]), None)
      else LoanHistoryResult(false, None, Some(RetrievalFailed))
  }

  /** An answered query returns exactly its items, absent items as none. */
  lemma AnsweredReturnsItems(customerId: string, items: Option<seq<LoanHistory>>)
    ensures Retrieve(customerId, Answered(items)).loanHistory
            == Some(if items.Some? then items.value else [])
  {
  }

  /** A failed query for a sample customer answers with the same list the
      in-memory history service starts with for that customer. */
  lemma FallbackAgreesWithInMemoryStore(customerId: string, today: string)
    requires customerId in SampleLoanHistory()
    ensures Retrieve(customerId, QueryFailed)
            == LoanHistoryService.Serve(SampleLoanHistory(), customerId, "get", None, today).1
  {
  }

  /** The only failure: a failed query for a customer outside the sample. */
  lemma OnlyFailure(customerId: string, q: QueryOutcome)
    ensures !Retrieve(customerId, q).success <==> q == QueryFailed && customerId !in SampleLoanHistory()
  {
  }
}
