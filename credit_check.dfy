/** The credit check (src/lambdas/credit-check/index.ts): it rates the
    customer's stored credit score and passes the other credit facts
    through. The clock that stamps `lastUpdated` is a parameter. */
module CreditCheck {
  import opened Wrappers
  import opened LoanTypes

  datatype CreditCheckEvent = CreditCheckEvent(customerId: Option<string>, customerData: Option<CustomerData>)

  const MissingCustomerData: string := "Customer data is required for credit check"

  /** The rating bands: 750 and above, 700-749, 650-699, and below. */
  function Rating(score: int): (r: CreditRating)
    ensures r == Excellent <==> score >= 750
    ensures r == Good <==> 700 <= score < 750
    ensures r == Fair <==> 650 <= score < 700
    ensures r == Poor <==> score < 650
  {
    if score >= 750 then Excellent
    else if score >= 700 then Good
    else if score >= 650 then Fair
    else Poor
  }

  /** How good a rating is, Poor lowest. */
  function Standing(r: CreditRating): nat
  {
    match r
    case Poor => 0
    case Fair => 1
    case Good => 2
    case Excellent => 3
  }

  /** The lowest score that earns each rating. */
  function Threshold(r: CreditRating): int
  {
    match r
    case Poor => 0
    case Fair => 650
    case Good => 700
    case Excellent => 750
  }

  /** A higher score never gives a worse rating. */
  lemma RatingMonotone(s1: int, s2: int)
    requires s1 <= s2
    ensures Standing(Rating(s1)) <= Standing(Rating(s2))
  {
  }

  /** The rating is the best one whose threshold the score reaches. */
  lemma RatingIsBestReached(score: int, r: CreditRating)
    requires score >= 0
    ensures Threshold(Rating(score)) <= score
    ensures Threshold(r) <= score ==> Standing(r) <= Standing(Rating(score))
  {
  }

  /** The handler: no customer data is an error; otherwise the rating, the
      score, the bankruptcy flag and the outstanding loans, stamped with
      `now`. */
  function Check(event: CreditCheckEvent, now: string): (r: Result<CreditCheckResult, string>)
    ensures r.Err? <==> event.customerData.None?
    ensures r.Err? ==> r.error == MissingCustomerData
    ensures r.Ok? ==> var cd := event.customerData.value;
      && r.value.creditScore == cd.creditScore
      && r.value.hasBankruptcy == cd.hasBankruptcy
      && r.value.outstandingLoans == cd.outstandingLoans
      && r.value.creditRating == Rating(cd.creditScore)
      && r.value.lastUpdated == now
  {
    match event.customerData
    case None => Err(MissingCustomerData)
    case Some(cd) =>
      Ok(CreditCheckResult(cd.creditScore, Rating(cd.creditScore), cd.hasBankruptcy,
                           cd.outstandingLoans, now))
  }
}
