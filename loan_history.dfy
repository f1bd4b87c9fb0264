/** The in-memory loan-history service (src/lambdas/loan-history/index.ts):
    a table from customer to the list of their loans; `get` reads a list,
    `add` appends a record built from the request. Every call first gives
    an unknown customer an empty list. */
module LoanHistoryService {
  import opened Wrappers
  import opened LoanTypes

  /** The request's `loanData`. */
  datatype LoanData = LoanData(
    loanId: string,
    amount: real,
    term: int,
    purpose: string,
    status: StatusInput,
    applicationDate: Option<string>,
    decisionDate: Option<string>,
    interestRate: Option<real>,
    reason: Option<string>)

  const InvalidRequest: string := "Invalid action or missing loan data for add action"

  /** The record `add` appends. `today` is the current date (the part of
      the ISO timestamp before `T`), used for missing or empty dates. */
  function NewLoan(customerId: string, d: LoanData, today: string): (l: LoanHistory)
    ensures l.customerId == customerId && l.loanId == d.loanId
    ensures l.amount == d.amount && l.term == d.term && l.purpose == d.purpose
    ensures l.interestRate == d.interestRate && l.reason == d.reason
  {
    LoanHistory(d.loanId, customerId, d.amount, d.term, d.purpose, ToLoanStatus(d.status),
                OrElse(d.applicationDate, today), OrElse(d.decisionDate, today),
                d.interestRate, d.reason)
  }

  /** A customer's list, empty when the customer has none yet. */
  function ListOf(db: map<string, seq<LoanHistory>>, customerId: string): seq<LoanHistory>
  {
    if customerId in db then db[customerId] else []
  }

  /** The handler on a table value: the new table and the response. */
  function Serve(db: map<string, seq<LoanHistory>>, customerId: string, action: string,
                 loanData: Option<LoanData>, today: string)
    : (map<string, seq<LoanHistory>>, LoanHistoryResult)
  {
    var list := ListOf(db, customerId);
    if action == "get" then
      (db[customerId := list], LoanHistoryResult(true, Some(list), None))
    else if action == "add" && loanData.Some? then
      var list' := list + [NewLoan(customerId, loanData.value, today)];
      (db[customerId := list'], LoanHistoryResult(true, Some(list'), None))
    else
      (db[customerId := list], LoanHistoryResult(false, None, Some(InvalidRequest)))
  }

  /** Every call leaves the customer with a list and no other customer's
      list changes. */
  lemma ServeFrames(db: map<string, seq<LoanHistory>>, customerId: string, action: string,
                    loanData: Option<LoanData>, today: string)
    ensures var db' := Serve(db, customerId, action, loanData, today).0;
      && db'.Keys == db.Keys + {customerId}
      && (forall k :: k in db && k != customerId ==> db'[k] == db[k])
  {
  }

  /** `add` appends exactly one record at the end and returns the new list;
      anything else leaves the customer's list as it was. */
  lemma ServeAppends(db: map<string, seq<LoanHistory>>, customerId: string, action: string,
                     loanData: Option<LoanData>, today: string)
    ensures var (db', r) := Serve(db, customerId, action, loanData, today);
      var before := ListOf(db, customerId);
      var after := db'[customerId];
      && (action == "add" && loanData.Some? ==>
            |after| == |before| + 1 && after[..|before|] == before
            && after[|before|] == NewLoan(customerId, loanData.value, today)
            && r == LoanHistoryResult(true, Some(after), None))
      && (!(action == "add" && loanData.Some?) ==> after == before)
      && (action == "get" ==> r == LoanHistoryResult(true, Some(before), None))
      && (action != "get" && !(action == "add" && loanData.Some?) ==>
            r == LoanHistoryResult(false, None, Some(InvalidRequest)))
  {
    var (db', r) := Serve(db, customerId, action, loanData, today);
    var before := ListOf(db, customerId);
    if action == "add" && loanData.Some? {
      assert db'[customerId] == before + [NewLoan(customerId, loanData.value, today)];
    }
  }

  /** A `get` changes what the table holds for nobody: reading twice is
      reading once. */
  lemma GetIsIdempotent(db: map<string, seq<LoanHistory>>, customerId: string, today: string)
    ensures var (db1, r1) := Serve(db, customerId, "get", None, today);
      Serve(db1, customerId, "get", None, today) == (db1, r1)
  {
    var db1 := Serve(db, customerId, "get", None, today).0;
    assert db1[customerId := ListOf(db1, customerId)] == db1;
  }

  /** The record's status is the converted status; dates the request gives
      are kept and missing or empty ones become `today`. */
  lemma NewLoanFields(customerId: string, d: LoanData, today: string)
    ensures NewLoan(customerId, d, today).status == ToLoanStatus(d.status)
    ensures d.status == Flag(true) ==> NewLoan(customerId, d, today).status == Approved
    ensures d.status == Flag(false) ==> NewLoan(customerId, d, today).status == Rejected
    ensures d.applicationDate.Some? && d.applicationDate.value != "" ==>
              NewLoan(customerId, d, today).applicationDate == d.applicationDate.value
    ensures d.applicationDate == None || d.applicationDate == Some("") ==>
              NewLoan(customerId, d, today).applicationDate == today
    ensures d.decisionDate.Some? && d.decisionDate.value != "" ==>
              NewLoan(customerId, d, today).decisionDate == d.decisionDate.value
    ensures d.decisionDate == None || d.decisionDate == Some("") ==>
              NewLoan(customerId, d, today).decisionDate == today
  {
  }

  /** The module-level table and the handler that reads and extends it. */
  class HistoryStore {
    var db: map<string, seq<LoanHistory>>

    constructor()
      ensures db == SampleLoanHistory()
    {
      db := SampleLoanHistory();
    }

    method Handle(customerId: string, action: string, loanData: Option<LoanData>, today: string)
      returns (r: LoanHistoryResult)
      modifies this
      ensures (db, r) == Serve(old(db), customerId, action, loanData, today)
    {
      if customerId !in db {
        db := db[customerId := []];
      } else {
        assert db == db[customerId := ListOf(db, customerId)];
      }
      if action == "get" {
        r := LoanHistoryResult(true, Some(db[customerId]), None);
      } else if action == "add" && loanData.Some? {
        var newLoan := NewLoan(customerId, loanData.value, today);
        ghost var list' := ListOf(old(db), customerId) + [newLoan];
        db := db[customerId := db[customerId] + [newLoan]];
        assert db == old(db)[customerId := list'];
        r := LoanHistoryResult(true, Some(db[customerId]), None);
      } else {
        r := LoanHistoryResult(false, None, Some(InvalidRequest));
      }
    }
  }
}
