/** The customer-data service (src/lambdas/customer-data/index.ts): an
    in-memory table of customer profiles, read by `get` and partially
    overwritten by `update`. */
module CustomerDataService {
  import opened Wrappers
  import opened LoanTypes

  /** `Partial<CustomerData>`: the fields an update sets. */
  datatype CustomerPatch = CustomerPatch(
    customerId: Option<string>,
    firstName: Option<string>,
    lastName: Option<string>,
    email: Option<string>,
    phone: Option<string>,
    address: Option<string>,
    dateOfBirth: Option<string>,
    ssn: Option<string>,
    employmentStatus: Option<string>,
    annualIncome: Option<real>,
    monthlyExpenses: Option<real>,
    creditScore: Option<int>,
    hasBankruptcy: Option<bool>,
    outstandingLoans: Option<int>)

  const EmptyPatch: CustomerPatch :=
    CustomerPatch(None, None, None, None, None, None, None, None, None, None, None, None, None, None)

  function Pick<T>(update: Option<T>, current: T): T
  {
    if update.Some? then update.value else current
  }

  /** `{ ...current, ...patch }`. */
  function Merge(c: CustomerData, p: CustomerPatch): CustomerData
  {
    CustomerData(
      Pick(p.customerId, c.customerId), Pick(p.firstName, c.firstName),
      Pick(p.lastName, c.lastName), Pick(p.email, c.email), Pick(p.phone, c.phone),
      Pick(p.address, c.address), Pick(p.dateOfBirth, c.dateOfBirth), Pick(p.ssn, c.ssn),
      Pick(p.employmentStatus, c.employmentStatus), Pick(p.annualIncome, c.annualIncome),
      Pick(p.monthlyExpenses, c.monthlyExpenses), Pick(p.creditScore, c.creditScore),
      Pick(p.hasBankruptcy, c.hasBankruptcy), Pick(p.outstandingLoans, c.outstandingLoans))
  }

  function Later<T>(first: Option<T>, second: Option<T>): Option<T>
  {
    if second.Some? then second else first
  }

  /** The patch that sets what `q` sets and otherwise what `p` sets. */
  function Then(p: CustomerPatch, q: CustomerPatch): CustomerPatch
  {
    CustomerPatch(
      Later(p.customerId, q.customerId), Later(p.firstName, q.firstName),
      Later(p.lastName, q.lastName), Later(p.email, q.email), Later(p.phone, q.phone),
      Later(p.address, q.address), Later(p.dateOfBirth, q.dateOfBirth), Later(p.ssn, q.ssn),
      Later(p.employmentStatus, q.employmentStatus), Later(p.annualIncome, q.annualIncome),
      Later(p.monthlyExpenses, q.monthlyExpenses), Later(p.creditScore, q.creditScore),
      Later(p.hasBankruptcy, q.hasBankruptcy), Later(p.outstandingLoans, q.outstandingLoans))
  }

  /** A field the patch sets takes the patch's value; every other field
      keeps its value. */
  lemma MergeOverridesExactlyPatched(c: CustomerData, p: CustomerPatch)
    ensures Merge(c, p).firstName == (if p.firstName.Some? then p.firstName.value else c.firstName)
    ensures Merge(c, p).lastName == (if p.lastName.Some? then p.lastName.value else c.lastName)
    ensures Merge(c, p).email == (if p.email.Some? then p.email.value else c.email)
    ensures Merge(c, p).phone == (if p.phone.Some? then p.phone.value else c.phone)
    ensures Merge(c, p).address == (if p.address.Some? then p.address.value else c.address)
    ensures Merge(c, p).dateOfBirth == (if p.dateOfBirth.Some? then p.dateOfBirth.value else c.dateOfBirth)
    ensures Merge(c, p).ssn == (if p.ssn.Some? then p.ssn.value else c.ssn)
    ensures Merge(c, p).employmentStatus == (if p.employmentStatus.Some? then p.employmentStatus.value else c.employmentStatus)
    ensures Merge(c, p).annualIncome == (if p.annualIncome.Some? then p.annualIncome.value else c.annualIncome)
    ensures Merge(c, p).monthlyExpenses == (if p.monthlyExpenses.Some? then p.monthlyExpenses.value else c.monthlyExpenses)
    ensures Merge(c, p).creditScore == (if p.creditScore.Some? then p.creditScore.value else c.creditScore)
    ensures Merge(c, p).hasBankruptcy == (if p.hasBankruptcy.Some? then p.hasBankruptcy.value else c.hasBankruptcy)
    ensures Merge(c, p).outstandingLoans == (if p.outstandingLoans.Some? then p.outstandingLoans.value else c.outstandingLoans)
    ensures Merge(c, p).customerId == (if p.customerId.Some? then p.customerId.value else c.customerId)
  {
  }

  /** An empty patch changes nothing, applying a patch twice is applying
      it once, and two patches in turn are one combined patch. */
  lemma MergeLaws(c: CustomerData, p: CustomerPatch, q: CustomerPatch)
    ensures Merge(c, EmptyPatch) == c
    ensures Merge(Merge(c, p), p) == Merge(c, p)
    ensures Merge(Merge(c, p), q) == Merge(c, Then(p, q))
  {
  }

  function NotFound(customerId: string): string
  {
    "Customer with ID " + customerId + " not found"
  }

  const InvalidRequest: string := "Invalid action or missing data for update"

  /** The handler on a table value: the new table and the response. An
      unknown customer is rejected before the action is looked at. */
  function Serve(db: map<string, CustomerData>, customerId: string, action: string, data: Option<CustomerPatch>)
    : (map<string, CustomerData>, CustomerDataResult)
  {
    if customerId !in db then
      (db, CustomerDataResult(false, None, Some(NotFound(customerId))))
    else if action == "get" then
      (db, CustomerDataResult(true, Some(db[customerId]), None))
    else if action == "update" && data.Some? then
      var updated := Merge(db[customerId], data.value);
      (db[customerId := updated], CustomerDataResult(true, Some(updated), None))
    else
      (db, CustomerDataResult(false, None, Some(InvalidRequest)))
  }

  /** Only a successful update changes the table, and it changes only the
      requested customer's record, to the merged record it returns. */
  lemma ServeChangesOnlyOnUpdate(db: map<string, CustomerData>, customerId: string, action: string,
                                 data: Option<CustomerPatch>)
    ensures var (db', r) := Serve(db, customerId, action, data);
      && db'.Keys == db.Keys
      && (forall k :: k in db && k != customerId ==> db'[k] == db[k])
      && (db' != db ==> action == "update" && data.Some? && customerId in db)
      && (r.success && action == "update" ==> db' == db[customerId := Merge(db[customerId], data.value)])
      && (r.success ==> r.customerData == Some(db'[customerId]) && r.error.None?)
  {
  }

  /** An unknown customer always gets the not-found error, whatever the
      action; a known one gets an error only for a bad request. */
  lemma ServeErrors(db: map<string, CustomerData>, customerId: string, action: string,
                    data: Option<CustomerPatch>)
    ensures var r := Serve(db, customerId, action, data).1;
      && (customerId !in db ==> r == CustomerDataResult(false, None, Some(NotFound(customerId))))
      && (customerId in db ==>
            (r.success <==> action == "get" || (action == "update" && data.Some?)))
      && (customerId in db && !r.success ==> r.error == Some(InvalidRequest))
  {
  }

  /** A `get` after an update reads the merged record. */
  lemma GetAfterUpdate(db: map<string, CustomerData>, customerId: string, p: CustomerPatch)
    requires customerId in db
    ensures var db' := Serve(db, customerId, "update", Some(p)).0;
      Serve(db', customerId, "get", None).1.customerData == Some(Merge(db[customerId], p))
  {
  }

  function SampleCustomers(): map<string, CustomerData>
  {
    map[
      "CUST456" := CustomerData("CUST456", "John", "Doe", "john.doe@example.com", "+1-555-123-4567",
                                "123 Main St, Anytown, USA", "1980-05-15", "XXX-XX-1234", "Full-time",
                                120000.0, 3000.0, 720, false, 1),
      "CUST789" := CustomerData("CUST789", "Jane", "Smith", "jane.smith@example.com", "+1-555-987-6543",
                                "456 Oak Ave, Somewhere, USA", "1975-10-22", "XXX-XX-5678", "Self-employed",
                                95000.0, 2500.0, 680, false, 2)
    ]
  }

  /** The module-level table and the handler that reads and updates it. */
  class CustomerStore {
    var db: map<string, CustomerData>

    constructor()
      ensures db == SampleCustomers()
    {
      db := SampleCustomers();
    }

    method Handle(customerId: string, action: string, data: Option<CustomerPatch>)
      returns (r: CustomerDataResult)
      modifies this
      ensures (db, r) == Serve(old(db), customerId, action, data)
    {
      if customerId !in db {
        return CustomerDataResult(false, None, Some(NotFound(customerId)));
      }
      if action == "get" {
        r := CustomerDataResult(true, Some(db[customerId]), None);
      } else if action == "update" && data.Some? {
        db := db[customerId := Merge(db[customerId], data.value)];
        r := CustomerDataResult(true, Some(db[customerId]), None);
      } else {
        r := CustomerDataResult(false, None, Some(InvalidRequest));
      }
    }
  }
}
