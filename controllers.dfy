/** The controllers the user interface calls: they fill in defaults on the
    objects they are given (dates, numbers, rates), delegate to the DAOs and
    turn row counts into booleans. Every operation that reads the clock
    takes `today`; an insert that fails is the `accepted = false` case. */
module Controllers {
  import opened Common
  import opened Billing
  import opened Store
  import opened Ledger
  import Numbering
  import Model
  import Reconciliation
  import opened Dao

  // ---------------------------------------------------------------- numbers

  /** A freshly minted invoice number is the number of no stored invoice. */
  lemma NextInvoiceNumberIsNew(t: Tables)
    ensures forall x :: x in t.invoices ==> x.invoiceNumber != Some(NextInvoiceNumber(t))
  {
    var n := NextInvoiceNumber(t);
    forall x | x in t.invoices
      ensures x.invoiceNumber != Some(n)
    {
      var i :| 0 <= i < |t.invoices| && t.invoices[i] == x;
      assert InvoiceNumbers(t)[i] == x.invoiceNumber;
    }
  }

  /** A freshly minted payment id is the id of no stored payment. */
  lemma NextPaymentIdIsNew(t: Tables)
    ensures forall p :: p in t.payments ==> p.paymentId != Some(NextPaymentId(t))
  {
    var n := NextPaymentId(t);
    forall p | p in t.payments
      ensures p.paymentId != Some(n)
    {
      var i :| 0 <= i < |t.payments| && t.payments[i] == p;
      assert PaymentIds(t)[i] == p.paymentId;
    }
  }

  // ---------------------------------------------------------------- invoices

  /** `controller.InvoiceController` */
  class InvoiceController {
    const db: Database
    const invoiceDao: InvoiceDao
    const paymentDao: PaymentDao

    constructor (db: Database)
      ensures this.db == db && Valid()
    {
      this.db := db;
      this.invoiceDao := new InvoiceDao(db);
      this.paymentDao := new PaymentDao(db);
    }

    /** Every DAO works on the same store. */
    predicate Valid()
    {
      invoiceDao.db == db && invoiceDao.Valid() && paymentDao.db == db && paymentDao.Valid()
    }

    /** `createInvoice`: a missing issue date becomes today and a missing
        due date the issue date plus 30 days; then the invoice is inserted.
        True exactly when the insert succeeded. */
    method CreateInvoice(inv: Model.Invoice, today: Date, accepted: bool) returns (ok: bool)
      requires Valid()
      modifies db, inv`issueDate, inv`dueDate, inv`id
      ensures inv.issueDate == if old(inv.issueDate).None? then Some(today) else old(inv.issueDate)
      ensures inv.dueDate == if old(inv.dueDate).None? then Some(PlusDays(inv.issueDate.value, 30)) else old(inv.dueDate)
      ensures old(inv.dueDate).None? ==> inv.issueDate.value < inv.dueDate.value
      ensures ok == accepted
      ensures db.State() == Ledger.CreateInvoice(old(db.State()), InvoiceRowOf(inv).(id := old(inv.id)), old(EntryIds(inv.timeEntries)), accepted).tables
    {
      FillInvoiceDates(inv, today);
      ghost var before := db.State();
      ghost var row, ids := InvoiceRowOf(inv), EntryIds(inv.timeEntries);
      assert before == old(db.State()) && row.id == old(inv.id);
      assert ids == old(EntryIds(inv.timeEntries));
      var rows := invoiceDao.CreateInvoice(inv, accepted);
      assert InvoiceRowOf(inv).(id := row.id) == row;
      assert db.State() == Ledger.CreateInvoice(before, row, ids, accepted).tables;
      ok := rows > 0;
    }

    /** `createInvoiceFromTimeEntries`: bills the case's unbilled entries
        under the next invoice number, which no stored invoice carries. */
    method CreateInvoiceFromTimeEntries(caseId: int, due: Option<Date>, today: Date, accepted: bool)
      returns (created: Option<InvoiceRow>)
      requires Valid()
      modifies db
      ensures Outcome(db.State(), created) == Bill(old(db.State()), caseId, Some(NextInvoiceNumber(old(db.State()))), due, today, accepted)
      ensures created.Some? ==> forall x :: x in old(db.invoices) ==> x.invoiceNumber != created.value.invoiceNumber
    {
      var number := NextInvoiceNumber(db.State());
      NextInvoiceNumberIsNew(db.State());
      created := invoiceDao.CreateInvoiceFromUnbilledTimeEntries(caseId, Some(number), due, today, accepted);
    }

    /** `deleteInvoice`: true exactly when the invoice existed and had no
        payment, in which case it is gone and its entries are unbilled. */
    method DeleteInvoice(id: int, today: Date) returns (ok: bool)
      requires Valid()
      modifies db`entries, db`invoices
      ensures ok <==> FindInvoice(old(db.invoices), id).Some? && PaymentsOfInvoice(old(db.payments), id) == []
      ensures db.State() == Ledger.DeleteInvoice(old(db.State()), id).tables
    {
      var rows := invoiceDao.DeleteInvoice(id, today);
      ok := rows > 0;
    }

    /** `recordPayment`: a payment without an id gets the next PMT id, one
        without a date gets today; the payment is inserted and, when that
        succeeded, the invoice's paid amount is recomputed once more. The
        second recomputation changes nothing. */
    method RecordPayment(p: Model.Payment, today: Date, accepted: bool) returns (ok: bool)
      requires Valid()
      modifies db, p`paymentId, p`paymentDate, p`id
      ensures p.paymentId == if HasText(old(p.paymentId)) then old(p.paymentId) else Some(NextPaymentId(old(db.State())))
      ensures !HasText(old(p.paymentId)) ==> forall q :: q in old(db.payments) ==> q.paymentId != p.paymentId
      ensures p.paymentDate == if old(p.paymentDate).None? then Some(today) else old(p.paymentDate)
      ensures ok == accepted
      ensures db.State() == Ledger.CreatePayment(old(db.State()), PaymentRowOf(p).(id := old(p.id)), today, accepted).tables
    {
      ghost var before := db.State();
      NextPaymentIdIsNew(before);
      FillPaymentDefaults(p, NextPaymentId(db.State()), today);
      ghost var row := PaymentRowOf(p);
      var rows := paymentDao.CreatePayment(p, today, accepted);
      assert PaymentRowOf(p).(id := row.id) == row;
      if rows > 0 {
        Reconciliation.UpdatePaidIdempotent(AddPayment(before, row), row.invoiceId, today);
        var _ := invoiceDao.UpdateInvoicePaidAmount(p.invoiceId, today);
        return true;
      }
      return false;
    }

    /** `deletePayment`: true exactly when the payment existed. */
    method DeletePayment(id: int, today: Date) returns (ok: bool)
      requires Valid()
      modifies db`payments, db`invoices
      ensures ok <==> FindPayment(old(db.payments), id).Some?
      ensures db.State() == Ledger.DeletePayment(old(db.State()), id, today).tables
    {
      var rows := paymentDao.DeletePayment(id, today);
      ok := rows > 0;
    }
  }

  /** The date defaults of `createInvoice`: a missing issue date becomes
      today and a missing due date the issue date plus 30 days. */
  method FillInvoiceDates(inv: Model.Invoice, today: Date)
    modifies inv`issueDate, inv`dueDate
    ensures inv.issueDate == if old(inv.issueDate).None? then Some(today) else old(inv.issueDate)
    ensures inv.dueDate == if old(inv.dueDate).None? then Some(PlusDays(inv.issueDate.value, 30)) else old(inv.dueDate)
  {
    if inv.issueDate.None? {
      inv.issueDate := Some(today);
    }
    if inv.dueDate.None? {
      inv.dueDate := Some(PlusDays(inv.issueDate.value, 30));
    }
  }

  /** The defaults of `recordPayment`: a missing or empty payment id
      becomes `nextId` and a missing date today. */
  method FillPaymentDefaults(p: Model.Payment, nextId: string, today: Date)
    modifies p`paymentId, p`paymentDate
    ensures p.paymentId == if HasText(old(p.paymentId)) then old(p.paymentId) else Some(nextId)
    ensures p.paymentDate == if old(p.paymentDate).None? then Some(today) else old(p.paymentDate)
  {
    if !HasText(p.paymentId) {
      p.paymentId := Some(nextId);
    }
    if p.paymentDate.None? {
      p.paymentDate := Some(today);
    }
  }

  /** `getPaymentMethods` */
  function PaymentMethods(): (r: seq<string>)
    ensures |r| == 7 && "Other" in r
    ensures forall i, j :: 0 <= i < j < |r| ==> r[i] != r[j]
  {
    ["Cash", "Check", "Credit Card", "Bank Transfer", "Wire Transfer", "PayPal", "Other"]
  }

  // ---------------------------------------------------------------- time entries

  /** The rate `createTimeEntry` stores: a missing rate is taken from the
      entry's attorney when it names one that exists. */
  function DefaultRate(rate: Option<Money>, attorneyId: int, atts: seq<AttorneyRow>): (r: Option<Money>)
    ensures rate.Some? ==> r == rate
    ensures r.Some? <==> rate.Some? || (attorneyId > 0 && FindAttorney(atts, attorneyId).Some?)
    ensures rate.None? && r.Some? ==> exists a :: a in atts && a.id == attorneyId && r.value == a.hourlyRate
  {
    if rate.None? && attorneyId > 0 then
      match FindAttorney(atts, attorneyId)
      case None => rate
      case Some(a) => Some(a.hourlyRate)
    else rate
  }

  /** Why `getCaseTimeEntries` and `getUnbilledTimeEntries` refuse a case. */
  datatype CaseError = InvalidCaseId(id: int) | CaseNotFound(id: int)

  datatype Result<T> = Success(value: T) | Failure(error: CaseError)

  /** `controller.TimeEntryController` */
  class TimeEntryController {
    const db: Database
    const timeEntryDao: TimeEntryDao

    constructor (db: Database)
      ensures this.db == db && Valid()
    {
      this.db := db;
      this.timeEntryDao := new TimeEntryDao(db);
    }

    predicate Valid()
    {
      timeEntryDao.db == db
    }

    /** `createTimeEntry`: a missing date becomes today and a missing rate
        the attorney's rate; then the entry is inserted. True exactly when
        the insert succeeded. */
    method CreateTimeEntry(e: Model.TimeEntry, today: Date, accepted: bool) returns (ok: bool)
      requires Valid()
      modifies db, e`entryDate, e`hourlyRate, e`id
      ensures e.entryDate == if old(e.entryDate).None? then Some(today) else old(e.entryDate)
      ensures e.hourlyRate == DefaultRate(old(e.hourlyRate), e.attorneyId, old(db.attorneys))
      ensures ok == accepted
      ensures db.State() == if accepted then AddEntry(old(db.State()), EntryRowOf(e).(id := old(e.id))) else old(db.State())
    {
      if e.entryDate.None? {
        e.entryDate := Some(today);
      }
      if e.hourlyRate.None? && e.attorneyId > 0 {
        var attorney := FindAttorney(db.attorneys, e.attorneyId);
        if attorney.Some? {
          e.hourlyRate := Some(attorney.value.hourlyRate);
        }
      }
      var rows := timeEntryDao.CreateTimeEntry(e, accepted);
      ok := rows > 0;
    }

    /** `updateTimeEntry`: true exactly when the entry has a date and a row
        with its id exists. */
    method UpdateTimeEntry(e: Model.TimeEntry) returns (ok: bool)
      requires Valid()
      modifies db`entries
      ensures ok <==> e.entryDate.Some? && exists r :: r in old(db.entries) && r.id == e.id
      ensures db.State() == if e.entryDate.Some? then old(db.State()).(entries := ReplaceEntry(old(db.entries), EntryRowOf(e))) else old(db.State())
    {
      var rows := timeEntryDao.UpdateTimeEntry(e);
      ok := rows > 0;
    }

    /** `markTimeEntryAsBilled`: true exactly when a row with the id exists. */
    method MarkTimeEntryAsBilled(id: int, invoice: int) returns (ok: bool)
      requires Valid()
      modifies db`entries
      ensures ok <==> exists r :: r in old(db.entries) && r.id == id
      ensures db.State() == old(db.State()).(entries := MarkBilled(old(db.entries), id, invoice))
    {
      var rows := timeEntryDao.MarkTimeEntryAsBilled(id, invoice);
      ok := rows > 0;
    }

    /** `getCaseTimeEntries`: refuses a non-positive or unknown case, and
        otherwise gives the case's entries. */
    function CaseTimeEntries(caseId: int): (r: Result<seq<EntryRow>>)
      reads db
      ensures caseId <= 0 ==> r == Failure(InvalidCaseId(caseId))
      ensures caseId > 0 && FindCase(db.cases, caseId).None? ==> r == Failure(CaseNotFound(caseId))
      ensures r.Success? <==> caseId > 0 && FindCase(db.cases, caseId).Some?
      ensures r.Success? ==> forall x :: x in r.value <==> x in db.entries && x.caseId == caseId
    {
      if caseId <= 0 then Failure(InvalidCaseId(caseId))
      else if FindCase(db.cases, caseId).None? then Failure(CaseNotFound(caseId))
      else Success(EntriesOfCase(db.entries, caseId))
    }

    /** `getUnbilledTimeEntries`: refuses a non-positive or unknown case,
        and otherwise gives the case's unbilled entries. */
    function UnbilledTimeEntries(caseId: int): (r: Result<seq<EntryRow>>)
      reads db
      ensures caseId <= 0 ==> r == Failure(InvalidCaseId(caseId))
      ensures caseId > 0 && FindCase(db.cases, caseId).None? ==> r == Failure(CaseNotFound(caseId))
      ensures r.Success? <==> caseId > 0 && FindCase(db.cases, caseId).Some?
      ensures r.Success? ==> forall x :: x in r.value <==> x in db.entries && x.caseId == caseId && !x.billed
    {
      if caseId <= 0 then Failure(InvalidCaseId(caseId))
      else if FindCase(db.cases, caseId).None? then Failure(CaseNotFound(caseId))
      else Success(UnbilledOfCase(db.entries, caseId))
    }
  }

  /** `getActivityCodes`: eleven distinct three-letter upper-case codes. */
  function ActivityCodes(): (r: seq<string>)
    ensures |r| == 11
    ensures forall i, j :: 0 <= i < j < |r| ==> r[i] != r[j]
    ensures forall c :: c in r ==> |c| == 3 && forall k :: 0 <= k < 3 ==> 'A' <= c[k] <= 'Z'
  {
    ["RES", "DRA", "REV", "COM", "MEE", "HEA", "TRI", "DEP", "TRA", "NEG", "OTH"]
  }
}
