/** The data access objects of the billing core: `TimeEntryDao`,
    `InvoiceDao` and `PaymentDao`, over one `Database`. Each statement-level
    step is a `Database` method; each DAO method is proved to change the
    store exactly as the matching `Ledger` function says. A statement that
    the database rejects is the `accepted = false` case of an insert; a
    null date written with `Date.valueOf` fails before any statement runs,
    which is the `None` case of the entry's or payment's date. */
module Dao {
  import opened Common
  import opened Billing
  import opened Store
  import opened Ledger
  import Model

  /** The `time_entries` row `createTimeEntry` and `updateTimeEntry` write
      for an entry: a missing rate stays NULL, and an invoice id that is not
      positive is written as NULL. */
  function EntryRowOf(e: Model.TimeEntry): (r: EntryRow)
    reads e
    requires e.entryDate.Some?
    ensures r.id == e.id && r.caseId == e.caseId && r.billed == e.billed && r.entryDate == e.entryDate.value
    ensures r.hourlyRate == e.hourlyRate && r.hours == e.hours
    ensures r.invoiceId.None? <==> e.invoiceId <= 0
    ensures r.invoiceId.Some? ==> r.invoiceId.value == e.invoiceId
    ensures LineAmount(r.hourlyRate, r.hours) == e.Amount()
  {
    EntryRow(e.id, e.entryId, e.caseId, e.attorneyId, e.entryDate.value, e.hours, e.description, e.activityCode,
             e.hourlyRate, e.billed, if e.invoiceId > 0 then Some(e.invoiceId) else None)
  }

  /** The `invoices` row `createInvoice` writes. */
  function InvoiceRowOf(inv: Model.Invoice): (r: InvoiceRow)
    reads inv
    requires inv.issueDate.Some? && inv.dueDate.Some?
    ensures r.id == inv.id && r.amount == inv.amount && r.amountPaid == inv.amountPaid && r.status == inv.status
    ensures r.issueDate == inv.issueDate.value && r.dueDate == inv.dueDate.value
  {
    InvoiceRow(inv.id, inv.invoiceNumber, inv.clientId, inv.caseId, inv.issueDate.value, inv.dueDate.value,
               inv.amount, inv.amountPaid, inv.status, inv.notes)
  }

  /** The `payments` row `createPayment` and `updatePayment` write. */
  function PaymentRowOf(p: Model.Payment): (r: PaymentRow)
    reads p
    requires p.paymentDate.Some?
    ensures r.id == p.id && r.invoiceId == p.invoiceId && r.clientId == p.clientId
    ensures r.paymentDate == p.paymentDate.value && r.amount == p.amount
  {
    PaymentRow(p.id, p.paymentId, p.invoiceId, p.clientId, p.paymentDate.value, p.amount,
               p.paymentMethod, p.reference, p.notes)
  }

  /** The ids of a list of entry objects, in order. */
  function EntryIds(es: seq<Model.TimeEntry>): (r: seq<int>)
    reads set e | e in es
    ensures |r| == |es| && forall i :: 0 <= i < |es| ==> r[i] == es[i].id
  {
    if es == [] then [] else EntryIds(es[..|es| - 1]) + [es[|es| - 1].id]
  }

  // ---------------------------------------------------------------- time entries

  /** `dao.TimeEntryDao` */
  class TimeEntryDao {
    const db: Database

    constructor (db: Database)
      ensures this.db == db
    {
      this.db := db;
    }

    /** `createTimeEntry`: inserts the entry's row and writes the generated
        key back into the entry. */
    method CreateTimeEntry(e: Model.TimeEntry, accepted: bool) returns (rows: int)
      modifies db, e`id
      ensures e.entryDate.None? ==> rows == 0 && db.State() == old(db.State()) && e.id == old(e.id)
      ensures e.entryDate.Some? && !accepted ==> rows == 0 && db.State() == old(db.State()) && e.id == old(e.id)
      ensures e.entryDate.Some? && accepted ==>
                rows == 1 && db.State() == AddEntry(old(db.State()), old(EntryRowOf(e))) && e.id == old(db.entryKey)
    {
      if e.entryDate.None? {
        return 0;
      }
      var key;
      rows, key := db.InsertEntry(EntryRowOf(e), accepted);
      if rows > 0 {
        e.id := key;
      }
    }

    /** `updateTimeEntry`: overwrites the row with the entry's id. */
    method UpdateTimeEntry(e: Model.TimeEntry) returns (rows: int)
      modifies db`entries
      ensures e.entryDate.None? ==> rows == 0 && db.State() == old(db.State())
      ensures e.entryDate.Some? ==>
                db.State() == old(db.State()).(entries := ReplaceEntry(old(db.entries), EntryRowOf(e))) &&
                var key := e.id; rows == Count(old(db.entries), (r: EntryRow) => IsEntry(key, r))
    {
      if e.entryDate.None? {
        return 0;
      }
      rows := db.UpdateEntry(EntryRowOf(e));
    }

    /** `markTimeEntryAsBilled` */
    method MarkTimeEntryAsBilled(id: int, invoice: int) returns (rows: int)
      modifies db`entries
      ensures db.State() == old(db.State()).(entries := MarkBilled(old(db.entries), id, invoice))
      ensures rows == Count(old(db.entries), (r: EntryRow) => IsEntry(id, r))
    {
      rows := db.MarkEntryBilled(id, invoice);
    }
  }

  // ---------------------------------------------------------------- invoices

  /** The columns an entry object carries from its row, other than the
      billed flag and the invoice id, which `setTimeEntries` overwrites. */
  predicate EntryCopies(e: Model.TimeEntry, r: EntryRow)
    reads e`id, e`entryId, e`caseId, e`attorneyId, e`entryDate, e`hours, e`description, e`activityCode, e`hourlyRate
  {
    e.id == r.id && e.entryId == r.entryId && e.caseId == r.caseId && e.attorneyId == r.attorneyId &&
    e.entryDate == Some(r.entryDate) && e.hours == r.hours && e.description == r.description &&
    e.activityCode == r.activityCode && e.hourlyRate == r.hourlyRate
  }

  /** Every column of a payment row, carried by a payment object. */
  predicate PaymentCopies(p: Model.Payment, r: PaymentRow)
    reads p
  {
    p.id == r.id && p.paymentId == r.paymentId && p.invoiceId == r.invoiceId && p.clientId == r.clientId &&
    p.paymentDate == Some(r.paymentDate) && p.amount == r.amount && p.paymentMethod == r.paymentMethod &&
    p.reference == r.reference && p.notes == r.notes
  }

  /** The columns of an invoice row other than the amounts and the status,
      carried by an invoice object. */
  predicate InvoiceCopies(inv: Model.Invoice, r: InvoiceRow)
    reads inv`id, inv`invoiceNumber, inv`clientId, inv`caseId, inv`issueDate, inv`dueDate, inv`notes
  {
    inv.id == r.id && inv.invoiceNumber == r.invoiceNumber && inv.clientId == r.clientId && inv.caseId == r.caseId &&
    inv.issueDate == Some(r.issueDate) && inv.dueDate == Some(r.dueDate) && inv.notes == r.notes
  }

  /** An entry object read from a row (`extractTimeEntryFromResultSet`): a
      NULL invoice id reads as 0. */
  method EntryObject(r: EntryRow) returns (e: Model.TimeEntry)
    ensures fresh(e) && EntryCopies(e, r) && e.Amount() == LineAmount(r.hourlyRate, r.hours)
    ensures e.billed == r.billed && e.invoiceId == (if r.invoiceId.Some? then r.invoiceId.value else 0)
  {
    e := new Model.TimeEntry(r.entryDate);
    e.id, e.entryId, e.caseId, e.attorneyId := r.id, r.entryId, r.caseId, r.attorneyId;
    e.hours, e.description, e.activityCode, e.hourlyRate := r.hours, r.description, r.activityCode, r.hourlyRate;
    e.billed, e.invoiceId := r.billed, if r.invoiceId.Some? then r.invoiceId.value else 0;
  }

  /** The entry objects of a list of rows, one new object per row, in
      order; their amounts total the rows' amounts. */
  method EntryObjects(rows: seq<EntryRow>) returns (es: seq<Model.TimeEntry>)
    ensures |es| == |rows| && forall i :: 0 <= i < |rows| ==> fresh(es[i]) && EntryCopies(es[i], rows[i])
    ensures Model.EntriesTotal(es) == SumLines(rows)
  {
    es := [];
    var i := 0;
    while i < |rows|
      invariant 0 <= i <= |rows| && |es| == i
      invariant forall k :: 0 <= k < i ==> fresh(es[k]) && EntryCopies(es[k], rows[k])
      invariant Model.EntriesTotal(es) == SumLines(rows[..i])
    {
      var e := EntryObject(rows[i]);
      assert Model.EntriesTotal(es) == SumLines(rows[..i]);
      assert (es + [e])[..i] == es;
      assert Model.EntriesTotal(es + [e]) == Model.EntriesTotal(es) + LineAmount(rows[i].hourlyRate, rows[i].hours);
      assert rows[..i + 1][..i] == rows[..i];
      es := es + [e];
      i := i + 1;
    }
    assert rows[..i] == rows;
  }

  /** A payment object read from a row (`extractPaymentFromResultSet`),
      attached to no invoice object. */
  method PaymentObject(r: PaymentRow) returns (p: Model.Payment)
    ensures fresh(p) && PaymentCopies(p, r) && p.invoice == null
  {
    p := new Model.Payment(r.paymentDate);
    p.id, p.paymentId, p.invoiceId, p.clientId := r.id, r.paymentId, r.invoiceId, r.clientId;
    p.amount, p.paymentMethod, p.reference, p.notes := r.amount, r.paymentMethod, r.reference, r.notes;
  }

  /** The payment objects of a list of rows, one new object per row, in
      order; their amounts total the rows' amounts. */
  method PaymentObjects(rows: seq<PaymentRow>) returns (ps: seq<Model.Payment>)
    ensures |ps| == |rows| && forall i :: 0 <= i < |rows| ==> fresh(ps[i]) && PaymentCopies(ps[i], rows[i])
    ensures Model.PaymentsTotal(ps) == SumPaid(rows)
  {
    ps := [];
    var i := 0;
    while i < |rows|
      invariant 0 <= i <= |rows| && |ps| == i
      invariant forall k :: 0 <= k < i ==> fresh(ps[k]) && PaymentCopies(ps[k], rows[k])
      invariant Model.PaymentsTotal(ps) == SumPaid(rows[..i])
    {
      var p := PaymentObject(rows[i]);
      assert (ps + [p])[..i] == ps;
      assert rows[..i + 1][..i] == rows[..i];
      ps := ps + [p];
      i := i + 1;
    }
    assert rows[..i] == rows;
  }

  /** An invoice object read from a row (`extractInvoiceFromResultSet`): a
      new draft, so `setAmount` and `setAmountPaid` keep its status, which
      is then overwritten by the stored one. */
  method InvoiceObject(row: InvoiceRow, today: Date) returns (inv: Model.Invoice)
    ensures fresh(inv) && InvoiceCopies(inv, row)
    ensures inv.amount == row.amount && inv.amountPaid == row.amountPaid && inv.status == row.status
    ensures inv.timeEntries == [] && inv.payments == []
  {
    inv := new Model.Invoice(today);
    inv.id, inv.invoiceNumber, inv.clientId, inv.caseId := row.id, row.invoiceNumber, row.clientId, row.caseId;
    inv.issueDate, inv.dueDate := Some(row.issueDate), Some(row.dueDate);
    inv.SetAmount(row.amount, today);
    inv.SetAmountPaid(row.amountPaid, today);
    inv.status, inv.notes := row.status, row.notes;
  }

  /** `setTimeEntries` with the entry objects of the given rows: every
      entry object is billed to the invoice, the amount is re-summed over
      them and the status re-derived. */
  method AttachEntries(inv: Model.Invoice, entries: seq<EntryRow>, today: Date)
    requires inv.dueDate.Some?
    modifies inv`timeEntries, inv`amount, inv`status
    ensures |inv.timeEntries| == |entries| &&
            forall i :: 0 <= i < |entries| ==>
              var e := inv.timeEntries[i];
              fresh(e) && EntryCopies(e, entries[i]) && e.billed && e.invoiceId == inv.id
    ensures inv.amount == SumLines(entries)
    ensures inv.status == NextStatus(old(inv.status), inv.amount, inv.amountPaid, inv.dueDate, today)
  {
    var es := EntryObjects(entries);
    inv.SetTimeEntries(es, today);
    assert forall i :: 0 <= i < |entries| ==> EntryCopies(es[i], entries[i]);
  }

  /** An invoice row loaded with the given entry rows. */
  method BilledInvoice(row: InvoiceRow, entries: seq<EntryRow>, today: Date) returns (inv: Model.Invoice)
    ensures fresh(inv) && InvoiceCopies(inv, row) && inv.payments == []
    ensures |inv.timeEntries| == |entries| &&
            forall i :: 0 <= i < |entries| ==>
              var e := inv.timeEntries[i];
              fresh(e) && EntryCopies(e, entries[i]) && e.billed && e.invoiceId == row.id
    ensures inv.amount == SumLines(entries) && inv.amountPaid == row.amountPaid
    ensures inv.status == NextStatus(row.status, SumLines(entries), row.amountPaid, Some(row.dueDate), today)
  {
    inv := InvoiceObject(row, today);
    AttachEntries(inv, entries, today);
  }

  /** An invoice row loaded with the given entry and payment rows, as
      `getInvoiceWithDetails` assembles it: the entries are attached first,
      then the payments (`setPayments`), whose total becomes the paid
      amount; only the second status derivation counts. */
  method DetailedInvoice(row: InvoiceRow, entries: seq<EntryRow>, payments: seq<PaymentRow>, today: Date)
    returns (inv: Model.Invoice)
    ensures fresh(inv) && InvoiceCopies(inv, row)
    ensures |inv.timeEntries| == |entries| &&
            forall i :: 0 <= i < |entries| ==>
              var e := inv.timeEntries[i];
              fresh(e) && EntryCopies(e, entries[i]) && e.billed && e.invoiceId == row.id
    ensures |inv.payments| == |payments| &&
            forall i :: 0 <= i < |payments| ==> fresh(inv.payments[i]) && PaymentCopies(inv.payments[i], payments[i])
    ensures inv.amount == SumLines(entries) && inv.amountPaid == SumPaid(payments) == Model.PaymentsTotal(inv.payments)
    ensures inv.status == NextStatus(row.status, SumLines(entries), SumPaid(payments), Some(row.dueDate), today)
  {
    inv := BilledInvoice(row, entries, today);
    var ps := PaymentObjects(payments);
    inv.SetPayments(ps, today);
    NextStatusAbsorbs(row.status, SumLines(entries), row.amountPaid, SumLines(entries), inv.amountPaid, inv.dueDate, today);
  }

  /** `recalculateAmountPaid` on an invoice whose paid amount and status
      are already derived from its payments leaves both as they are. */
  method RecalculatedPaid(inv: Model.Invoice, ghost s0: Status, today: Date) returns (paid: Money, status: Status)
    requires inv.dueDate.Some? && inv.amountPaid == Model.PaymentsTotal(inv.payments)
    requires inv.status == NextStatus(s0, inv.amount, inv.amountPaid, inv.dueDate, today)
    modifies inv`amountPaid, inv`status
    ensures paid == old(inv.amountPaid) && status == old(inv.status)
  {
    NextStatusIdempotent(s0, inv.amount, inv.amountPaid, inv.dueDate, today);
    inv.RecalculateAmountPaid(today);
    return inv.amountPaid, inv.status;
  }

  /** `dao.InvoiceDao` */
  class InvoiceDao {
    const db: Database
    const timeEntryDao: TimeEntryDao

    constructor (db: Database)
      ensures this.db == db && Valid()
    {
      this.db := db;
      this.timeEntryDao := new TimeEntryDao(db);
    }

    /** Both objects work on the same store. */
    predicate Valid()
    {
      timeEntryDao.db == db
    }

    /** `getInvoiceWithDetails`: null for an unknown invoice; otherwise the
        invoice row with the entries billed to it and its payments. Loading
        them re-sums both amounts and re-derives the status, in the order
        `setTimeEntries`, `setPayments`. */
    method GetInvoiceWithDetails(id: int, today: Date) returns (inv: Model.Invoice?)
      ensures inv == null <==> FindInvoice(db.invoices, id).None?
      ensures inv != null ==> fresh(inv) && InvoiceCopies(inv, FindInvoice(db.invoices, id).value)
      ensures inv != null ==>
                var rows := EntriesOfInvoice(db.entries, id);
                |inv.timeEntries| == |rows| &&
                forall i :: 0 <= i < |rows| ==>
                  var e := inv.timeEntries[i];
                  fresh(e) && EntryCopies(e, rows[i]) && e.billed && e.invoiceId == id
      ensures inv != null ==>
                var rows := PaymentsByInvoice(db.payments, id);
                |inv.payments| == |rows| && forall i :: 0 <= i < |rows| ==> fresh(inv.payments[i]) && PaymentCopies(inv.payments[i], rows[i])
      ensures inv != null ==>
                inv.amount == SumLines(EntriesOfInvoice(db.entries, id)) &&
                inv.amountPaid == SumPaid(PaymentsByInvoice(db.payments, id)) == Model.PaymentsTotal(inv.payments)
      ensures inv != null ==> inv.status == PaidStatus(FindInvoice(db.invoices, id).value, db.entries, inv.amountPaid, today)
    {
      var found := FindInvoice(db.invoices, id);
      if found.None? {
        return null;
      }
      inv := DetailedInvoice(found.value, EntriesOfInvoice(db.entries, id), PaymentsByInvoice(db.payments, id), today);
    }

    /** The paid amount and status `updateInvoicePaidAmount` writes: the
        invoice is loaded with its details and its paid amount re-summed,
        which changes nothing more. */
    method RecomputedPaid(id: int, today: Date) returns (found: bool, paid: Money, status: Status)
      ensures found <==> FindInvoice(db.invoices, id).Some?
      ensures found ==> paid == SumPaid(PaymentsByInvoice(db.payments, id))
      ensures found ==> status == PaidStatus(FindInvoice(db.invoices, id).value, db.entries, paid, today)
    {
      var inv := GetInvoiceWithDetails(id, today);
      if inv == null {
        return false, 0.0, Draft;
      }
      found := true;
      paid, status := RecalculatedPaid(inv, FindInvoice(db.invoices, id).value.status, today);
    }

    /** `updateInvoicePaidAmount` */
    method UpdateInvoicePaidAmount(id: int, today: Date) returns (rows: int)
      modifies db`invoices
      ensures Outcome(db.State(), rows) == UpdatePaid(old(db.State()), id, today)
    {
      var found, paid, status := RecomputedPaid(id, today);
      if !found {
        return 0;
      }
      UpdatePaidIs(db.State(), id, today, FindInvoice(db.invoices, id).value, paid, status);
      rows := db.UpdatePaid(id, paid, status);
    }

    /** The total of `createInvoiceFromUnbilledTimeEntries`: rate times hours
        summed over the entries that have a rate. */
    static method UnbilledTotal(rows: seq<EntryRow>) returns (total: Money)
      ensures total == SumLines(rows)
    {
      total := 0.0;
      var i := 0;
      while i < |rows|
        invariant 0 <= i <= |rows|
        invariant total == SumLines(rows[..i])
      {
        assert rows[..i + 1][..i] == rows[..i];
        if rows[i].hourlyRate.Some? {
          total := total + rows[i].hourlyRate.value * rows[i].hours;
        }
        i := i + 1;
      }
      assert rows[..i] == rows;
    }

    /** The invoice `createInvoiceFromUnbilledTimeEntries` assembles before
        inserting it: set to Issued, then `setAmount` and `setAmountPaid`
        re-derive its status. */
    static method BillInvoice(c: CaseRow, number: JStr, due: Date, total: Money, today: Date) returns (row: InvoiceRow)
      ensures row == BillRow(c, number, due, total, today)
    {
      var inv := new Model.Invoice(today);
      inv.invoiceNumber, inv.clientId, inv.caseId := number, c.clientId, c.id;
      inv.issueDate, inv.dueDate, inv.status := Some(today), Some(due), Issued;
      inv.SetAmount(total, today);
      NextStatusIdempotent(Issued, total, 0.0, Some(due), today);
      inv.SetAmountPaid(0.0, today);
      row := InvoiceRowOf(inv);
    }

    /** `markTimeEntryAsBilled(id, invoice)` for each id of `ids` in turn. */
    method MarkEntries(ids: seq<int>, invoice: int)
      requires Valid()
      modifies db`entries
      ensures db.State() == old(db.State()).(entries := MarkAll(old(db.entries), ids, invoice))
    {
      var i := 0;
      while i < |ids|
        invariant 0 <= i <= |ids|
        invariant db.State() == old(db.State()).(entries := MarkAll(old(db.entries), ids[..i], invoice))
      {
        assert ids[..i + 1][..i] == ids[..i];
        var _ := timeEntryDao.MarkTimeEntryAsBilled(ids[i], invoice);
        i := i + 1;
      }
      assert ids[..i] == ids;
    }

    /** `createInvoiceFromUnbilledTimeEntries` */
    method CreateInvoiceFromUnbilledTimeEntries(caseId: int, number: JStr, due: Option<Date>, today: Date, accepted: bool)
      returns (created: Option<InvoiceRow>)
      requires Valid()
      modifies db
      ensures Outcome(db.State(), created) == Bill(old(db.State()), caseId, number, due, today, accepted)
    {
      var c := FindCase(db.cases, caseId);
      if c.None? {
        return None;
      }
      var unbilled := UnbilledOfCase(db.entries, caseId);
      if unbilled == [] || due.None? {
        return None;
      }
      var total := UnbilledTotal(unbilled);
      var row := BillInvoice(c.value, number, due.value, total, today);
      var rows, key := db.InsertInvoice(row, accepted);
      if rows == 0 {
        return None;
      }
      MarkEntries(Ids(unbilled), key);
      created := Some(row.(id := key));
    }

    /** `deleteInvoice` */
    method DeleteInvoice(id: int, today: Date) returns (rows: int)
      modifies db`entries, db`invoices
      ensures Outcome(db.State(), rows) == Ledger.DeleteInvoice(old(db.State()), id)
    {
      var inv := GetInvoiceWithDetails(id, today);
      if inv == null || |inv.payments| > 0 {
        return 0;
      }
      var _ := db.UnbillEntriesOf(id);
      rows := db.DeleteInvoiceRow(id);
    }

    /** `createInvoice`: inserts the invoice, writes the generated key back,
        and bills each entry in its list to it. */
    method CreateInvoice(inv: Model.Invoice, accepted: bool) returns (rows: int)
      requires Valid()
      modifies db, inv`id
      ensures inv.issueDate.None? || inv.dueDate.None? ==> rows == 0 && db.State() == old(db.State())
      ensures inv.issueDate.Some? && inv.dueDate.Some? ==>
                Outcome(db.State(), rows) == Ledger.CreateInvoice(old(db.State()), old(InvoiceRowOf(inv)), old(EntryIds(inv.timeEntries)), accepted)
      ensures rows > 0 ==> inv.id == old(db.invoiceKey)
    {
      if inv.issueDate.None? || inv.dueDate.None? {
        return 0;
      }
      var key;
      rows, key := db.InsertInvoice(InvoiceRowOf(inv), accepted);
      if rows == 0 {
        return 0;
      }
      var ids := EntryIds(inv.timeEntries);
      inv.id := key;
      MarkEntries(ids, key);
    }
  }

  // ---------------------------------------------------------------- payments

  /** `dao.PaymentDao` */
  class PaymentDao {
    const db: Database
    const invoiceDao: InvoiceDao

    constructor (db: Database)
      ensures this.db == db && Valid()
    {
      this.db := db;
      this.invoiceDao := new InvoiceDao(db);
    }

    predicate Valid()
    {
      invoiceDao.db == db && invoiceDao.Valid()
    }

    /** `createPayment`: inserts the payment, writes the key back, and
        recomputes the paid amount of the payment's invoice. */
    method CreatePayment(p: Model.Payment, today: Date, accepted: bool) returns (rows: int)
      requires Valid()
      modifies db, p`id
      ensures p.paymentDate.None? ==> rows == 0 && db.State() == old(db.State()) && p.id == old(p.id)
      ensures p.paymentDate.Some? ==>
                Outcome(db.State(), rows) == Ledger.CreatePayment(old(db.State()), old(PaymentRowOf(p)), today, accepted)
      ensures rows > 0 ==> p.id == old(db.paymentKey)
    {
      if p.paymentDate.None? {
        return 0;
      }
      var key;
      rows, key := db.InsertPayment(PaymentRowOf(p), accepted);
      if rows > 0 {
        p.id := key;
        var _ := invoiceDao.UpdateInvoicePaidAmount(p.invoiceId, today);
      }
    }

    /** `updatePayment`: overwrites the row and recomputes the invoice the
        payment now names. */
    method UpdatePayment(p: Model.Payment, today: Date) returns (rows: int)
      requires Valid()
      modifies db`payments, db`invoices
      ensures p.paymentDate.None? ==> rows == 0 && db.State() == old(db.State())
      ensures p.paymentDate.Some? ==>
                Outcome(db.State(), rows) == Ledger.UpdatePayment(old(db.State()), PaymentRowOf(p), today)
    {
      if p.paymentDate.None? {
        return 0;
      }
      ghost var before := db.payments;
      rows := db.UpdatePaymentRow(PaymentRowOf(p));
      if rows == 0 {
        assert forall i :: 0 <= i < |before| ==> before[i] in before;
        assert db.payments == before;
      } else {
        var _ := invoiceDao.UpdateInvoicePaidAmount(p.invoiceId, today);
      }
    }

    /** `deletePayment`: removes the payment and recomputes the invoice it
        belonged to. */
    method DeletePayment(id: int, today: Date) returns (rows: int)
      requires Valid()
      modifies db`payments, db`invoices
      ensures Outcome(db.State(), rows) == Ledger.DeletePayment(old(db.State()), id, today)
    {
      var found := FindPayment(db.payments, id);
      if found.None? {
        return 0;
      }
      var invoiceId := found.value.invoiceId;
      rows := db.DeletePaymentRow(id);
      if rows > 0 {
        var _ := invoiceDao.UpdateInvoicePaidAmount(invoiceId, today);
      }
    }
  }
}
