/** What each multi-statement DAO operation does to the store, as a function
    of the store before it. The DAO classes are proved to have exactly this
    effect; the reconciliation lemmas are proved about these functions.
    Every operation that reads the clock takes `today`. */
module Ledger {
  import opened Common
  import opened Billing
  import opened Store
  import Numbering

  /** The store after an operation and the value the operation returns. */
  datatype Outcome<R> = Outcome(tables: Tables, result: R)

  /** The ids of `rows`, in order. */
  function Ids(rows: seq<EntryRow>): (r: seq<int>)
    ensures |r| == |rows| && forall i :: 0 <= i < |rows| ==> r[i] == rows[i].id
  {
    Map(rows, (e: EntryRow) => e.id)
  }

  /** An entry row as `markTimeEntryAsBilled` leaves it. */
  function Billed(e: EntryRow, invoice: int): EntryRow
  {
    e.(billed := true, invoiceId := Some(invoice))
  }

  /** `markTimeEntryAsBilled(id, invoice)` for each id of `ids` in turn: the
      rows whose id is listed are billed to the invoice, the others are
      untouched, whatever the order and repetitions of `ids`. */
  function MarkAll(es: seq<EntryRow>, ids: seq<int>, invoice: int): (r: seq<EntryRow>)
    ensures |r| == |es|
    ensures forall i :: 0 <= i < |es| ==> r[i] == if es[i].id in ids then Billed(es[i], invoice) else es[i]
  {
    if ids == [] then es
    else
      var before := MarkAll(es, ids[..|ids| - 1], invoice);
      assert forall x :: x in ids <==> x in ids[..|ids| - 1] || x == ids[|ids| - 1];
      MarkBilled(before, ids[|ids| - 1], invoice)
  }

  // ---------------------------------------------------------------- billing

  /** The status `createInvoiceFromUnbilledTimeEntries` gives a new invoice:
      it is set to Issued and re-derived by `setAmount`, so a zero total is
      Paid at once and a due date already past makes it Overdue. */
  function BillStatus(total: Money, due: Date, today: Date): (s: Status)
    ensures total <= 0.0 ==> s == Paid
    ensures total > 0.0 && due < today ==> s == Overdue
    ensures total > 0.0 && today <= due ==> s == Issued
  {
    NextStatus(Issued, total, 0.0, Some(due), today)
  }

  /** The invoice row `createInvoiceFromUnbilledTimeEntries` inserts (its id
      is the key the insert assigns). */
  function BillRow(c: CaseRow, number: JStr, due: Date, total: Money, today: Date): (r: InvoiceRow)
    ensures r.clientId == c.clientId && r.caseId == c.id && r.invoiceNumber == number
    ensures r.issueDate == today && r.dueDate == due && r.amount == total && r.amountPaid == 0.0
    ensures r.status == BillStatus(total, due, today) && r.notes.None?
  {
    InvoiceRow(0, number, c.clientId, c.id, today, due, total, 0.0, BillStatus(total, due, today), None)
  }

  /** `InvoiceDao.createInvoiceFromUnbilledTimeEntries`: nothing happens and
      there is no invoice when the case is unknown, has no unbilled entry,
      the due date is missing or the insert fails; otherwise one invoice for
      the total of the unbilled entries is inserted and every one of those
      entries is billed to it. */
  function Bill(t: Tables, caseId: int, number: JStr, due: Option<Date>, today: Date, accepted: bool): (o: Outcome<Option<InvoiceRow>>)
    ensures o.result.None? <==>
              FindCase(t.cases, caseId).None? || UnbilledOfCase(t.entries, caseId) == [] || due.None? || !accepted
    ensures o.result.None? ==> o.tables == t
    ensures o.result.Some? ==>
              var r := o.result.value;
              r.id == t.invoiceKey && r.caseId == caseId && r.amount == SumLines(UnbilledOfCase(t.entries, caseId)) &&
              r.amountPaid == 0.0 && r.issueDate == today && r.dueDate == due.value &&
              r.status == BillStatus(r.amount, due.value, today) &&
              o.tables == t.(entries := MarkAll(t.entries, Ids(UnbilledOfCase(t.entries, caseId)), t.invoiceKey),
                             invoices := t.invoices + [r], invoiceKey := t.invoiceKey + 1)
  {
    match FindCase(t.cases, caseId)
    case None => Outcome(t, None)
    case Some(c) =>
      var unbilled := UnbilledOfCase(t.entries, caseId);
      if unbilled == [] || due.None? || !accepted then Outcome(t, None)
      else
        var row := BillRow(c, number, due.value, SumLines(unbilled), today);
        var t1 := AddInvoice(t, row);
        Outcome(t1.(entries := MarkAll(t.entries, Ids(unbilled), t.invoiceKey)), Some(row.(id := t.invoiceKey)))
  }

  /** `InvoiceDao.createInvoice`: the row is inserted and each listed entry
      id is billed to it. */
  function CreateInvoice(t: Tables, row: InvoiceRow, entryIds: seq<int>, accepted: bool): (o: Outcome<int>)
    ensures !accepted ==> o == Outcome(t, 0)
    ensures accepted ==> o.result == 1 && o.tables.invoices == t.invoices + [row.(id := t.invoiceKey)]
    ensures accepted ==> o.tables.entries == MarkAll(t.entries, entryIds, t.invoiceKey)
  {
    if !accepted then Outcome(t, 0)
    else
      var t1 := AddInvoice(t, row);
      Outcome(t1.(entries := MarkAll(t.entries, entryIds, t.invoiceKey)), 1)
  }

  // ---------------------------------------------------------------- deletion

  /** `InvoiceDao.deleteInvoice`: an unknown invoice or one with a payment
      is left alone and 0 returned; otherwise its entries are unbilled and
      it is removed. */
  function DeleteInvoice(t: Tables, id: int): (o: Outcome<int>)
    ensures FindInvoice(t.invoices, id).None? || PaymentsOfInvoice(t.payments, id) != [] ==> o == Outcome(t, 0)
    ensures FindInvoice(t.invoices, id).Some? && PaymentsOfInvoice(t.payments, id) == [] ==>
              o.result > 0 && o.tables == t.(entries := UnbillInvoice(t.entries, id), invoices := RemoveInvoice(t.invoices, id))
  {
    if FindInvoice(t.invoices, id).None? || PaymentsOfInvoice(t.payments, id) != [] then Outcome(t, 0)
    else
      var n := Count(t.invoices, (x: InvoiceRow) => IsInvoice(id, x));
      assert FindInvoice(t.invoices, id).value in t.invoices;
      Outcome(t.(entries := UnbillInvoice(t.entries, id), invoices := RemoveInvoice(t.invoices, id)), n)
  }

  // ---------------------------------------------------------------- paid amount

  /** The status `updateInvoicePaidAmount` writes. The invoice is loaded by
      `getInvoiceWithDetails`, whose `setTimeEntries` replaces the amount by
      the total of the entries billed to it before `setPayments` and
      `recalculateAmountPaid` derive the status; only the last derivation
      counts. */
  function PaidStatus(inv: InvoiceRow, es: seq<EntryRow>, paid: Money, today: Date): (s: Status)
    ensures IsManual(inv.status) ==> s == inv.status
    ensures !IsManual(inv.status) ==>
              (s == Paid <==> paid >= SumLines(EntriesOfInvoice(es, inv.id))) &&
              (s == PartiallyPaid <==> 0.0 < paid < SumLines(EntriesOfInvoice(es, inv.id)))
    ensures !IsManual(inv.status) ==> s in {Paid, PartiallyPaid, Overdue, Issued}
  {
    NextStatus(inv.status, SumLines(EntriesOfInvoice(es, inv.id)), paid, Some(inv.dueDate), today)
  }

  /** `InvoiceDao.updateInvoicePaidAmount`: 0 and no change for an unknown
      invoice; otherwise `amount_paid` becomes the sum of the invoice's
      payments and `status` is re-derived, and nothing else changes. */
  function UpdatePaid(t: Tables, id: int, today: Date): (o: Outcome<int>)
    ensures FindInvoice(t.invoices, id).None? ==> o == Outcome(t, 0)
    ensures FindInvoice(t.invoices, id).Some? ==> o.result > 0
    ensures o.tables == t.(invoices := o.tables.invoices) && |o.tables.invoices| == |t.invoices|
    ensures forall i :: 0 <= i < |t.invoices| && t.invoices[i].id != id ==> o.tables.invoices[i] == t.invoices[i]
    ensures forall i :: 0 <= i < |t.invoices| && t.invoices[i].id == id ==>
              o.tables.invoices[i] == t.invoices[i].(amountPaid := SumPaid(PaymentsByInvoice(t.payments, id)),
                                                     status := PaidStatus(FindInvoice(t.invoices, id).value, t.entries, SumPaid(PaymentsByInvoice(t.payments, id)), today))
  {
    match FindInvoice(t.invoices, id)
    case None => Outcome(t, 0)
    case Some(inv) =>
      var paid := SumPaid(PaymentsByInvoice(t.payments, id));
      var n := Count(t.invoices, (x: InvoiceRow) => IsInvoice(id, x));
      Outcome(t.(invoices := SetPaid(t.invoices, id, paid, PaidStatus(inv, t.entries, paid, today))), n)
  }

  /** `UpdatePaid` once the invoice, its paid amount and its status are
      known. */
  lemma UpdatePaidIs(t: Tables, id: int, today: Date, inv: InvoiceRow, paid: Money, status: Status)
    requires FindInvoice(t.invoices, id) == Some(inv)
    requires paid == SumPaid(PaymentsByInvoice(t.payments, id)) && status == PaidStatus(inv, t.entries, paid, today)
    ensures UpdatePaid(t, id, today) ==
            Outcome(t.(invoices := SetPaid(t.invoices, id, paid, status)), Count(t.invoices, (x: InvoiceRow) => IsInvoice(id, x)))
  {
  }

  // ---------------------------------------------------------------- payments

  /** `PaymentDao.createPayment`: the payment is inserted and the paid
      amount of its invoice recomputed; a failed insert changes nothing. */
  function CreatePayment(t: Tables, row: PaymentRow, today: Date, accepted: bool): (o: Outcome<int>)
    ensures !accepted ==> o == Outcome(t, 0)
    ensures accepted ==> o.result == 1 && o.tables == UpdatePaid(AddPayment(t, row), row.invoiceId, today).tables
  {
    if !accepted then Outcome(t, 0)
    else Outcome(UpdatePaid(AddPayment(t, row), row.invoiceId, today).tables, 1)
  }

  /** `PaymentDao.updatePayment`: the row with the payment's id is
      overwritten, and when there was one, the paid amount of the invoice
      the payment now names is recomputed. */
  function UpdatePayment(t: Tables, row: PaymentRow, today: Date): (o: Outcome<int>)
    ensures o.result == Count(t.payments, (p: PaymentRow) => IsPayment(row.id, p))
    ensures o.result == 0 ==> o.tables == t
    ensures o.result > 0 ==>
              o.tables == UpdatePaid(t.(payments := ReplacePayment(t.payments, row)), row.invoiceId, today).tables
  {
    var n := Count(t.payments, (p: PaymentRow) => IsPayment(row.id, p));
    if n == 0 then
      assert forall i :: 0 <= i < |t.payments| ==> t.payments[i] in t.payments;
      assert ReplacePayment(t.payments, row) == t.payments;
      Outcome(t, 0)
    else Outcome(UpdatePaid(t.(payments := ReplacePayment(t.payments, row)), row.invoiceId, today).tables, n)
  }

  /** `PaymentDao.deletePayment`: 0 and no change for an unknown payment;
      otherwise the payment is removed and the paid amount of the invoice
      it belonged to is recomputed. */
  function DeletePayment(t: Tables, id: int, today: Date): (o: Outcome<int>)
    ensures FindPayment(t.payments, id).None? ==> o == Outcome(t, 0)
    ensures FindPayment(t.payments, id).Some? ==>
              o.result > 0 &&
              o.tables == UpdatePaid(t.(payments := RemovePayment(t.payments, id)), FindPayment(t.payments, id).value.invoiceId, today).tables
  {
    match FindPayment(t.payments, id)
    case None => Outcome(t, 0)
    case Some(p) =>
      var n := Count(t.payments, (q: PaymentRow) => IsPayment(id, q));
      assert p in t.payments;
      Outcome(UpdatePaid(t.(payments := RemovePayment(t.payments, id)), p.invoiceId, today).tables, n)
  }

  // ---------------------------------------------------------------- numbers

  /** `InvoiceDao.generateNextInvoiceNumber` */
  function NextInvoiceNumber(t: Tables): (n: string)
    ensures Numbering.SuffixValue(n) == Numbering.MaxSuffix(InvoiceNumbers(t), "INV") + 1
    ensures Numbering.LikePrefix(Some(n), "INV")
  {
    Numbering.NextNumberIsFresh(InvoiceNumbers(t), "INV");
    Numbering.NextNumberHasPrefix(InvoiceNumbers(t), "INV");
    Numbering.NextNumber(InvoiceNumbers(t), "INV")
  }

  function InvoiceNumbers(t: Tables): seq<JStr>
  {
    Map(t.invoices, (x: InvoiceRow) => x.invoiceNumber)
  }

  /** `PaymentDao.generateNextPaymentId` */
  function NextPaymentId(t: Tables): (n: string)
    ensures Numbering.SuffixValue(n) == Numbering.MaxSuffix(PaymentIds(t), "PMT") + 1
    ensures Numbering.LikePrefix(Some(n), "PMT")
  {
    Numbering.NextNumberIsFresh(PaymentIds(t), "PMT");
    Numbering.NextNumberHasPrefix(PaymentIds(t), "PMT");
    Numbering.NextNumber(PaymentIds(t), "PMT")
  }

  function PaymentIds(t: Tables): seq<JStr>
  {
    Map(t.payments, (p: PaymentRow) => p.paymentId)
  }
}
