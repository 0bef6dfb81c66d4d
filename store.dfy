/** The database behind the DAOs, held in memory: one sequence of rows per
    table, in insertion order, and the AUTO_INCREMENT counter of each keyed
    table. The pure functions here give the rows a query selects and the
    tables a statement leaves; `Database` is the mutable store whose
    methods are the statements. */
module Store {
  import opened Common
  import opened Billing
  import Sorting
  import Text

  // ---------------------------------------------------------------- rows

  /** A `time_entries` row. A NULL `hourly_rate` or `invoice_id` is `None`. */
  datatype EntryRow = EntryRow(
    id: int, entryId: JStr, caseId: int, attorneyId: int, entryDate: Date, hours: real,
    description: JStr, activityCode: JStr, hourlyRate: Option<Money>, billed: bool, invoiceId: Option<int>)

  /** An `invoices` row. Its dates are never NULL: every statement that
      writes them converts them with `Date.valueOf`, which fails on null. */
  datatype InvoiceRow = InvoiceRow(
    id: int, invoiceNumber: JStr, clientId: int, caseId: int, issueDate: Date, dueDate: Date,
    amount: Money, amountPaid: Money, status: Status, notes: JStr)

  /** A `payments` row. */
  datatype PaymentRow = PaymentRow(
    id: int, paymentId: JStr, invoiceId: int, clientId: int, paymentDate: Date, amount: Money,
    paymentMethod: JStr, reference: JStr, notes: JStr)

  /** The columns of `cases` and `attorneys` the billing code reads. */
  datatype CaseRow = CaseRow(id: int, clientId: int)
  datatype AttorneyRow = AttorneyRow(id: int, hourlyRate: real)

  /** The whole store. `entryKey`, `invoiceKey` and `paymentKey` are the
      ids the next inserts will be given. */
  datatype Tables = Tables(
    entries: seq<EntryRow>, invoices: seq<InvoiceRow>, payments: seq<PaymentRow>,
    cases: seq<CaseRow>, attorneys: seq<AttorneyRow>,
    entryKey: int, invoiceKey: int, paymentKey: int)

  // ---------------------------------------------------------------- sequences

  /** The elements of `s` that satisfy `p`, in order (a `WHERE` clause). */
  function Filter<T(!new)>(s: seq<T>, p: T -> bool): (r: seq<T>)
    ensures |r| <= |s|
    ensures forall x :: x in r <==> x in s && p(x)
  {
    if s == [] then []
    else Filter(s[..|s| - 1], p) + (if p(s[|s| - 1]) then [s[|s| - 1]] else [])
  }

  /** `f` applied to every element of `s` (an `UPDATE` without `WHERE`). */
  function Map<T, U>(s: seq<T>, f: T -> U): (r: seq<U>)
    ensures |r| == |s| && forall i :: 0 <= i < |s| ==> r[i] == f(s[i])
  {
    seq(|s|, i requires 0 <= i < |s| => f(s[i]))
  }

  /** The number of elements of `s` that satisfy `p` (rows matched). */
  function Count<T(!new)>(s: seq<T>, p: T -> bool): (n: nat)
    ensures n == |Filter(s, p)|
    ensures n == 0 <==> forall x :: x in s ==> !p(x)
  {
    var f := Filter(s, p);
    assert f != [] ==> f[0] in f;
    |f|
  }

  // ---------------------------------------------------------------- sums

  /** Σ `TimeEntry.getAmount` over rows, from the front. */
  function SumLines(es: seq<EntryRow>): Money
  {
    if es == [] then 0.0 else SumLines(es[..|es| - 1]) + LineAmount(es[|es| - 1].hourlyRate, es[|es| - 1].hours)
  }

  /** Σ payment amounts over rows, from the front. */
  function SumPaid(ps: seq<PaymentRow>): Money
  {
    if ps == [] then 0.0 else SumPaid(ps[..|ps| - 1]) + ps[|ps| - 1].amount
  }

  /** A sum of non-negative payment amounts is non-negative. */
  lemma {:induction false} SumPaidNonNegative(ps: seq<PaymentRow>)
    requires forall p :: p in ps ==> p.amount >= 0.0
    ensures SumPaid(ps) >= 0.0
  {
    if ps != [] {
      assert forall p :: p in ps[..|ps| - 1] ==> p in ps;
      SumPaidNonNegative(ps[..|ps| - 1]);
    }
  }

  // ---------------------------------------------------------------- queries

  predicate IsEntry(id: int, r: EntryRow) { r.id == id }
  predicate IsInvoice(id: int, r: InvoiceRow) { r.id == id }
  predicate IsPayment(id: int, r: PaymentRow) { r.id == id }

  /** `WHERE invoice_id = ?` on `time_entries`. */
  function EntriesOfInvoice(es: seq<EntryRow>, invoice: int): seq<EntryRow>
  {
    Filter(es, (r: EntryRow) => r.invoiceId == Some(invoice))
  }

  /** `WHERE case_id = ? AND billed = FALSE` on `time_entries`. */
  function UnbilledOfCase(es: seq<EntryRow>, caseId: int): seq<EntryRow>
  {
    Filter(es, (r: EntryRow) => r.caseId == caseId && !r.billed)
  }

  /** `WHERE case_id = ?` on `time_entries`. */
  function EntriesOfCase(es: seq<EntryRow>, caseId: int): seq<EntryRow>
  {
    Filter(es, (r: EntryRow) => r.caseId == caseId)
  }

  /** `WHERE invoice_id = ?` on `payments`. */
  function PaymentsOfInvoice(ps: seq<PaymentRow>, invoice: int): seq<PaymentRow>
  {
    Filter(ps, (p: PaymentRow) => p.invoiceId == invoice)
  }

  /** The first row with the key, as `findXById` reads it. */
  function FindInvoice(invs: seq<InvoiceRow>, id: int): (r: Option<InvoiceRow>)
    ensures r.Some? <==> exists i :: 0 <= i < |invs| && invs[i].id == id
    ensures r.Some? ==> r.value in invs && r.value.id == id
  {
    if invs == [] then None else if invs[0].id == id then Some(invs[0]) else FindInvoice(invs[1..], id)
  }

  function FindPayment(ps: seq<PaymentRow>, id: int): (r: Option<PaymentRow>)
    ensures r.Some? <==> exists i :: 0 <= i < |ps| && ps[i].id == id
    ensures r.Some? ==> r.value in ps && r.value.id == id
  {
    if ps == [] then None else if ps[0].id == id then Some(ps[0]) else FindPayment(ps[1..], id)
  }

  function FindCase(cs: seq<CaseRow>, id: int): (r: Option<CaseRow>)
    ensures r.Some? <==> exists i :: 0 <= i < |cs| && cs[i].id == id
    ensures r.Some? ==> r.value in cs && r.value.id == id
  {
    if cs == [] then None else if cs[0].id == id then Some(cs[0]) else FindCase(cs[1..], id)
  }

  function FindAttorney(atts: seq<AttorneyRow>, id: int): (r: Option<AttorneyRow>)
    ensures r.Some? <==> exists i :: 0 <= i < |atts| && atts[i].id == id
    ensures r.Some? ==> r.value in atts && r.value.id == id
  {
    if atts == [] then None else if atts[0].id == id then Some(atts[0]) else FindAttorney(atts[1..], id)
  }

  /** `PaymentDao.findPaymentsByInvoice`: the payments of the invoice,
      latest payment date first. */
  function PaymentsByInvoice(ps: seq<PaymentRow>, invoice: int): (r: seq<PaymentRow>)
    ensures multiset(r) == multiset(PaymentsOfInvoice(ps, invoice)) && |r| == |PaymentsOfInvoice(ps, invoice)|
    ensures forall p :: p in r <==> p in ps && p.invoiceId == invoice
    ensures forall i, j :: 0 <= i < j < |r| ==> r[i].paymentDate >= r[j].paymentDate
  {
    var r := Sorting.SortBy(PaymentsOfInvoice(ps, invoice), (p: PaymentRow) => -p.paymentDate);
    assert forall p :: p in r <==> p in multiset(r);
    r
  }

  /** `PaymentDao.getTotalPaymentsByClient`: `SUM(amount)` over the client's
      payments, with the NULL of an empty selection read as zero. */
  function TotalPaymentsByClient(ps: seq<PaymentRow>, clientId: int): (total: Money)
    ensures Filter(ps, (p: PaymentRow) => p.clientId == clientId) == [] ==> total == 0.0
  {
    SumPaid(Filter(ps, (p: PaymentRow) => p.clientId == clientId))
  }

  /** The status comparison of `findOverdueInvoices`: `status != 'Paid'`
      under the column's case-insensitive collation. */
  predicate Settled(s: Status)
  {
    Text.EqualsIgnoreCase("Paid", Some(StatusText(s))) || Text.EqualsIgnoreCase("Cancelled", Some(StatusText(s)))
  }

  predicate Overdue(today: Date, r: InvoiceRow)
  {
    r.dueDate < today && !Settled(r.status)
  }

  /** `InvoiceDao.findOverdueInvoices`: the invoices due before today that
      are neither paid nor cancelled, earliest due date first. */
  function OverdueInvoices(invs: seq<InvoiceRow>, today: Date): (r: seq<InvoiceRow>)
    ensures multiset(r) == multiset(Filter(invs, x => Overdue(today, x)))
    ensures forall x :: x in r <==> x in invs && x.dueDate < today && !Settled(x.status)
    ensures forall i, j :: 0 <= i < j < |r| ==> r[i].dueDate <= r[j].dueDate
  {
    var f := Filter(invs, x => Overdue(today, x));
    var r := Sorting.SortBy(f, (x: InvoiceRow) => x.dueDate);
    assert forall x :: x in r <==> x in multiset(r);
    assert forall x :: x in f <==> x in multiset(f);
    r
  }

  /** A paid or cancelled invoice is never listed as overdue. */
  lemma SettledNeverOverdue(invs: seq<InvoiceRow>, today: Date, x: InvoiceRow)
    requires x.status == Paid || x.status == Cancelled
    ensures x !in OverdueInvoices(invs, today)
  {
    if x.status == Paid {
      assert Text.EqualsIgnoreCase("Paid", Some(StatusText(x.status)));
    } else {
      assert Text.EqualsIgnoreCase("Cancelled", Some(StatusText(x.status)));
    }
  }

  // ---------------------------------------------------------------- statements

  /** `UPDATE time_entries SET billed = TRUE, invoice_id = ? WHERE id = ?` */
  function MarkBilled(es: seq<EntryRow>, id: int, invoice: int): (r: seq<EntryRow>)
    ensures |r| == |es|
    ensures forall i :: 0 <= i < |es| ==>
              r[i] == if es[i].id == id then es[i].(billed := true, invoiceId := Some(invoice)) else es[i]
  {
    Map(es, (e: EntryRow) => if e.id == id then e.(billed := true, invoiceId := Some(invoice)) else e)
  }

  /** `UPDATE time_entries SET billed = FALSE, invoice_id = NULL WHERE invoice_id = ?` */
  function UnbillInvoice(es: seq<EntryRow>, invoice: int): (r: seq<EntryRow>)
    ensures |r| == |es|
    ensures forall i :: 0 <= i < |es| ==>
              r[i] == if es[i].invoiceId == Some(invoice) then es[i].(billed := false, invoiceId := None) else es[i]
  {
    Map(es, (e: EntryRow) => if e.invoiceId == Some(invoice) then e.(billed := false, invoiceId := None) else e)
  }

  /** `UPDATE time_entries SET <every column> WHERE id = ?` */
  function ReplaceEntry(es: seq<EntryRow>, row: EntryRow): (r: seq<EntryRow>)
    ensures |r| == |es|
    ensures forall i :: 0 <= i < |es| ==> r[i] == if es[i].id == row.id then row else es[i]
  {
    Map(es, (e: EntryRow) => if e.id == row.id then row else e)
  }

  /** `UPDATE invoices SET amount_paid = ?, status = ? WHERE id = ?` */
  function SetPaid(invs: seq<InvoiceRow>, id: int, paid: Money, status: Status): (r: seq<InvoiceRow>)
    ensures |r| == |invs|
    ensures forall i :: 0 <= i < |invs| ==>
              r[i] == if invs[i].id == id then invs[i].(amountPaid := paid, status := status) else invs[i]
  {
    Map(invs, (x: InvoiceRow) => if x.id == id then x.(amountPaid := paid, status := status) else x)
  }

  /** `DELETE FROM invoices WHERE id = ?` */
  function RemoveInvoice(invs: seq<InvoiceRow>, id: int): (r: seq<InvoiceRow>)
    ensures forall x :: x in r <==> x in invs && x.id != id
  {
    Filter(invs, (x: InvoiceRow) => x.id != id)
  }

  /** `UPDATE payments SET <every column> WHERE id = ?` */
  function ReplacePayment(ps: seq<PaymentRow>, row: PaymentRow): (r: seq<PaymentRow>)
    ensures |r| == |ps|
    ensures forall i :: 0 <= i < |ps| ==> r[i] == if ps[i].id == row.id then row else ps[i]
  {
    Map(ps, (p: PaymentRow) => if p.id == row.id then row else p)
  }

  /** `DELETE FROM payments WHERE id = ?` */
  function RemovePayment(ps: seq<PaymentRow>, id: int): (r: seq<PaymentRow>)
    ensures forall p :: p in r <==> p in ps && p.id != id
  {
    Filter(ps, (p: PaymentRow) => p.id != id)
  }

  /** `INSERT INTO time_entries`: the row is appended with the next key. */
  function AddEntry(t: Tables, row: EntryRow): (r: Tables)
    ensures r.entries == t.entries + [row.(id := t.entryKey)] && r.entryKey == t.entryKey + 1
    ensures r.invoices == t.invoices && r.payments == t.payments
  {
    t.(entries := t.entries + [row.(id := t.entryKey)], entryKey := t.entryKey + 1)
  }

  /** `INSERT INTO invoices` */
  function AddInvoice(t: Tables, row: InvoiceRow): (r: Tables)
    ensures r.invoices == t.invoices + [row.(id := t.invoiceKey)] && r.invoiceKey == t.invoiceKey + 1
    ensures r.entries == t.entries && r.payments == t.payments
  {
    t.(invoices := t.invoices + [row.(id := t.invoiceKey)], invoiceKey := t.invoiceKey + 1)
  }

  /** `INSERT INTO payments` */
  function AddPayment(t: Tables, row: PaymentRow): (r: Tables)
    ensures r.payments == t.payments + [row.(id := t.paymentKey)] && r.paymentKey == t.paymentKey + 1
    ensures r.entries == t.entries && r.invoices == t.invoices
  {
    t.(payments := t.payments + [row.(id := t.paymentKey)], paymentKey := t.paymentKey + 1)
  }

  // ---------------------------------------------------------------- the store

  /** The database: its tables, changed only by the statements below. */
  class Database {
    var entries: seq<EntryRow>
    var invoices: seq<InvoiceRow>
    var payments: seq<PaymentRow>
    var cases: seq<CaseRow>
    var attorneys: seq<AttorneyRow>
    var entryKey: int
    var invoiceKey: int
    var paymentKey: int

    function State(): Tables
      reads this
    {
      Tables(entries, invoices, payments, cases, attorneys, entryKey, invoiceKey, paymentKey)
    }

    /** An empty store whose first keys are 1. */
    constructor (cs: seq<CaseRow>, atts: seq<AttorneyRow>)
      ensures State() == Tables([], [], [], cs, atts, 1, 1, 1)
    {
      entries, invoices, payments := [], [], [];
      cases, attorneys := cs, atts;
      entryKey, invoiceKey, paymentKey := 1, 1, 1;
    }

    /** `INSERT INTO time_entries`: the row gets the next key. `accepted`
        says whether the database takes the statement. */
    method InsertEntry(row: EntryRow, accepted: bool) returns (rows: int, key: int)
      modifies this
      ensures !accepted ==> rows == 0 && State() == old(State())
      ensures accepted ==> rows == 1 && key == old(entryKey)
      ensures accepted ==> State() == AddEntry(old(State()), row)
    {
      rows, key := 0, 0;
      if accepted {
        key := entryKey;
        entries := entries + [row.(id := key)];
        entryKey := key + 1;
        rows := 1;
      }
    }

    /** `INSERT INTO invoices` */
    method InsertInvoice(row: InvoiceRow, accepted: bool) returns (rows: int, key: int)
      modifies this
      ensures !accepted ==> rows == 0 && State() == old(State())
      ensures accepted ==> rows == 1 && key == old(invoiceKey)
      ensures accepted ==> State() == AddInvoice(old(State()), row)
    {
      rows, key := 0, 0;
      if accepted {
        key := invoiceKey;
        invoices := invoices + [row.(id := key)];
        invoiceKey := key + 1;
        rows := 1;
      }
    }

    /** `INSERT INTO payments` */
    method InsertPayment(row: PaymentRow, accepted: bool) returns (rows: int, key: int)
      modifies this
      ensures !accepted ==> rows == 0 && State() == old(State())
      ensures accepted ==> rows == 1 && key == old(paymentKey)
      ensures accepted ==> State() == AddPayment(old(State()), row)
    {
      rows, key := 0, 0;
      if accepted {
        key := paymentKey;
        payments := payments + [row.(id := key)];
        paymentKey := key + 1;
        rows := 1;
      }
    }

    /** The statements below report the rows their `WHERE` matched. */
    method MarkEntryBilled(id: int, invoice: int) returns (rows: int)
      modifies this`entries
      ensures entries == MarkBilled(old(entries), id, invoice)
      ensures rows == Count(old(entries), (e: EntryRow) => IsEntry(id, e))
    {
      rows := Count(entries, (e: EntryRow) => IsEntry(id, e));
      entries := MarkBilled(entries, id, invoice);
    }

    method UpdateEntry(row: EntryRow) returns (rows: int)
      modifies this`entries
      ensures entries == ReplaceEntry(old(entries), row)
      ensures rows == Count(old(entries), (e: EntryRow) => IsEntry(row.id, e))
    {
      rows := Count(entries, (e: EntryRow) => IsEntry(row.id, e));
      entries := ReplaceEntry(entries, row);
    }

    method UnbillEntriesOf(invoice: int) returns (rows: int)
      modifies this`entries
      ensures entries == UnbillInvoice(old(entries), invoice)
      ensures rows == |EntriesOfInvoice(old(entries), invoice)|
    {
      rows := |EntriesOfInvoice(entries, invoice)|;
      entries := UnbillInvoice(entries, invoice);
    }

    method UpdatePaid(id: int, paid: Money, status: Status) returns (rows: int)
      modifies this`invoices
      ensures invoices == SetPaid(old(invoices), id, paid, status)
      ensures rows == Count(old(invoices), (x: InvoiceRow) => IsInvoice(id, x))
    {
      rows := Count(invoices, (x: InvoiceRow) => IsInvoice(id, x));
      invoices := SetPaid(invoices, id, paid, status);
    }

    method DeleteInvoiceRow(id: int) returns (rows: int)
      modifies this`invoices
      ensures invoices == RemoveInvoice(old(invoices), id)
      ensures rows == Count(old(invoices), (x: InvoiceRow) => IsInvoice(id, x))
    {
      rows := Count(invoices, (x: InvoiceRow) => IsInvoice(id, x));
      invoices := RemoveInvoice(invoices, id);
    }

    method UpdatePaymentRow(row: PaymentRow) returns (rows: int)
      modifies this`payments
      ensures payments == ReplacePayment(old(payments), row)
      ensures rows == Count(old(payments), (p: PaymentRow) => IsPayment(row.id, p))
    {
      rows := Count(payments, (p: PaymentRow) => IsPayment(row.id, p));
      payments := ReplacePayment(payments, row);
    }

    method DeletePaymentRow(id: int) returns (rows: int)
      modifies this`payments
      ensures payments == RemovePayment(old(payments), id)
      ensures rows == Count(old(payments), (p: PaymentRow) => IsPayment(id, p))
    {
      rows := Count(payments, (p: PaymentRow) => IsPayment(id, p));
      payments := RemovePayment(payments, id);
    }
  }
}
