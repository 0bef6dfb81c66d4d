/** The invariants that keep time entries, invoices and payments consistent
    in the store, and which operations keep them:
    - every row has a positive key, unique in its table, below the next key;
    - an entry is billed exactly when it names an invoice, and that invoice
      exists; every payment names an existing invoice;
    - an invoice's amount is the total of the entries billed to it, and its
      paid amount the total of its payments. */
module Reconciliation {
  import opened Common
  import opened Billing
  import opened Store
  import opened Ledger

  // ---------------------------------------------------------------- invariants

  predicate EntryKeys(t: Tables)
  {
    t.entryKey > 0 &&
    (forall e :: e in t.entries ==> 0 < e.id < t.entryKey) &&
    (forall e, f :: e in t.entries && f in t.entries && e.id == f.id ==> e == f)
  }

  predicate InvoiceKeys(t: Tables)
  {
    t.invoiceKey > 0 &&
    (forall x :: x in t.invoices ==> 0 < x.id < t.invoiceKey) &&
    (forall x, y :: x in t.invoices && y in t.invoices && x.id == y.id ==> x == y)
  }

  predicate PaymentKeys(t: Tables)
  {
    t.paymentKey > 0 &&
    (forall p :: p in t.payments ==> 0 < p.id < t.paymentKey) &&
    (forall p, q :: p in t.payments && q in t.payments && p.id == q.id ==> p == q)
  }

  predicate Keyed(t: Tables)
  {
    EntryKeys(t) && InvoiceKeys(t) && PaymentKeys(t)
  }

  predicate HasInvoice(invs: seq<InvoiceRow>, id: int)
  {
    exists x :: x in invs && x.id == id
  }

  /** billed ⇔ an invoice is named, and the named invoice exists; every
      payment names an existing invoice. */
  predicate Linked(t: Tables)
  {
    (forall e :: e in t.entries ==> (e.billed <==> e.invoiceId.Some?)) &&
    (forall e :: e in t.entries && e.invoiceId.Some? ==> HasInvoice(t.invoices, e.invoiceId.value)) &&
    (forall p :: p in t.payments ==> HasInvoice(t.invoices, p.invoiceId))
  }

  /** amount = Σ the amounts of the entries billed to the invoice. */
  predicate AmountsReconciled(t: Tables)
  {
    forall x :: x in t.invoices ==> x.amount == SumLines(EntriesOfInvoice(t.entries, x.id))
  }

  /** amountPaid = Σ the invoice's payments, except for the invoices in
      `pending`, whose paid amount is yet to be recomputed. */
  predicate PaidReconciledExcept(t: Tables, pending: set<int>)
  {
    forall x :: x in t.invoices && x.id !in pending ==> x.amountPaid == SumPaid(PaymentsByInvoice(t.payments, x.id))
  }

  /** Everything but the paid amounts. */
  predicate Consistent(t: Tables)
  {
    Keyed(t) && Linked(t) && AmountsReconciled(t)
  }

  predicate Reconciled(t: Tables)
  {
    Consistent(t) && PaidReconciledExcept(t, {})
  }

  // ---------------------------------------------------------------- sums and selections

  lemma SumLinesAppend(es: seq<EntryRow>, e: EntryRow)
    ensures SumLines(es + [e]) == SumLines(es) + LineAmount(e.hourlyRate, e.hours)
  {
    assert (es + [e])[..|es|] == es;
  }

  /** Two entry tables row by row alike in rate and hours, whose rows
      billed to `ka` and to `kb` sit at the same places, have the same
      total for those invoices. */
  lemma {:induction false} SumOfInvoiceCorrespond(a: seq<EntryRow>, b: seq<EntryRow>, ka: int, kb: int)
    requires |a| == |b|
    requires forall i :: 0 <= i < |a| ==> (a[i].invoiceId == Some(ka) <==> b[i].invoiceId == Some(kb))
    requires forall i :: 0 <= i < |a| ==> a[i].hourlyRate == b[i].hourlyRate && a[i].hours == b[i].hours
    ensures SumLines(EntriesOfInvoice(a, ka)) == SumLines(EntriesOfInvoice(b, kb))
  {
    if a != [] {
      var n := |a| - 1;
      SumOfInvoiceCorrespond(a[..n], b[..n], ka, kb);
      if a[n].invoiceId == Some(ka) {
        SumLinesAppend(EntriesOfInvoice(a[..n], ka), a[n]);
        SumLinesAppend(EntriesOfInvoice(b[..n], kb), b[n]);
      } else {
        assert EntriesOfInvoice(a, ka) == EntriesOfInvoice(a[..n], ka);
        assert EntriesOfInvoice(b, kb) == EntriesOfInvoice(b[..n], kb);
      }
    }
  }

  /** The same, between a case's unbilled entries in `a` and the entries
      billed to `kb` in `b`. */
  lemma {:induction false} SumOfUnbilledCorrespond(a: seq<EntryRow>, b: seq<EntryRow>, caseId: int, kb: int)
    requires |a| == |b|
    requires forall i :: 0 <= i < |a| ==> (a[i].caseId == caseId && !a[i].billed <==> b[i].invoiceId == Some(kb))
    requires forall i :: 0 <= i < |a| ==> a[i].hourlyRate == b[i].hourlyRate && a[i].hours == b[i].hours
    ensures SumLines(UnbilledOfCase(a, caseId)) == SumLines(EntriesOfInvoice(b, kb))
  {
    if a != [] {
      var n := |a| - 1;
      SumOfUnbilledCorrespond(a[..n], b[..n], caseId, kb);
      if b[n].invoiceId == Some(kb) {
        SumLinesAppend(UnbilledOfCase(a[..n], caseId), a[n]);
        SumLinesAppend(EntriesOfInvoice(b[..n], kb), b[n]);
      } else {
        assert UnbilledOfCase(a, caseId) == UnbilledOfCase(a[..n], caseId);
        assert EntriesOfInvoice(b, kb) == EntriesOfInvoice(b[..n], kb);
      }
    }
  }

  /** With unique entry ids, an entry's id is among the ids of the case's
      unbilled entries exactly when it is one of them. */
  lemma InUnbilledIds(es: seq<EntryRow>, caseId: int, e: EntryRow)
    requires forall x, y :: x in es && y in es && x.id == y.id ==> x == y
    requires e in es
    ensures e.id in Ids(UnbilledOfCase(es, caseId)) <==> e.caseId == caseId && !e.billed
  {
    var u := UnbilledOfCase(es, caseId);
    if e.caseId == caseId && !e.billed {
      assert e in u;
      var j :| 0 <= j < |u| && u[j] == e;
      assert Ids(u)[j] == e.id;
    }
    if e.id in Ids(u) {
      var j :| 0 <= j < |u| && Ids(u)[j] == e.id;
      assert u[j] in u;
    }
  }

  /** No entry names the invoice: it has no entries and a zero total. */
  lemma {:induction false} NoEntriesOf(es: seq<EntryRow>, k: int)
    requires forall e :: e in es ==> e.invoiceId != Some(k)
    ensures EntriesOfInvoice(es, k) == [] && SumLines(EntriesOfInvoice(es, k)) == 0.0
  {
    if es != [] {
      var n := |es| - 1;
      assert forall e :: e in es[..n] ==> e in es;
      NoEntriesOf(es[..n], k);
      assert es[n] in es;
    }
  }

  /** No payment names the invoice: it has no payments and nothing paid. */
  lemma {:induction false} NoPaymentsOf(ps: seq<PaymentRow>, k: int)
    requires forall p :: p in ps ==> p.invoiceId != k
    ensures PaymentsOfInvoice(ps, k) == [] && SumPaid(PaymentsByInvoice(ps, k)) == 0.0
  {
    if ps != [] {
      var n := |ps| - 1;
      assert forall p :: p in ps[..n] ==> p in ps;
      NoPaymentsOf(ps[..n], k);
      assert ps[n] in ps;
    }
  }

  /** Appending a payment of another invoice leaves an invoice's payments
      as they were. */
  lemma PaymentsOfAfterAdd(ps: seq<PaymentRow>, p: PaymentRow, k: int)
    requires p.invoiceId != k
    ensures PaymentsOfInvoice(ps + [p], k) == PaymentsOfInvoice(ps, k)
  {
    assert (ps + [p])[..|ps|] == ps;
  }

  /** Removing a payment that belongs to another invoice leaves an
      invoice's payments as they were. */
  lemma {:induction false} PaymentsOfAfterRemove(ps: seq<PaymentRow>, id: int, k: int)
    requires forall p :: p in ps && p.id == id ==> p.invoiceId != k
    ensures PaymentsOfInvoice(RemovePayment(ps, id), k) == PaymentsOfInvoice(ps, k)
  {
    if ps != [] {
      var n := |ps| - 1;
      PaymentsOfAfterRemove(ps[..n], id, k);
      var rest := RemovePayment(ps[..n], id);
      if ps[n].id != id {
        assert RemovePayment(ps, id) == rest + [ps[n]];
        assert (rest + [ps[n]])[..|rest|] == rest;
      } else {
        assert RemovePayment(ps, id) == rest;
      }
    }
  }

  /** Overwriting a payment that neither belonged nor now belongs to an
      invoice leaves that invoice's payments as they were. */
  lemma {:induction false} PaymentsOfAfterReplace(ps: seq<PaymentRow>, row: PaymentRow, k: int)
    requires forall p :: p in ps && p.id == row.id ==> p.invoiceId != k
    requires row.invoiceId != k
    ensures PaymentsOfInvoice(ReplacePayment(ps, row), k) == PaymentsOfInvoice(ps, k)
  {
    if ps != [] {
      var n := |ps| - 1;
      PaymentsOfAfterReplace(ps[..n], row, k);
      var r := ReplacePayment(ps, row);
      assert r[..n] == ReplacePayment(ps[..n], row);
    }
  }

  // ---------------------------------------------------------------- row rewrites

  /** Rewriting entry rows one by one, each by the same function of the row
      that keeps its key, keeps the entry keys unique. */
  lemma EntryKeysAfterRewrite(t: Tables, es: seq<EntryRow>, f: EntryRow -> EntryRow)
    requires EntryKeys(t)
    requires |es| == |t.entries| && forall i :: 0 <= i < |es| ==> es[i] == f(t.entries[i])
    requires forall e :: f(e).id == e.id
    ensures EntryKeys(t.(entries := es))
  {
    forall e | e in es
      ensures exists i :: 0 <= i < |t.entries| && es[i] == e && t.entries[i] in t.entries
    {
      var i :| 0 <= i < |es| && es[i] == e;
      assert t.entries[i] in t.entries;
    }
  }

  /** Likewise for invoice rows. */
  lemma InvoiceKeysAfterRewrite(t: Tables, invs: seq<InvoiceRow>, f: InvoiceRow -> InvoiceRow)
    requires InvoiceKeys(t)
    requires |invs| == |t.invoices| && forall i :: 0 <= i < |invs| ==> invs[i] == f(t.invoices[i])
    requires forall x :: f(x).id == x.id
    ensures InvoiceKeys(t.(invoices := invs))
  {
    forall x | x in invs
      ensures exists i :: 0 <= i < |t.invoices| && invs[i] == x && t.invoices[i] in t.invoices
    {
      var i :| 0 <= i < |invs| && invs[i] == x;
      assert t.invoices[i] in t.invoices;
    }
  }

  /** Inserting an invoice under the next key keeps the invoice keys
      unique. */
  lemma InvoiceKeysAfterInsert(t: Tables, x: InvoiceRow)
    requires InvoiceKeys(t) && x.id == t.invoiceKey
    ensures InvoiceKeys(t.(invoices := t.invoices + [x], invoiceKey := t.invoiceKey + 1))
  {
    assert forall y :: y in t.invoices + [x] <==> y in t.invoices || y == x;
  }

  // ---------------------------------------------------------------- paid amount

  lemma SetPaidLinked(t: Tables, id: int, paid: Money, s: Status)
    requires Linked(t) && AmountsReconciled(t)
    ensures var u := t.(invoices := SetPaid(t.invoices, id, paid, s));
            Linked(u) && AmountsReconciled(u)
  {
    var invs := SetPaid(t.invoices, id, paid, s);
    forall k | HasInvoice(t.invoices, k)
      ensures HasInvoice(invs, k)
    {
      var x :| x in t.invoices && x.id == k;
      var i :| 0 <= i < |t.invoices| && t.invoices[i] == x;
      assert invs[i] in invs;
    }
    forall x | x in invs
      ensures x.amount == SumLines(EntriesOfInvoice(t.entries, x.id))
    {
      var i :| 0 <= i < |invs| && invs[i] == x;
      assert t.invoices[i] in t.invoices;
    }
  }

  lemma SetPaidPaid(t: Tables, id: int, paid: Money, s: Status, pending: set<int>)
    requires PaidReconciledExcept(t, pending) && paid == SumPaid(PaymentsByInvoice(t.payments, id))
    ensures PaidReconciledExcept(t.(invoices := SetPaid(t.invoices, id, paid, s)), pending - {id})
  {
    var invs := SetPaid(t.invoices, id, paid, s);
    forall x | x in invs && x.id !in pending - {id}
      ensures x.amountPaid == SumPaid(PaymentsByInvoice(t.payments, x.id))
    {
      var i :| 0 <= i < |invs| && invs[i] == x;
      if x.id != id {
        assert t.invoices[i] in t.invoices;
      }
    }
  }

  /** Writing an invoice's paid amount as the sum of its payments, with any
      status, settles that invoice and keeps everything else consistent. */
  lemma SetPaidSettles(t: Tables, id: int, paid: Money, s: Status, pending: set<int>)
    requires Consistent(t) && PaidReconciledExcept(t, pending) && paid == SumPaid(PaymentsByInvoice(t.payments, id))
    ensures Consistent(t.(invoices := SetPaid(t.invoices, id, paid, s)))
    ensures PaidReconciledExcept(t.(invoices := SetPaid(t.invoices, id, paid, s)), pending - {id})
  {
    InvoiceKeysAfterRewrite(t, SetPaid(t.invoices, id, paid, s), (x: InvoiceRow) => if x.id == id then x.(amountPaid := paid, status := s) else x);
    SetPaidLinked(t, id, paid, s);
    SetPaidPaid(t, id, paid, s, pending);
  }

  /** `updateInvoicePaidAmount` settles the paid amount of the invoice it is
      given and keeps everything else consistent. */
  lemma UpdatePaidSettles(t: Tables, id: int, today: Date, pending: set<int>)
    requires Consistent(t) && PaidReconciledExcept(t, pending)
    ensures Consistent(UpdatePaid(t, id, today).tables)
    ensures PaidReconciledExcept(UpdatePaid(t, id, today).tables, pending - {id})
  {
    var found := FindInvoice(t.invoices, id);
    if found.None? {
      assert forall x :: x in t.invoices ==> x.id != id;
    } else {
      var paid := SumPaid(PaymentsByInvoice(t.payments, id));
      var s := PaidStatus(found.value, t.entries, paid, today);
      UpdatePaidIs(t, id, today, found.value, paid, s);
      SetPaidSettles(t, id, paid, s, pending);
    }
  }

  lemma {:induction false} FindAfterSetPaid(invs: seq<InvoiceRow>, id: int, paid: Money, s: Status)
    requires FindInvoice(invs, id).Some?
    ensures FindInvoice(SetPaid(invs, id, paid, s), id) == Some(FindInvoice(invs, id).value.(amountPaid := paid, status := s))
  {
    var r := SetPaid(invs, id, paid, s);
    if invs[0].id != id {
      assert r[1..] == SetPaid(invs[1..], id, paid, s);
      assert exists i :: 0 <= i < |invs[1..]| && invs[1..][i].id == id by {
        var i :| 0 <= i < |invs| && invs[i].id == id;
        assert invs[1..][i - 1].id == id;
      }
      FindAfterSetPaid(invs[1..], id, paid, s);
    }
  }

  /** Running `updateInvoicePaidAmount` twice on the same invoice is the
      same as running it once, so the second recomputation `recordPayment`
      makes after `createPayment` changes nothing. */
  lemma UpdatePaidIdempotent(t: Tables, id: int, today: Date)
    ensures UpdatePaid(UpdatePaid(t, id, today).tables, id, today).tables == UpdatePaid(t, id, today).tables
  {
    match FindInvoice(t.invoices, id)
    case None =>
    case Some(inv) =>
      var paid := SumPaid(PaymentsByInvoice(t.payments, id));
      var s := PaidStatus(inv, t.entries, paid, today);
      UpdatePaidIs(t, id, today, inv, paid, s);
      var u := t.(invoices := SetPaid(t.invoices, id, paid, s));
      FindAfterSetPaid(t.invoices, id, paid, s);
      NextStatusIdempotent(inv.status, SumLines(EntriesOfInvoice(t.entries, id)), paid, Some(inv.dueDate), today);
      UpdatePaidIs(u, id, today, inv.(amountPaid := paid, status := s), paid, s);
      assert SetPaid(u.invoices, id, paid, s) == u.invoices;
  }

  // ---------------------------------------------------------------- billing

  /** `createInvoiceFromUnbilledTimeEntries` bills exactly the case's
      unbilled entries to the new invoice and leaves every other entry as
      it was. */
  lemma BillMarksUnbilled(t: Tables, caseId: int, number: JStr, due: Option<Date>, today: Date, accepted: bool)
    requires EntryKeys(t)
    ensures var o := Bill(t, caseId, number, due, today, accepted);
            o.result.Some? ==>
              |o.tables.entries| == |t.entries| &&
              forall i :: 0 <= i < |t.entries| ==>
                o.tables.entries[i] ==
                  if t.entries[i].caseId == caseId && !t.entries[i].billed then Billed(t.entries[i], t.invoiceKey) else t.entries[i]
  {
    var o := Bill(t, caseId, number, due, today, accepted);
    if o.result.Some? {
      forall i | 0 <= i < |t.entries|
        ensures t.entries[i].id in Ids(UnbilledOfCase(t.entries, caseId)) <==> t.entries[i].caseId == caseId && !t.entries[i].billed
      {
        InUnbilledIds(t.entries, caseId, t.entries[i]);
      }
    }
  }

  lemma BillKeyed(t: Tables, caseId: int, number: JStr, due: Option<Date>, today: Date, accepted: bool)
    requires Keyed(t)
    ensures Keyed(Bill(t, caseId, number, due, today, accepted).tables)
  {
    var o := Bill(t, caseId, number, due, today, accepted);
    if o.result.Some? {
      BillMarksUnbilled(t, caseId, number, due, today, accepted);
      var key := t.invoiceKey;
      EntryKeysAfterRewrite(t, o.tables.entries, (e: EntryRow) => if e.caseId == caseId && !e.billed then Billed(e, key) else e);
      InvoiceKeysAfterInsert(t, o.result.value);
    }
  }

  lemma BillLinked(t: Tables, caseId: int, number: JStr, due: Option<Date>, today: Date, accepted: bool)
    requires EntryKeys(t) && Linked(t)
    ensures Linked(Bill(t, caseId, number, due, today, accepted).tables)
  {
    var o := Bill(t, caseId, number, due, today, accepted);
    if o.result.Some? {
      var u := o.tables;
      BillMarksUnbilled(t, caseId, number, due, today, accepted);
      assert HasInvoice(u.invoices, t.invoiceKey) by { assert o.result.value in u.invoices; }
      forall k | HasInvoice(t.invoices, k)
        ensures HasInvoice(u.invoices, k)
      {
        var x :| x in t.invoices && x.id == k;
        assert x in u.invoices;
      }
      forall e | e in u.entries
        ensures (e.billed <==> e.invoiceId.Some?) && (e.invoiceId.Some? ==> HasInvoice(u.invoices, e.invoiceId.value))
      {
        var i :| 0 <= i < |u.entries| && u.entries[i] == e;
        assert t.entries[i] in t.entries;
      }
    }
  }

  lemma BillAmounts(t: Tables, caseId: int, number: JStr, due: Option<Date>, today: Date, accepted: bool)
    requires Keyed(t) && Linked(t) && AmountsReconciled(t)
    ensures AmountsReconciled(Bill(t, caseId, number, due, today, accepted).tables)
  {
    var o := Bill(t, caseId, number, due, today, accepted);
    if o.result.Some? {
      var u := o.tables;
      var key := t.invoiceKey;
      BillMarksUnbilled(t, caseId, number, due, today, accepted);
      forall e | e in t.entries
        ensures e.invoiceId.Some? ==> e.invoiceId.value < key
      {
        if e.invoiceId.Some? {
          var x :| x in t.invoices && x.id == e.invoiceId.value;
        }
      }
      forall x | x in u.invoices
        ensures x.amount == SumLines(EntriesOfInvoice(u.entries, x.id))
      {
        if x == o.result.value {
          forall i | 0 <= i < |t.entries|
            ensures t.entries[i].caseId == caseId && !t.entries[i].billed <==> u.entries[i].invoiceId == Some(key)
          {
            assert t.entries[i] in t.entries;
          }
          SumOfUnbilledCorrespond(t.entries, u.entries, caseId, key);
        } else {
          assert x in t.invoices;
          forall i | 0 <= i < |t.entries|
            ensures t.entries[i].invoiceId == Some(x.id) <==> u.entries[i].invoiceId == Some(x.id)
          {
            assert t.entries[i] in t.entries;
          }
          SumOfInvoiceCorrespond(t.entries, u.entries, x.id, x.id);
        }
      }
    }
  }

  lemma BillPaid(t: Tables, caseId: int, number: JStr, due: Option<Date>, today: Date, accepted: bool)
    requires InvoiceKeys(t) && Linked(t) && PaidReconciledExcept(t, {})
    ensures PaidReconciledExcept(Bill(t, caseId, number, due, today, accepted).tables, {})
  {
    var o := Bill(t, caseId, number, due, today, accepted);
    if o.result.Some? {
      forall p | p in t.payments
        ensures p.invoiceId != t.invoiceKey
      {
        var x :| x in t.invoices && x.id == p.invoiceId;
      }
      NoPaymentsOf(t.payments, t.invoiceKey);
    }
  }

  /** Billing keeps the store reconciled: the new invoice's amount is the
      total of the entries now billed to it and nothing is paid on it. */
  lemma BillPreserves(t: Tables, caseId: int, number: JStr, due: Option<Date>, today: Date, accepted: bool)
    requires Reconciled(t)
    ensures Reconciled(Bill(t, caseId, number, due, today, accepted).tables)
  {
    BillKeyed(t, caseId, number, due, today, accepted);
    BillLinked(t, caseId, number, due, today, accepted);
    BillAmounts(t, caseId, number, due, today, accepted);
    BillPaid(t, caseId, number, due, today, accepted);
  }

  // ---------------------------------------------------------------- deletion

  /** Unbilling one invoice's entries leaves every other invoice's total as
      it was. */
  lemma UnbillKeepsOthers(es: seq<EntryRow>, id: int, k: int)
    requires k != id
    ensures SumLines(EntriesOfInvoice(UnbillInvoice(es, id), k)) == SumLines(EntriesOfInvoice(es, k))
  {
    SumOfInvoiceCorrespond(es, UnbillInvoice(es, id), k, k);
  }

  lemma DeleteInvoiceLinked(t: Tables, id: int)
    requires Linked(t)
    ensures Linked(DeleteInvoice(t, id).tables)
  {
    var u := DeleteInvoice(t, id).tables;
    if u != t {
      forall p | p in t.payments
        ensures p.invoiceId != id
      {
        assert p in PaymentsOfInvoice(t.payments, id) <==> p.invoiceId == id;
      }
      forall k | HasInvoice(t.invoices, k) && k != id
        ensures HasInvoice(u.invoices, k)
      {
        var x :| x in t.invoices && x.id == k;
        assert x in u.invoices;
      }
      forall e | e in u.entries
        ensures (e.billed <==> e.invoiceId.Some?) && (e.invoiceId.Some? ==> HasInvoice(u.invoices, e.invoiceId.value))
      {
        var i :| 0 <= i < |u.entries| && u.entries[i] == e;
        assert t.entries[i] in t.entries;
      }
    }
  }

  lemma DeleteInvoiceAmounts(t: Tables, id: int)
    requires AmountsReconciled(t) && PaidReconciledExcept(t, {})
    ensures AmountsReconciled(DeleteInvoice(t, id).tables) && PaidReconciledExcept(DeleteInvoice(t, id).tables, {})
  {
    var u := DeleteInvoice(t, id).tables;
    if u != t {
      forall x | x in u.invoices
        ensures x.amount == SumLines(EntriesOfInvoice(u.entries, x.id))
      {
        UnbillKeepsOthers(t.entries, id, x.id);
      }
    }
  }

  /** Deleting an invoice keeps the store reconciled: its entries become
      unbilled, and no payment can refer to it. */
  lemma DeleteInvoicePreserves(t: Tables, id: int)
    requires Reconciled(t)
    ensures Reconciled(DeleteInvoice(t, id).tables)
  {
    var u := DeleteInvoice(t, id).tables;
    if u != t {
      EntryKeysAfterRewrite(t, u.entries, (e: EntryRow) => if e.invoiceId == Some(id) then e.(billed := false, invoiceId := None) else e);
    }
    DeleteInvoiceLinked(t, id);
    DeleteInvoiceAmounts(t, id);
  }

  // ---------------------------------------------------------------- payments

  /** Appending a payment for an existing invoice keeps the store
      consistent. */
  lemma AddPaymentConsistent(t: Tables, row: PaymentRow)
    requires Consistent(t) && HasInvoice(t.invoices, row.invoiceId)
    ensures Consistent(AddPayment(t, row))
  {
    var u := AddPayment(t, row);
    assert forall q :: q in u.payments <==> q in t.payments || q == row.(id := t.paymentKey);
  }

  /** Appending a payment leaves every invoice but its own settled. */
  lemma AddPaymentPaid(t: Tables, row: PaymentRow)
    requires PaidReconciledExcept(t, {})
    ensures PaidReconciledExcept(AddPayment(t, row), {row.invoiceId})
  {
    var u := AddPayment(t, row);
    forall x | x in u.invoices && x.id != row.invoiceId
      ensures x.amountPaid == SumPaid(PaymentsByInvoice(u.payments, x.id))
    {
      PaymentsOfAfterAdd(t.payments, row.(id := t.paymentKey), x.id);
    }
  }

  /** Recording a payment for an existing invoice keeps the store
      reconciled. */
  lemma CreatePaymentPreserves(t: Tables, row: PaymentRow, today: Date, accepted: bool)
    requires Reconciled(t) && HasInvoice(t.invoices, row.invoiceId)
    ensures Reconciled(CreatePayment(t, row, today, accepted).tables)
  {
    if accepted {
      AddPaymentConsistent(t, row);
      AddPaymentPaid(t, row);
      UpdatePaidSettles(AddPayment(t, row), row.invoiceId, today, {row.invoiceId});
      assert {row.invoiceId} - {row.invoiceId} == {};
    }
  }

  /** Deleting a payment keeps the store reconciled. */
  lemma DeletePaymentPreserves(t: Tables, id: int, today: Date)
    requires Reconciled(t)
    ensures Reconciled(DeletePayment(t, id, today).tables)
  {
    match FindPayment(t.payments, id)
    case None =>
    case Some(p) =>
      var t1 := t.(payments := RemovePayment(t.payments, id));
      forall x | x in t1.invoices && x.id != p.invoiceId
        ensures x.amountPaid == SumPaid(PaymentsByInvoice(t1.payments, x.id))
      {
        PaymentsOfAfterRemove(t.payments, id, x.id);
      }
      UpdatePaidSettles(t1, p.invoiceId, today, {p.invoiceId});
      assert {p.invoiceId} - {p.invoiceId} == {};
  }

  // ---------------------------------------------------------------- the status of a partly paid invoice

  /** With unique invoice ids, the row `SetPaid` rewrites is the one with
      the id, with the paid amount and status written. */
  lemma SetPaidRow(invs: seq<InvoiceRow>, id: int, paid: Money, s: Status, inv: InvoiceRow)
    requires forall x, y :: x in invs && y in invs && x.id == y.id ==> x == y
    requires inv in invs && inv.id == id
    ensures forall x :: x in SetPaid(invs, id, paid, s) && x.id == id ==> x == inv.(amountPaid := paid, status := s)
  {
    var r := SetPaid(invs, id, paid, s);
    forall x | x in r && x.id == id
      ensures x == inv.(amountPaid := paid, status := s)
    {
      var i :| 0 <= i < |r| && r[i] == x;
      assert invs[i] in invs;
    }
  }

  /** `Invoice.updateStatus` run on a stored row would leave its status as
      it is: the status agrees with the row's own amount and paid amount. */
  predicate StatusAgrees(x: InvoiceRow, today: Date)
  {
    NextStatus(x.status, x.amount, x.amountPaid, Some(x.dueDate), today) == x.status
  }

  /** The status `updateInvoicePaidAmount` evidently means to write: the one
      `updateStatus` derives from the invoice's stored amount. */
  function StoredPaidStatus(inv: InvoiceRow, paid: Money, today: Date): (s: Status)
    ensures IsManual(inv.status) ==> s == inv.status
    ensures !IsManual(inv.status) ==> (s == Paid <==> paid >= inv.amount) && (s == PartiallyPaid <==> 0.0 < paid < inv.amount)
  {
    NextStatus(inv.status, inv.amount, paid, Some(inv.dueDate), today)
  }

  /** `updateInvoicePaidAmount` with the status derived from the stored
      amount instead of the total of the billed entries. */
  function UpdatePaidStored(t: Tables, id: int, today: Date): (o: Outcome<int>)
    ensures FindInvoice(t.invoices, id).None? ==> o == Outcome(t, 0)
    ensures FindInvoice(t.invoices, id).Some? ==> o.result > 0
    ensures o.tables == t.(invoices := o.tables.invoices) && |o.tables.invoices| == |t.invoices|
  {
    match FindInvoice(t.invoices, id)
    case None => Outcome(t, 0)
    case Some(inv) =>
      var paid := SumPaid(PaymentsByInvoice(t.payments, id));
      var n := Count(t.invoices, (x: InvoiceRow) => IsInvoice(id, x));
      assert inv in t.invoices;
      Outcome(t.(invoices := SetPaid(t.invoices, id, paid, StoredPaidStatus(inv, paid, today))), n)
  }

  /** After the corrected recomputation the invoice's paid amount is the sum
      of its payments and its status agrees with its stored amount. */
  lemma UpdatePaidStoredAgrees(t: Tables, id: int, today: Date)
    requires InvoiceKeys(t)
    ensures forall x :: x in UpdatePaidStored(t, id, today).tables.invoices && x.id == id ==>
              x.amountPaid == SumPaid(PaymentsByInvoice(t.payments, id)) && StatusAgrees(x, today)
  {
    var found := FindInvoice(t.invoices, id);
    if found.None? {
      assert forall x :: x in t.invoices ==> x.id != id;
    } else {
      var inv := found.value;
      var paid := SumPaid(PaymentsByInvoice(t.payments, id));
      NextStatusIdempotent(inv.status, inv.amount, paid, Some(inv.dueDate), today);
      SetPaidRow(t.invoices, id, paid, StoredPaidStatus(inv, paid, today), inv);
    }
  }

  /** The corrected recomputation settles the invoice and keeps the store
      consistent, like the one as written. */
  lemma UpdatePaidStoredSettles(t: Tables, id: int, today: Date, pending: set<int>)
    requires Consistent(t) && PaidReconciledExcept(t, pending)
    ensures Consistent(UpdatePaidStored(t, id, today).tables)
    ensures PaidReconciledExcept(UpdatePaidStored(t, id, today).tables, pending - {id})
  {
    var found := FindInvoice(t.invoices, id);
    if found.None? {
      assert forall x :: x in t.invoices ==> x.id != id;
    } else {
      var paid := SumPaid(PaymentsByInvoice(t.payments, id));
      SetPaidSettles(t, id, paid, StoredPaidStatus(found.value, paid, today), pending);
    }
  }

  /** While every invoice's amount is the total of its billed entries, the
      recomputation as written and the corrected one coincide. */
  lemma UpdatePaidAgreesWhenReconciled(t: Tables, id: int, today: Date)
    requires AmountsReconciled(t)
    ensures UpdatePaid(t, id, today) == UpdatePaidStored(t, id, today)
  {
    match FindInvoice(t.invoices, id)
    case None =>
    case Some(inv) =>
      assert inv in t.invoices;
      var paid := SumPaid(PaymentsByInvoice(t.payments, id));
      UpdatePaidIs(t, id, today, inv, paid, StoredPaidStatus(inv, paid, today));
  }

  /** `createInvoice` stores the amount it is given whatever entries it
      lists: with no entries and a non-zero amount the new invoice's amount
      is not the total of its billed entries. */
  lemma CreateInvoiceUnbilledAmount(t: Tables, row: InvoiceRow)
    requires Consistent(t) && row.amount != 0.0
    ensures var u := CreateInvoice(t, row, [], true).tables;
            row.(id := t.invoiceKey) in u.invoices && EntriesOfInvoice(u.entries, t.invoiceKey) == [] &&
            !AmountsReconciled(u)
  {
    var u := CreateInvoice(t, row, [], true).tables;
    assert u.entries == t.entries;
    forall e | e in t.entries
      ensures e.invoiceId != Some(t.invoiceKey)
    {
      if e.invoiceId.Some? {
        var x :| x in t.invoices && x.id == e.invoiceId.value;
      }
    }
    NoEntriesOf(t.entries, t.invoiceKey);
    assert row.(id := t.invoiceKey) in u.invoices;
  }

  /** As written, an invoice with no billed entries is marked Paid by any
      positive payment, though less than its amount has been paid, and the
      status it is given disagrees with its own amount. */
  lemma UpdatePaidMarksPartPaymentPaid(t: Tables, id: int, today: Date, inv: InvoiceRow)
    requires InvoiceKeys(t) && FindInvoice(t.invoices, id) == Some(inv) && !IsManual(inv.status)
    requires EntriesOfInvoice(t.entries, id) == []
    requires 0.0 < SumPaid(PaymentsByInvoice(t.payments, id)) < inv.amount
    ensures forall x :: x in UpdatePaid(t, id, today).tables.invoices && x.id == id ==>
              x.status == Paid && x.amountPaid < x.amount && !StatusAgrees(x, today)
  {
    var paid := SumPaid(PaymentsByInvoice(t.payments, id));
    var s := PaidStatus(inv, t.entries, paid, today);
    assert s == Paid;
    UpdatePaidIs(t, id, today, inv, paid, s);
    SetPaidRow(t.invoices, id, paid, s, inv);
  }

  // ---------------------------------------------------------------- moving a payment to another invoice

  /** `updatePayment` as evidently intended: the invoice the payment leaves
      and the invoice it now names are both recomputed. */
  function UpdatePaymentBoth(t: Tables, row: PaymentRow, today: Date): (o: Outcome<int>)
    ensures o.result == Count(t.payments, (p: PaymentRow) => IsPayment(row.id, p))
    ensures o.result == 0 ==> o.tables == t
  {
    match FindPayment(t.payments, row.id)
    case None =>
      assert forall q :: q in t.payments ==> q.id != row.id;
      Outcome(t, 0)
    case Some(p) =>
      var n := Count(t.payments, (q: PaymentRow) => IsPayment(row.id, q));
      assert p in t.payments;
      var t1 := t.(payments := ReplacePayment(t.payments, row));
      var t2 := UpdatePaid(t1, p.invoiceId, today).tables;
      Outcome(UpdatePaid(t2, row.invoiceId, today).tables, n)
  }

  /** A payment row overwritten in place is that row or a row of another
      payment. */
  lemma ReplacedRows(ps: seq<PaymentRow>, row: PaymentRow)
    ensures forall q :: q in ReplacePayment(ps, row) ==> q == row || (q in ps && q.id != row.id)
  {
    var r := ReplacePayment(ps, row);
    forall q | q in r
      ensures q == row || (q in ps && q.id != row.id)
    {
      var i :| 0 <= i < |r| && r[i] == q;
      assert ps[i] in ps;
    }
  }

  /** A payment row overwritten in place: the store stays consistent and
      only the two invoices involved await a recomputation. */
  lemma ReplacePaymentConsistent(t: Tables, row: PaymentRow, p: PaymentRow)
    requires Reconciled(t) && HasInvoice(t.invoices, row.invoiceId) && p in t.payments && p.id == row.id
    ensures var t1 := t.(payments := ReplacePayment(t.payments, row));
            Consistent(t1) && PaidReconciledExcept(t1, {p.invoiceId, row.invoiceId})
  {
    ReplacedRows(t.payments, row);
    ReplacePaymentPaid(t, row, p);
  }

  lemma ReplacePaymentPaid(t: Tables, row: PaymentRow, p: PaymentRow)
    requires PaymentKeys(t) && PaidReconciledExcept(t, {}) && p in t.payments && p.id == row.id
    ensures PaidReconciledExcept(t.(payments := ReplacePayment(t.payments, row)), {p.invoiceId, row.invoiceId})
  {
    forall x | x in t.invoices && x.id !in {p.invoiceId, row.invoiceId}
      ensures x.amountPaid == SumPaid(PaymentsByInvoice(ReplacePayment(t.payments, row), x.id))
    {
      PaymentsOfAfterReplace(t.payments, row, x.id);
    }
  }

  /** The corrected `updatePayment` keeps the store reconciled when the
      payment is moved to an existing invoice. */
  lemma UpdatePaymentBothPreserves(t: Tables, row: PaymentRow, today: Date)
    requires Reconciled(t) && HasInvoice(t.invoices, row.invoiceId)
    ensures Reconciled(UpdatePaymentBoth(t, row, today).tables)
  {
    match FindPayment(t.payments, row.id)
    case None =>
    case Some(p) =>
      var pending := {p.invoiceId, row.invoiceId};
      var t1 := t.(payments := ReplacePayment(t.payments, row));
      ReplacePaymentConsistent(t, row, p);
      UpdatePaidSettles(t1, p.invoiceId, today, pending);
      var t2 := UpdatePaid(t1, p.invoiceId, today).tables;
      UpdatePaidSettles(t2, row.invoiceId, today, pending - {p.invoiceId});
      assert pending - {p.invoiceId} - {row.invoiceId} == {};
  }

  /** The sum of a single payment is its amount. */
  lemma SinglePaymentSum(ps: seq<PaymentRow>, k: int, p: PaymentRow)
    requires PaymentsOfInvoice(ps, k) == [p]
    ensures SumPaid(PaymentsByInvoice(ps, k)) == p.amount
  {
    var r := PaymentsByInvoice(ps, k);
    assert r[0] in multiset(r);
    assert r == [p];
    assert r[..0] == [];
  }

  /** As written, moving an invoice's only payment to another invoice
      leaves the paid amount of the first invoice at the moved amount,
      though no payment of it remains. */
  lemma UpdatePaymentLeavesOldInvoiceStale(t: Tables, row: PaymentRow, today: Date, p: PaymentRow)
    requires Reconciled(t) && p in t.payments && p.id == row.id && p.invoiceId != row.invoiceId
    requires PaymentsOfInvoice(t.payments, p.invoiceId) == [p] && p.amount != 0.0
    ensures !PaidReconciledExcept(UpdatePayment(t, row, today).tables, {})
  {
    var a := p.invoiceId;
    var x :| x in t.invoices && x.id == a;
    SinglePaymentSum(t.payments, a, p);
    UpdatePaymentOverwrites(t, row, today, p);
    MovedPaymentLeaves(t.payments, row, p);
    StaleRow(t.(payments := ReplacePayment(t.payments, row)), row.invoiceId, today, x);
  }

  /** `updatePayment` on an existing payment overwrites it and recomputes
      the invoice it now names. */
  lemma UpdatePaymentOverwrites(t: Tables, row: PaymentRow, today: Date, p: PaymentRow)
    requires p in t.payments && p.id == row.id
    ensures UpdatePayment(t, row, today).tables == UpdatePaid(t.(payments := ReplacePayment(t.payments, row)), row.invoiceId, today).tables
  {
    assert IsPayment(row.id, p);
  }

  /** An invoice other than the one recomputed keeps its row. */
  lemma StaleRow(t: Tables, id: int, today: Date, x: InvoiceRow)
    requires x in t.invoices && x.id != id
    ensures x in UpdatePaid(t, id, today).tables.invoices
  {
    var i :| 0 <= i < |t.invoices| && t.invoices[i] == x;
    assert UpdatePaid(t, id, today).tables.invoices[i] == x;
  }

  /** Once an invoice's only payment is moved elsewhere, nothing is paid on
      it. */
  lemma MovedPaymentLeaves(ps: seq<PaymentRow>, row: PaymentRow, p: PaymentRow)
    requires PaymentsOfInvoice(ps, p.invoiceId) == [p] && p.id == row.id && p.invoiceId != row.invoiceId
    ensures SumPaid(PaymentsByInvoice(ReplacePayment(ps, row), p.invoiceId)) == 0.0
  {
    var r := ReplacePayment(ps, row);
    forall q | q in r
      ensures q.invoiceId != p.invoiceId
    {
      var i :| 0 <= i < |r| && r[i] == q;
      assert ps[i] in ps;
      assert ps[i].invoiceId == p.invoiceId ==> ps[i] in PaymentsOfInvoice(ps, p.invoiceId);
    }
    NoPaymentsOf(r, p.invoiceId);
  }

  // ---------------------------------------------------------------- recomputing on a separate connection

  /** A payment statement whose nested `updateInvoicePaidAmount` runs on a
      connection of its own before the statement's transaction commits.
      Under MySQL's default isolation that connection reads the committed
      store `t`, so the invoice is recomputed from the payments as they were
      before the statement; `u` is the store the statement itself leaves. */
  function CommittedRecompute(t: Tables, u: Tables, id: int, today: Date): Tables
  {
    u.(invoices := UpdatePaid(t, id, today).tables.invoices)
  }

  /** `InvoiceController.deletePayment` when the recompute nested in
      `PaymentDao.deletePayment` reads the committed store: the payment is
      removed and nothing is recomputed after the commit. */
  function DeletePaymentCommitted(t: Tables, id: int, today: Date): (o: Outcome<int>)
    ensures FindPayment(t.payments, id).None? ==> o == Outcome(t, 0)
    ensures FindPayment(t.payments, id).Some? ==>
              o.result > 0 && o.tables.payments == RemovePayment(t.payments, id) && o.tables.entries == t.entries
  {
    match FindPayment(t.payments, id)
    case None => Outcome(t, 0)
    case Some(p) =>
      var n := Count(t.payments, (q: PaymentRow) => IsPayment(id, q));
      assert p in t.payments;
      Outcome(CommittedRecompute(t, t.(payments := RemovePayment(t.payments, id)), p.invoiceId, today), n)
  }

  /** `InvoiceController.deletePayment` as evidently intended: the invoice
      the payment belonged to is recomputed once more after the commit, as
      `recordPayment` does after `createPayment`. */
  function DeletePaymentRecomputed(t: Tables, id: int, today: Date): (o: Outcome<int>)
    ensures o.result == DeletePaymentCommitted(t, id, today).result
    ensures FindPayment(t.payments, id).None? ==> o == Outcome(t, 0)
  {
    var o := DeletePaymentCommitted(t, id, today);
    match FindPayment(t.payments, id)
    case None => o
    case Some(p) => Outcome(UpdatePaid(o.tables, p.invoiceId, today).tables, o.result)
  }

  /** `InvoiceController.recordPayment` when the recompute nested in
      `createPayment` reads the committed store: the recompute after the
      commit is the one that sees the new payment. */
  function RecordPaymentCommitted(t: Tables, row: PaymentRow, today: Date, accepted: bool): (o: Outcome<int>)
    ensures !accepted ==> o == Outcome(t, 0)
    ensures accepted ==> o.result == 1 && o.tables.payments == t.payments + [row.(id := t.paymentKey)]
  {
    if !accepted then Outcome(t, 0)
    else
      var u := AddPayment(t, row);
      Outcome(UpdatePaid(CommittedRecompute(t, u, row.invoiceId, today), row.invoiceId, today).tables, 1)
  }

  /** Writing any paid amount and status to an invoice keeps the store
      consistent. */
  lemma SetPaidConsistent(t: Tables, id: int, paid: Money, s: Status)
    requires Consistent(t)
    ensures Consistent(t.(invoices := SetPaid(t.invoices, id, paid, s)))
  {
    InvoiceKeysAfterRewrite(t, SetPaid(t.invoices, id, paid, s), (x: InvoiceRow) => if x.id == id then x.(amountPaid := paid, status := s) else x);
    SetPaidLinked(t, id, paid, s);
  }

  /** Writing any paid amount and status to an invoice whose paid amount is
      pending anyway keeps every other invoice settled. */
  lemma SetPaidPending(t: Tables, id: int, paid: Money, s: Status, pending: set<int>)
    requires PaidReconciledExcept(t, pending) && id in pending
    ensures PaidReconciledExcept(t.(invoices := SetPaid(t.invoices, id, paid, s)), pending)
  {
    var invs := SetPaid(t.invoices, id, paid, s);
    forall x | x in invs && x.id !in pending
      ensures x.amountPaid == SumPaid(PaymentsByInvoice(t.payments, x.id))
    {
      var i :| 0 <= i < |invs| && invs[i] == x;
      assert t.invoices[i] in t.invoices;
    }
  }

  /** A recompute that read the committed store leaves the invoice pending;
      recomputing it once more after the commit settles the store. */
  lemma CommittedRecomputeSettles(t: Tables, u: Tables, id: int, today: Date)
    requires Consistent(u) && PaidReconciledExcept(u, {id}) && u.invoices == t.invoices
    ensures Reconciled(UpdatePaid(CommittedRecompute(t, u, id, today), id, today).tables)
  {
    var v := CommittedRecompute(t, u, id, today);
    match FindInvoice(t.invoices, id)
    case None =>
      assert v == u;
      UpdatePaidSettles(u, id, today, {id});
      assert {id} - {id} == {};
    case Some(inv) =>
      var paid := SumPaid(PaymentsByInvoice(t.payments, id));
      var s := PaidStatus(inv, t.entries, paid, today);
      UpdatePaidIs(t, id, today, inv, paid, s);
      assert v == u.(invoices := SetPaid(u.invoices, id, paid, s));
      SetPaidConsistent(u, id, paid, s);
      SetPaidPending(u, id, paid, s, {id});
      UpdatePaidSettles(v, id, today, {id});
      assert {id} - {id} == {};
  }

  /** Removing an invoice's only payment leaves nothing paid on it. */
  lemma RemovedPaymentLeaves(ps: seq<PaymentRow>, p: PaymentRow)
    requires PaymentsOfInvoice(ps, p.invoiceId) == [p]
    ensures SumPaid(PaymentsByInvoice(RemovePayment(ps, p.id), p.invoiceId)) == 0.0
  {
    forall q | q in RemovePayment(ps, p.id)
      ensures q.invoiceId != p.invoiceId
    {
      assert q in ps && q.id != p.id;
    }
    NoPaymentsOf(RemovePayment(ps, p.id), p.invoiceId);
  }

  /** When the nested recompute reads the committed store, the invoice a
      deleted payment belonged to keeps the paid amount it had with the
      payment. */
  lemma DeleteCommittedPaid(t: Tables, id: int, today: Date, p: PaymentRow)
    requires FindPayment(t.payments, id) == Some(p) && FindInvoice(t.invoices, p.invoiceId).Some?
    ensures var v := DeletePaymentCommitted(t, id, today).tables;
            FindInvoice(v.invoices, p.invoiceId).Some? &&
            FindInvoice(v.invoices, p.invoiceId).value.amountPaid == SumPaid(PaymentsByInvoice(t.payments, p.invoiceId))
  {
    var a := p.invoiceId;
    var inv := FindInvoice(t.invoices, a).value;
    var paid := SumPaid(PaymentsByInvoice(t.payments, a));
    var s := PaidStatus(inv, t.entries, paid, today);
    UpdatePaidIs(t, a, today, inv, paid, s);
    FindAfterSetPaid(t.invoices, a, paid, s);
  }

  /** As written, deleting an invoice's only payment leaves its paid amount
      at the deleted amount when the nested recompute reads the committed
      store, since `InvoiceController.deletePayment` recomputes nothing
      after the commit. */
  lemma DeletePaymentCommittedLeavesStale(t: Tables, id: int, today: Date, p: PaymentRow)
    requires PaymentKeys(t) && p in t.payments && p.id == id && HasInvoice(t.invoices, p.invoiceId)
    requires PaymentsOfInvoice(t.payments, p.invoiceId) == [p] && p.amount != 0.0
    ensures !PaidReconciledExcept(DeletePaymentCommitted(t, id, today).tables, {})
  {
    var x :| x in t.invoices && x.id == p.invoiceId;
    var i :| 0 <= i < |t.invoices| && t.invoices[i] == x;
    var k :| 0 <= k < |t.payments| && t.payments[k] == p;
    assert FindPayment(t.payments, id) == Some(p);
    DeleteCommittedPaid(t, id, today, p);
    SinglePaymentSum(t.payments, p.invoiceId, p);
    RemovedPaymentLeaves(t.payments, p);
    var v := DeletePaymentCommitted(t, id, today).tables;
    var y := FindInvoice(v.invoices, p.invoiceId).value;
    assert y in v.invoices && y.amountPaid != SumPaid(PaymentsByInvoice(v.payments, y.id));
  }

  /** Recomputing after the commit, deleting a payment keeps the store
      reconciled whatever the nested recompute read. */
  lemma DeletePaymentRecomputedPreserves(t: Tables, id: int, today: Date)
    requires Reconciled(t)
    ensures Reconciled(DeletePaymentRecomputed(t, id, today).tables)
  {
    match FindPayment(t.payments, id)
    case None =>
    case Some(p) =>
      var u := t.(payments := RemovePayment(t.payments, id));
      forall x | x in u.invoices && x.id != p.invoiceId
        ensures x.amountPaid == SumPaid(PaymentsByInvoice(u.payments, x.id))
      {
        PaymentsOfAfterRemove(t.payments, id, x.id);
      }
      CommittedRecomputeSettles(t, u, p.invoiceId, today);
  }

  /** `recordPayment` keeps the store reconciled even when the recompute
      nested in `createPayment` reads the committed store, because it
      recomputes once more after the commit. */
  lemma RecordPaymentCommittedPreserves(t: Tables, row: PaymentRow, today: Date, accepted: bool)
    requires Reconciled(t) && HasInvoice(t.invoices, row.invoiceId)
    ensures Reconciled(RecordPaymentCommitted(t, row, today, accepted).tables)
  {
    if accepted {
      AddPaymentConsistent(t, row);
      AddPaymentPaid(t, row);
      CommittedRecomputeSettles(t, AddPayment(t, row), row.invoiceId, today);
    }
  }
}
