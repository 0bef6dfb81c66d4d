/** The invoice status state machine of `Invoice.updateStatus` and the
    money rules beside it (`getAmount`, `getBalance`, `isFullyPaid`,
    `isOverdue`). */
module Billing {
  import opened Common

  /** The status column of an invoice: the six constants of `Invoice`, or
      any other stored text as `Other`. */
  datatype StatusName = Draft | Issued | PartiallyPaid | Paid | Overdue | Cancelled | Other(text: string)

  /** A status is well formed when an `Other` never spells one of the six:
      the source compares status strings with `equals`, so the text "Draft"
      is Draft wherever it is stored. */
  predicate WellFormed(s: StatusName)
  {
    s.Other? ==> s.text !in CanonicalTexts()
  }

  type Status = s: StatusName | WellFormed(s) witness Draft

  function CanonicalTexts(): set<string>
  {
    {"Draft", "Issued", "Partially Paid", "Paid", "Overdue", "Cancelled"}
  }

  function StatusText(s: Status): string
  {
    match s
    case Draft => "Draft"
    case Issued => "Issued"
    case PartiallyPaid => "Partially Paid"
    case Paid => "Paid"
    case Overdue => "Overdue"
    case Cancelled => "Cancelled"
    case Other(t) => t
  }

  /** The status a stored string denotes. */
  function ParseStatus(t: string): (s: Status)
    ensures StatusText(s) == t
    ensures s.Other? <==> t !in CanonicalTexts()
  {
    if t == "Draft" then Draft
    else if t == "Issued" then Issued
    else if t == "Partially Paid" then PartiallyPaid
    else if t == "Paid" then Paid
    else if t == "Overdue" then Overdue
    else if t == "Cancelled" then Cancelled
    else Other(t)
  }

  /** Writing a status and reading it back gives the same status. */
  lemma StatusTextRoundTrip(s: Status)
    ensures ParseStatus(StatusText(s)) == s
  {
  }

  /** `Draft` and `Cancelled` are only ever set by hand. */
  predicate IsManual(s: Status)
  {
    s == Draft || s == Cancelled
  }

  /** `Invoice.isFullyPaid`: amount paid equals or exceeds the amount. */
  predicate IsFullyPaid(amount: Money, paid: Money)
  {
    paid >= amount
  }

  /** `Invoice.getBalance`: amount minus amount paid, with no cap. */
  function Balance(amount: Money, paid: Money): (b: Money)
    ensures b < 0.0 <==> paid > amount
    ensures b > 0.0 <==> !IsFullyPaid(amount, paid)
  {
    amount - paid
  }

  /** `Invoice.isOverdue` for a known due date. */
  predicate IsOverdue(status: Status, amount: Money, paid: Money, due: Date, today: Date)
  {
    due < today && !IsFullyPaid(amount, paid) && status != Cancelled
  }

  /** `updateStatus` dereferences the due date only when it reaches the
      overdue test; everywhere else a null due date is harmless. */
  predicate Derivable(status: Status, amount: Money, paid: Money, due: Option<Date>)
  {
    IsManual(status) || IsFullyPaid(amount, paid) || paid > 0.0 || due.Some?
  }

  /** `Invoice.updateStatus`: the status after re-derivation. */
  function NextStatus(status: Status, amount: Money, paid: Money, due: Option<Date>, today: Date): (r: Status)
    requires Derivable(status, amount, paid, due)
    ensures IsManual(status) ==> r == status
    ensures !IsManual(status) ==> (r == Paid <==> paid >= amount)
    ensures !IsManual(status) ==> (r == PartiallyPaid <==> 0.0 < paid < amount)
    ensures !IsManual(status) ==> (r == Overdue <==> paid <= 0.0 && paid < amount && due.value < today)
    ensures !IsManual(status) ==> (r == Issued <==> paid <= 0.0 && paid < amount && today <= due.value)
    ensures !IsManual(status) ==> r in {Paid, PartiallyPaid, Overdue, Issued}
  {
    if IsManual(status) then status
    else if IsFullyPaid(amount, paid) then Paid
    else if paid > 0.0 then PartiallyPaid
    else if IsOverdue(status, amount, paid, due.value, today) then Overdue
    else Issued
  }

  /** Re-deriving never needs the due date when the first derivation did not. */
  lemma DerivableAgain(status: Status, amount: Money, paid: Money, due: Option<Date>, today: Date)
    requires Derivable(status, amount, paid, due)
    ensures Derivable(NextStatus(status, amount, paid, due, today), amount, paid, due)
  {
  }

  /** `updateStatus` is idempotent for fixed amounts and a fixed today. */
  lemma NextStatusIdempotent(status: Status, amount: Money, paid: Money, due: Option<Date>, today: Date)
    requires Derivable(status, amount, paid, due)
    ensures var s := NextStatus(status, amount, paid, due, today);
            Derivable(s, amount, paid, due) && NextStatus(s, amount, paid, due, today) == s
  {
  }

  /** Only the last derivation counts: a status derived from earlier amounts
      is overwritten by the next derivation, unless it is manual, and a
      derivation never produces a manual status from a derived one. */
  lemma NextStatusAbsorbs(status: Status, a1: Money, p1: Money, a2: Money, p2: Money, due: Option<Date>, today: Date)
    requires Derivable(status, a1, p1, due) && Derivable(status, a2, p2, due)
    ensures var s := NextStatus(status, a1, p1, due, today);
            Derivable(s, a2, p2, due) && NextStatus(s, a2, p2, due, today) == NextStatus(status, a2, p2, due, today)
  {
  }

  /** `TimeEntry.getAmount`: rate times hours, or zero when no rate is set. */
  function LineAmount(rate: Option<Money>, hours: real): (a: Money)
    ensures rate.None? || hours == 0.0 ==> a == 0.0
    ensures rate.Some? && rate.value >= 0.0 && hours >= 0.0 ==> a >= 0.0
  {
    match rate
    case None => 0.0
    case Some(r) => r * hours
  }
}
