/** The entity classes of `model`: time entries, invoices and payments,
    and the case, attorney, client, event and document objects they link
    to. Fields the source updates in place are class fields; references
    between objects are nullable fields, compared by identity (none of the
    classes overrides `equals`). Only the fields the modelled behaviour
    touches are kept. */
module Model {
  import opened Common
  import opened Billing
  import Text

  /** Days from issue to due date on a new invoice. */
  const DefaultTermDays := 30

  // ---------------------------------------------------------------- time entry

  /** `model.TimeEntry`: hours worked on a case by an attorney. */
  class TimeEntry {
    var id: int
    var entryId: JStr
    var caseId: int
    var legalCase: Case?
    var attorneyId: int
    var attorney: Attorney?
    var entryDate: Option<Date>
    var hours: real
    var description: JStr
    var activityCode: JStr
    var hourlyRate: Option<Money>
    var billed: bool
    var invoiceId: int

    /** `new TimeEntry()`: dated today and unbilled. */
    constructor (today: Date)
      ensures entryDate == Some(today) && !billed && invoiceId == 0
      ensures hourlyRate.None? && legalCase == null && attorney == null
    {
      id := 0;
      entryId := None;
      caseId := 0;
      legalCase := null;
      attorneyId := 0;
      attorney := null;
      entryDate := Some(today);
      hours := 0.0;
      description := None;
      activityCode := None;
      hourlyRate := None;
      billed := false;
      invoiceId := 0;
    }

    /** `getAmount`: zero without a rate, otherwise rate times hours. */
    function Amount(): (a: Money)
      reads this
      ensures hourlyRate.None? ==> a == 0.0
      ensures hourlyRate.Some? ==> a == hourlyRate.value * hours
    {
      LineAmount(hourlyRate, hours)
    }

    /** `setInvoiceId`: a positive invoice id also marks the entry billed;
        any other id leaves the billed flag as it was. */
    method SetInvoiceId(invoice: int)
      modifies this`invoiceId, this`billed
      ensures invoiceId == invoice
      ensures billed == (old(billed) || invoice > 0)
    {
      invoiceId := invoice;
      if invoice > 0 {
        billed := true;
      }
    }

    /** `setCase`: links the case and, when it is not null, copies its id. */
    method SetCase(c: Case?)
      modifies this`legalCase, this`caseId
      ensures legalCase == c
      ensures caseId == if c != null then c.id else old(caseId)
    {
      legalCase := c;
      if c != null {
        caseId := c.id;
      }
    }

    /** `setAttorney`: links the attorney, copies its id, and takes its rate
        only when this entry has no rate of its own. */
    method SetAttorney(a: Attorney?)
      modifies this`attorney, this`attorneyId, this`hourlyRate
      ensures attorney == a
      ensures a == null ==> attorneyId == old(attorneyId) && hourlyRate == old(hourlyRate)
      ensures a != null ==> attorneyId == a.id
      ensures a != null && old(hourlyRate).None? ==> hourlyRate == Some(a.hourlyRate)
      ensures old(hourlyRate).Some? ==> hourlyRate == old(hourlyRate)
    {
      attorney := a;
      if a != null {
        attorneyId := a.id;
        if hourlyRate.None? {
          hourlyRate := Some(a.hourlyRate);
        }
      }
    }
  }

  /** The sum of `getAmount` over `es`, accumulated from the front as the
      source's loops do. */
  function EntriesTotal(es: seq<TimeEntry>): Money
    reads set e | e in es
  {
    if es == [] then 0.0 else EntriesTotal(es[..|es| - 1]) + es[|es| - 1].Amount()
  }

  /** The sum of `getHours` over `es`. */
  function HoursTotal(es: seq<TimeEntry>): real
    reads set e | e in es
  {
    if es == [] then 0.0 else HoursTotal(es[..|es| - 1]) + es[|es| - 1].hours
  }

  /** Changing anything but the rate and the hours of the entries leaves
      their total unchanged. */
  twostate lemma {:induction false} EntriesTotalUnchanged(es: seq<TimeEntry>)
    requires forall e :: e in es ==> old(e.hourlyRate) == e.hourlyRate && old(e.hours) == e.hours
    ensures EntriesTotal(es) == old(EntriesTotal(es))
  {
    if es != [] {
      EntriesTotalUnchanged(es[..|es| - 1]);
    }
  }

  twostate lemma {:induction false} HoursTotalUnchanged(es: seq<TimeEntry>)
    requires forall e :: e in es ==> old(e.hours) == e.hours
    ensures HoursTotal(es) == old(HoursTotal(es))
  {
    if es != [] {
      HoursTotalUnchanged(es[..|es| - 1]);
    }
  }

  // ---------------------------------------------------------------- payment

  /** `model.Payment`: cash received against one invoice. */
  class Payment {
    var id: int
    var paymentId: JStr
    var invoiceId: int
    var invoice: Invoice?
    var clientId: int
    var client: Client?
    var paymentDate: Option<Date>
    var amount: Money
    var paymentMethod: JStr
    var reference: JStr
    var notes: JStr

    /** `new Payment()`: dated today, attached to nothing. */
    constructor (today: Date)
      ensures paymentDate == Some(today) && invoice == null && client == null
      ensures paymentId.None? && invoiceId == 0
    {
      id := 0;
      paymentId := None;
      invoiceId := 0;
      invoice := null;
      clientId := 0;
      client := null;
      paymentDate := Some(today);
      amount := 0.0;
      paymentMethod := None;
      reference := None;
      notes := None;
    }

    /** `setInvoice`: a non-null invoice also gives its id and its client. */
    method SetInvoice(inv: Invoice?)
      modifies this`invoice, this`invoiceId, this`clientId
      ensures invoice == inv
      ensures inv != null ==> invoiceId == inv.id && clientId == inv.clientId
      ensures inv == null ==> invoiceId == old(invoiceId) && clientId == old(clientId)
    {
      invoice := inv;
      if inv != null {
        invoiceId := inv.id;
        clientId := inv.clientId;
      }
    }

    /** `setClient`: a non-null client also gives its id. */
    method SetClient(c: Client?)
      modifies this`client, this`clientId
      ensures client == c
      ensures clientId == if c != null then c.id else old(clientId)
    {
      client := c;
      if c != null {
        clientId := c.id;
      }
    }

    /** `setAmount`: when an invoice is attached, its paid amount is summed
        again over its payment list and its status re-derived; nothing else
        of the invoice changes. */
    method SetAmount(a: Money, today: Date)
      requires invoice != null ==> invoice.DueDateSafe()
      modifies this`amount, {invoice}`amountPaid, {invoice}`status
      ensures amount == a
      ensures invoice != null ==>
                invoice.amountPaid == PaymentsTotal(invoice.payments) &&
                invoice.status == NextStatus(old(invoice.status), invoice.amount, invoice.amountPaid, invoice.dueDate, today)
    {
      amount := a;
      if invoice != null {
        invoice.RecalculateAmountPaid(today);
      }
    }

    /** `getDisplayText`: method, amount and date, followed by
        " (Ref: reference)" only when there is a non-empty reference. Dates
        and amounts are rendered by the given functions (`toString` of
        `LocalDate` and `BigDecimal`). */
    function DisplayText(money: Money -> string, day: Date -> string): (r: string)
      reads this
      ensures HasText(reference) ==> r == PlainText(money, day) + " (Ref: " + reference.value + ")"
      ensures !HasText(reference) ==> r == PlainText(money, day)
      ensures Render(paymentMethod) <= r
    {
      PlainText(money, day) + (if HasText(reference) then " (Ref: " + reference.value + ")" else "")
    }

    /** The display text without the reference part. */
    function PlainText(money: Money -> string, day: Date -> string): (r: string)
      reads this
      ensures r == Render(paymentMethod) + " payment of " + money(amount) + " on " + DayText(paymentDate, day)
    {
      Render(paymentMethod) + " payment of " + money(amount) + " on " + DayText(paymentDate, day)
    }
  }

  /** A date as string concatenation renders it: "null" when it is null. */
  function DayText(d: Option<Date>, day: Date -> string): string
  {
    match d
    case None => "null"
    case Some(x) => day(x)
  }

  /** The reference can be read back from the display text, between
      " (Ref: " and the closing parenthesis. */
  lemma DisplayTextReference(p: Payment, money: Money -> string, day: Date -> string)
    requires HasText(p.reference)
    ensures var r := p.DisplayText(money, day);
            var n := |p.PlainText(money, day)| + |" (Ref: "|;
            n < |r| && r[n..|r| - 1] == p.reference.value && r[|r| - 1] == ')'
  {
  }

  /** The sum of the amounts of `ps`, accumulated from the front. */
  function PaymentsTotal(ps: seq<Payment>): Money
    reads set p | p in ps
  {
    if ps == [] then 0.0 else PaymentsTotal(ps[..|ps| - 1]) + ps[|ps| - 1].amount
  }

  // ---------------------------------------------------------------- invoice

  /** `model.Invoice`: a bill for the time entries of one case, with the
      payments received against it. `amount`, `amountPaid` and `status` are
      kept in step by the methods below. */
  class Invoice {
    var id: int
    var invoiceNumber: JStr
    var clientId: int
    var caseId: int
    var issueDate: Option<Date>
    var dueDate: Option<Date>
    var amount: Money
    var amountPaid: Money
    var status: Status
    var notes: JStr
    var timeEntries: seq<TimeEntry>
    var payments: seq<Payment>

    /** `new Invoice()`: an empty draft issued today and due in 30 days. */
    constructor (today: Date)
      ensures timeEntries == [] && payments == []
      ensures issueDate == Some(today) && dueDate == Some(today + DefaultTermDays)
      ensures amount == 0.0 && amountPaid == 0.0 && status == Draft
      ensures id == 0 && invoiceNumber.None? && notes.None?
    {
      id := 0;
      invoiceNumber := None;
      clientId := 0;
      caseId := 0;
      issueDate := Some(today);
      dueDate := Some(PlusDays(today, DefaultTermDays));
      amount := 0.0;
      amountPaid := 0.0;
      status := Draft;
      notes := None;
      timeEntries := [];
      payments := [];
    }

    /** The status can be re-derived from any amounts: it is manual, or the
        overdue test has a due date to compare. */
    predicate DueDateSafe()
      reads this
    {
      IsManual(status) || dueDate.Some?
    }

    /** `updateStatus` */
    method UpdateStatus(today: Date)
      requires Derivable(status, amount, amountPaid, dueDate)
      modifies this`status
      ensures status == NextStatus(old(status), amount, amountPaid, dueDate, today)
    {
      if IsManual(status) {
        return;
      }
      if IsFullyPaid(amount, amountPaid) {
        status := Paid;
      } else if amountPaid > 0.0 {
        status := PartiallyPaid;
      } else if IsOverdue(status, amount, amountPaid, dueDate.value, today) {
        status := Overdue;
      } else {
        status := Issued;
      }
    }

    /** `setAmount` */
    method SetAmount(a: Money, today: Date)
      requires Derivable(status, a, amountPaid, dueDate)
      modifies this`amount, this`status
      ensures amount == a
      ensures status == NextStatus(old(status), a, amountPaid, dueDate, today)
    {
      amount := a;
      UpdateStatus(today);
    }

    /** `setAmountPaid` */
    method SetAmountPaid(a: Money, today: Date)
      requires Derivable(status, amount, a, dueDate)
      modifies this`amountPaid, this`status
      ensures amountPaid == a
      ensures status == NextStatus(old(status), amount, a, dueDate, today)
    {
      amountPaid := a;
      UpdateStatus(today);
    }

    /** `recalculateAmount`: the amount becomes the sum of the entries'
        amounts, and the status follows. */
    method RecalculateAmount(today: Date)
      requires Derivable(status, EntriesTotal(timeEntries), amountPaid, dueDate)
      modifies this`amount, this`status
      ensures amount == EntriesTotal(timeEntries)
      ensures status == NextStatus(old(status), amount, amountPaid, dueDate, today)
    {
      var total := 0.0;
      var i := 0;
      while i < |timeEntries|
        invariant 0 <= i <= |timeEntries|
        invariant total == EntriesTotal(timeEntries[..i])
      {
        assert timeEntries[..i + 1][..i] == timeEntries[..i];
        total := total + timeEntries[i].Amount();
        i := i + 1;
      }
      assert timeEntries[..i] == timeEntries;
      amount := total;
      UpdateStatus(today);
    }

    /** `recalculateAmountPaid`: the paid amount becomes the sum of the
        payments, and the status follows. */
    method RecalculateAmountPaid(today: Date)
      requires Derivable(status, amount, PaymentsTotal(payments), dueDate)
      modifies this`amountPaid, this`status
      ensures amountPaid == PaymentsTotal(payments)
      ensures status == NextStatus(old(status), amount, amountPaid, dueDate, today)
    {
      var total := 0.0;
      var i := 0;
      while i < |payments|
        invariant 0 <= i <= |payments|
        invariant total == PaymentsTotal(payments[..i])
      {
        assert payments[..i + 1][..i] == payments[..i];
        total := total + payments[i].amount;
        i := i + 1;
      }
      assert payments[..i] == payments;
      amountPaid := total;
      UpdateStatus(today);
    }

    /** `setTimeEntries`: takes the list, marks every entry billed by this
        invoice, and recomputes the amount from it. Of the entries only the
        billed flag and the invoice id change. */
    method SetTimeEntries(es: seq<TimeEntry>, today: Date)
      requires Derivable(status, EntriesTotal(es), amountPaid, dueDate)
      modifies this`timeEntries, this`amount, this`status, es`billed, es`invoiceId
      ensures timeEntries == es
      ensures forall e :: e in es ==> e.billed && e.invoiceId == id
      ensures amount == EntriesTotal(es) == old(EntriesTotal(es))
      ensures status == NextStatus(old(status), amount, amountPaid, dueDate, today)
    {
      timeEntries := es;
      var i := 0;
      while i < |es|
        invariant 0 <= i <= |es|
        invariant timeEntries == es && status == old(status) && amount == old(amount)
        invariant forall k :: 0 <= k < i ==> es[k].billed && es[k].invoiceId == id
      {
        es[i].billed := true;
        es[i].SetInvoiceId(id);
        i := i + 1;
      }
      EntriesTotalUnchanged(es);
      RecalculateAmount(today);
    }

    /** `addTimeEntry`: appends the entry, marks it billed by this invoice,
        and adds its amount to the invoice amount. */
    method AddTimeEntry(e: TimeEntry, today: Date)
      requires Derivable(status, EntriesTotal(timeEntries) + e.Amount(), amountPaid, dueDate)
      modifies this`timeEntries, this`amount, this`status, e`billed, e`invoiceId
      ensures timeEntries == old(timeEntries) + [e]
      ensures e.billed && e.invoiceId == id
      ensures amount == EntriesTotal(timeEntries) == old(EntriesTotal(timeEntries)) + e.Amount()
      ensures status == NextStatus(old(status), amount, amountPaid, dueDate, today)
    {
      ghost var before := timeEntries;
      timeEntries := timeEntries + [e];
      assert timeEntries[..|timeEntries| - 1] == before;
      e.billed := true;
      e.SetInvoiceId(id);
      EntriesTotalUnchanged(timeEntries);
      RecalculateAmount(today);
    }

    /** `setPayments`: takes the list and sums the paid amount over it. */
    method SetPayments(ps: seq<Payment>, today: Date)
      requires Derivable(status, amount, PaymentsTotal(ps), dueDate)
      modifies this`payments, this`amountPaid, this`status
      ensures payments == ps
      ensures amountPaid == PaymentsTotal(ps)
      ensures status == NextStatus(old(status), amount, amountPaid, dueDate, today)
    {
      payments := ps;
      RecalculateAmountPaid(today);
    }

    /** `addPayment`: appends the payment and adds its amount to the paid
        amount. */
    method AddPayment(p: Payment, today: Date)
      requires Derivable(status, amount, PaymentsTotal(payments) + p.amount, dueDate)
      modifies this`payments, this`amountPaid, this`status
      ensures payments == old(payments) + [p]
      ensures amountPaid == PaymentsTotal(payments) == old(PaymentsTotal(payments)) + p.amount
      ensures status == NextStatus(old(status), amount, amountPaid, dueDate, today)
    {
      ghost var before := payments;
      payments := payments + [p];
      assert payments[..|payments| - 1] == before;
      RecalculateAmountPaid(today);
    }
  }

  // ---------------------------------------------------------------- case

  /** `model.Case`: a legal matter with its client, attorneys, documents,
      events and time entries. */
  class Case {
    var id: int
    var status: JStr
    var fileDate: Option<Date>
    var clientId: int
    var client: Client?
    var attorneys: seq<Attorney>
    var documents: seq<Document>
    var events: seq<Event>
    var timeEntries: seq<TimeEntry>

    /** `new Case()`: open, filed today, with empty lists. */
    constructor (today: Date)
      ensures status == Some("Open") && fileDate == Some(today) && client == null
      ensures attorneys == [] && documents == [] && events == [] && timeEntries == []
    {
      id := 0;
      status := Some("Open");
      fileDate := Some(today);
      clientId := 0;
      client := null;
      attorneys := [];
      documents := [];
      events := [];
      timeEntries := [];
    }

    /** `isClosed`: the status is "Closed" in any letter case. */
    predicate IsClosed()
      reads this
    {
      Text.EqualsIgnoreCase("Closed", status)
    }

    /** `getTotalHours` */
    method TotalHours() returns (total: real)
      ensures total == HoursTotal(timeEntries)
    {
      total := 0.0;
      var i := 0;
      while i < |timeEntries|
        invariant 0 <= i <= |timeEntries|
        invariant total == HoursTotal(timeEntries[..i])
      {
        assert timeEntries[..i + 1][..i] == timeEntries[..i];
        total := total + timeEntries[i].hours;
        i := i + 1;
      }
      assert timeEntries[..i] == timeEntries;
    }

    /** `setClient`: links the client and, when it is not null, copies its id. */
    method SetClient(c: Client?)
      modifies this`client, this`clientId
      ensures client == c
      ensures clientId == if c != null then c.id else old(clientId)
    {
      client := c;
      if c != null {
        clientId := c.id;
      }
    }

    /** `addAttorney` */
    method AddAttorney(a: Attorney)
      modifies this`attorneys
      ensures attorneys == old(attorneys) + [a]
    {
      attorneys := attorneys + [a];
    }

    /** `addDocument`: appends the document and points it back at this case. */
    method AddDocument(d: Document)
      modifies this`documents, d`legalCase, d`caseId
      ensures documents == old(documents) + [d]
      ensures d.legalCase == this && d.caseId == id
    {
      documents := documents + [d];
      d.SetCase(this);
    }

    /** `addEvent`: appends the event and points it back at this case. */
    method AddEvent(e: Event)
      modifies this`events, e`legalCase, e`caseId
      ensures events == old(events) + [e]
      ensures e.legalCase == this && e.caseId == id
    {
      events := events + [e];
      e.SetCase(this);
    }

    /** `addTimeEntry`: appends the entry, points it back at this case, and
        so adds its hours to the case total. */
    method AddTimeEntry(t: TimeEntry)
      modifies this`timeEntries, t`legalCase, t`caseId
      ensures timeEntries == old(timeEntries) + [t]
      ensures t.legalCase == this && t.caseId == id
      ensures HoursTotal(timeEntries) == old(HoursTotal(timeEntries)) + t.hours
    {
      ghost var before := timeEntries;
      timeEntries := timeEntries + [t];
      assert timeEntries[..|timeEntries| - 1] == before;
      t.SetCase(this);
      HoursTotalUnchanged(timeEntries);
    }
  }

  // ---------------------------------------------------------------- attorney

  /** `model.Attorney` */
  class Attorney {
    var id: int
    var firstName: JStr
    var lastName: JStr
    var specialization: JStr
    var hourlyRate: real
    var cases: seq<Case>

    /** `new Attorney()`: no cases yet. */
    constructor ()
      ensures cases == []
    {
      id := 0;
      firstName := None;
      lastName := None;
      specialization := None;
      hourlyRate := 0.0;
      cases := [];
    }

    /** `getFullName`: first and last name, separated by one space. */
    function FullName(): (r: string)
      reads this
      ensures |r| == |Render(firstName)| + 1 + |Render(lastName)|
      ensures r[..|Render(firstName)|] == Render(firstName) && r[|Render(firstName)|] == ' '
      ensures r[|Render(firstName)| + 1..] == Render(lastName)
    {
      Render(firstName) + " " + Render(lastName)
    }

    /** `getDisplayName`: the full name, followed by the specialization in
        parentheses only when there is a non-empty one. */
    function DisplayName(): (r: string)
      reads this
      ensures FullName() <= r
      ensures |r| > |FullName()| <==> HasText(specialization)
      ensures HasText(specialization) ==> r[|FullName()|..] == " (" + specialization.value + ")"
    {
      if HasText(specialization) then FullName() + " (" + specialization.value + ")" else FullName()
    }

    /** `addCase`: a case already in the list is ignored; otherwise it is
        appended, and this attorney is added to the case's attorneys unless
        already there. */
    method AddCase(c: Case)
      modifies this`cases, c`attorneys
      ensures c in cases
      ensures c in old(cases) ==> cases == old(cases) && c.attorneys == old(c.attorneys)
      ensures c !in old(cases) ==> cases == old(cases) + [c] && this in c.attorneys
      ensures c !in old(cases) && this in old(c.attorneys) ==> c.attorneys == old(c.attorneys)
      ensures c !in old(cases) && this !in old(c.attorneys) ==> c.attorneys == old(c.attorneys) + [this]
    {
      if c !in cases {
        cases := cases + [c];
        if this !in c.attorneys {
          c.AddAttorney(this);
        }
      }
    }
  }

  // ---------------------------------------------------------------- client

  /** `model.Client`: an individual or an organization. */
  class Client {
    var id: int
    var name: JStr
    var contactPerson: JStr
    var clientType: JStr
    var registrationDate: Option<Date>
    var cases: seq<Case>

    /** `new Client()`: registered today, no cases yet. */
    constructor (today: Date)
      ensures cases == [] && registrationDate == Some(today)
    {
      id := 0;
      name := None;
      contactPerson := None;
      clientType := None;
      registrationDate := Some(today);
      cases := [];
    }

    /** `isIndividual`: the type is "Individual" in any letter case. */
    predicate IsIndividual()
      reads this
    {
      Text.EqualsIgnoreCase("Individual", clientType)
    }

    /** `isOrganization`: the type is "Organization" in any letter case; no
        client is both. */
    function IsOrganization(): (r: bool)
      reads this
      ensures r ==> clientType.Some? && !IsIndividual()
    {
      Text.EqualsIgnoreCase("Organization", clientType)
    }

    /** `getDisplayName`: the name followed by one of three tags; every
        client that is not an organization, whatever its type, is tagged
        as an individual. */
    function DisplayName(): (r: string)
      reads this
      ensures Render(name) <= r
      ensures IsOrganization() && HasText(contactPerson) ==>
                r[|Render(name)|..] == " (Org, Contact: " + contactPerson.value + ")"
      ensures IsOrganization() && !HasText(contactPerson) ==> r[|Render(name)|..] == " (Organization)"
      ensures !IsOrganization() ==> r[|Render(name)|..] == " (Individual)"
    {
      if IsOrganization() && HasText(contactPerson) then
        Render(name) + " (Org, Contact: " + contactPerson.value + ")"
      else if IsOrganization() then
        Render(name) + " (Organization)"
      else
        Render(name) + " (Individual)"
    }

    /** `addCase`: appends the case and makes this client its client. */
    method AddCase(c: Case)
      modifies this`cases, c`client, c`clientId
      ensures cases == old(cases) + [c]
      ensures c.client == this && c.clientId == id
    {
      cases := cases + [c];
      c.SetClient(this);
    }
  }

  // ---------------------------------------------------------------- event

  /** `model.Event`: a dated event or deadline, possibly of a case. */
  class Event {
    var id: int
    var title: JStr
    var eventType: JStr
    var eventDate: Option<Date>
    var status: JStr
    var caseId: int
    var legalCase: Case?
    var reminderSet: bool
    var reminderDays: int

    /** `new Event()`: scheduled, with a reminder one day ahead. */
    constructor ()
      ensures status == Some("Scheduled") && reminderSet && reminderDays == 1
      ensures eventDate.None? && legalCase == null
    {
      id := 0;
      title := None;
      eventType := None;
      eventDate := None;
      status := Some("Scheduled");
      caseId := 0;
      legalCase := null;
      reminderSet := true;
      reminderDays := 1;
    }

    /** `setCase`: links the case and, when it is not null, copies its id. */
    method SetCase(c: Case?)
      modifies this`legalCase, this`caseId
      ensures legalCase == c
      ensures caseId == if c != null then c.id else old(caseId)
    {
      legalCase := c;
      if c != null {
        caseId := c.id;
      }
    }

    /** `isUpcoming`: dated strictly after today. */
    predicate IsUpcoming(today: Date)
      reads this
    {
      eventDate.Some? && eventDate.value > today
    }

    /** Completed and cancelled events are never overdue. */
    predicate IsClosedOut()
      reads this
    {
      Text.EqualsIgnoreCase("Completed", status) || Text.EqualsIgnoreCase("Cancelled", status)
    }

    /** `isOverdue`: dated strictly before today and neither completed nor
        cancelled. An event is never both upcoming and overdue, and an
        undated event is neither. */
    function IsOverdue(today: Date): (r: bool)
      reads this
      ensures r ==> eventDate.Some? && eventDate.value < today && !IsUpcoming(today)
      ensures eventDate.None? ==> !r && !IsUpcoming(today)
      ensures r <==> eventDate.Some? && eventDate.value < today && !IsClosedOut()
    {
      eventDate.Some? && eventDate.value < today && !IsClosedOut()
    }

    /** `getDisplayText`: "title (date - type)", with "No date" for an
        undated event; dates are rendered by `day` (`LocalDate.toString`). */
    function DisplayText(day: Date -> string): (r: string)
      reads this
      ensures Render(title) + " (" <= r
      ensures eventDate.None? ==> r[|Render(title)| + 2..] == "No date - " + Render(eventType) + ")"
      ensures eventDate.Some? ==> r[|Render(title)| + 2..] == day(eventDate.value) + " - " + Render(eventType) + ")"
    {
      var dateText := match eventDate case None => "No date" case Some(d) => day(d);
      Render(title) + " (" + dateText + " - " + Render(eventType) + ")"
    }
  }

  // ---------------------------------------------------------------- document

  /** `model.Document`: a file attached to a case. */
  class Document {
    var id: int
    var title: JStr
    var filePath: JStr
    var dateAdded: Option<Date>
    var status: JStr
    var caseId: int
    var legalCase: Case?

    /** `new Document()`: active, added today. */
    constructor (today: Date)
      ensures status == Some("Active") && dateAdded == Some(today) && legalCase == null
      ensures IsActive()
    {
      id := 0;
      title := None;
      filePath := None;
      dateAdded := Some(today);
      status := Some("Active");
      caseId := 0;
      legalCase := null;
    }

    /** `setCase`: links the case and, when it is not null, copies its id. */
    method SetCase(c: Case?)
      modifies this`legalCase, this`caseId
      ensures legalCase == c
      ensures caseId == if c != null then c.id else old(caseId)
    {
      legalCase := c;
      if c != null {
        caseId := c.id;
      }
    }

    /** `isActive`: the status is "Active" in any letter case. */
    predicate IsActive()
      reads this
    {
      Text.EqualsIgnoreCase("Active", status)
    }

    /** `getFileExtension`: the upper-cased text after the last dot of the
        path, or "" when there is no path, no dot, the dot starts the path,
        or the dot ends it. */
    function FileExtension(): (r: string)
      reads this
      ensures r != "" <==>
                filePath.Some? && 0 < Text.LastIndexOf(filePath.value, '.') < |filePath.value| - 1
      ensures r != "" ==> r == Text.UpperCase(filePath.value[Text.LastIndexOf(filePath.value, '.') + 1..])
      ensures forall i :: 0 <= i < |r| ==> r[i] != '.' && !Text.IsLower(r[i])
    {
      if filePath.None? || filePath.value == "" then ""
      else
        var path := filePath.value;
        var dot := Text.LastIndexOf(path, '.');
        if 0 < dot < |path| - 1 then Text.UpperCase(path[dot + 1..]) else ""
    }

    /** `getDisplayName`: the title with the extension in parentheses, or the
        title alone (possibly null) when there is no extension. */
    function DisplayName(): (r: JStr)
      reads this
      ensures FileExtension() != "" ==> r == Some(Render(title) + " (" + FileExtension() + ")")
      ensures FileExtension() == "" ==> r == title
    {
      var ext := FileExtension();
      if ext != "" then Some(Render(title) + " (" + ext + ")") else title
    }
  }
}
