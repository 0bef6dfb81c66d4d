# Legal case management: the billing reconciliation core

This project is a Dafny model of the billing part of a desktop legal case
management system. Attorneys record **time entries** against **cases**. A
case's unbilled entries are billed into an **invoice**. **Payments** are
recorded against invoices. Three quantities are kept in step:

- an invoice's amount is the total of rate × hours over its entries;
- its paid amount is the total of its payments;
- its status (Draft, Issued, Partially Paid, Paid, Overdue, Cancelled) is
  derived from those two amounts, the due date and today's date.

The model has four layers:

- `Billing`, `Numbering`, `Text`, `Common`: the status state machine, money
  rules, sequential `INV000001` / `PMT000001` numbers, and Java's nullable
  strings and dates.
- `Model`: the entity classes (`Invoice`, `TimeEntry`, `Payment`, `Case`,
  `Attorney`, `Client`, `Event`, `Document`) with the fields their methods
  update in place. `Users` models the account and its role permissions as a
  value.
- `Store`, `Ledger`, `Dao`: the database is held in memory as a `Database`
  object with one row sequence per table. Each `Ledger` function says what one
  multi-statement DAO operation does to the tables. Each DAO method is proved
  to have exactly that effect.
- `Reconciliation`, `Controllers`: the invariants (keys, links, amounts,
  paid amounts) and the proofs that billing, deleting an invoice, recording a
  payment and deleting a payment keep them. `Controllers` covers the
  controllers' defaulting (dates, numbers, rates) and their result mapping.

"Today" (`LocalDate.now()`) is a parameter everywhere. Whether an INSERT
succeeds is a parameter too (`accepted`).

## Model

| member | source | states |
|---|---|---|
| Common.PlusDays | src/controller/InvoiceController.java:132-134 | adding a positive number of days gives a strictly later date |
| Text.UpperCase | src/model/Document.java:200 | `toUpperCase` keeps the length and upper-cases each letter in place |
| Text.LastIndexOf | src/model/Document.java:198 | the result is -1 or an index holding the character, and no later index holds it |
| Billing.ParseStatus | src/model/Invoice.java:29-34 | reading a status string yields a status that writes back to the same string; the result is `Other` exactly when the string is none of the six constants |
| Billing.StatusTextRoundTrip | src/model/Invoice.java:29-34 | writing any status (an `Other` never holds one of the six constants) and reading it back gives the same status |
| Billing.Balance | src/model/Invoice.java:275-277 | the balance is negative exactly on overpayment and positive exactly when the invoice is not fully paid (no cap at zero) |
| Billing.NextStatus | src/model/Invoice.java:284-316 | Draft and Cancelled never change; otherwise Paid iff paid ≥ amount, Partially Paid iff 0 < paid < amount, Overdue iff nothing paid, not fully paid and due before today, Issued iff nothing paid, not fully paid and due today or later |
| Billing.DerivableAgain | src/model/Invoice.java:293-316 | a status that could be derived without dereferencing a null due date can be derived again |
| Billing.NextStatusIdempotent | src/model/Invoice.java:301-316 | deriving the status twice with the same amounts and the same today gives the status of the first derivation |
| Billing.NextStatusAbsorbs | src/model/Invoice.java:301-316 | a derivation from earlier amounts is overwritten by the next derivation: only the last amounts decide |
| Billing.LineAmount | src/model/TimeEntry.java:207-212 | no rate or zero hours gives zero; otherwise the amount is rate × hours, non-negative when both are |
| Numbering.DigitChar | src/dao/InvoiceDao.java:769-770 | a digit below ten is written as the character with that value |
| Numbering.Digits | src/dao/InvoiceDao.java:769-770 | a number's decimal text is non-empty and all digits |
| Numbering.Zeros | src/dao/InvoiceDao.java:769-770 | padding of the requested length, all zeros |
| Numbering.ZeroPadded | src/dao/InvoiceDao.java:769-770 | `%06d` yields only digits, of length max(6, number of digits) |
| Numbering.LeadingDigits | src/dao/InvoiceDao.java:753-754 | the longest digit prefix of the text: a prefix, all digits, followed by a non-digit or the end |
| Numbering.MaxSuffix | src/dao/InvoiceDao.java:753-762 | the result bounds the numeric suffix of every stored number with the prefix, and is 0 or one of those suffixes |
| Numbering.ValueOfDigits | src/dao/InvoiceDao.java:769-770 | a number's decimal text reads back as the number |
| Numbering.ValueOfZeros | src/dao/InvoiceDao.java:769-770 | a run of zeros reads as 0 |
| Numbering.ValueIgnoresLeadingZeros | src/dao/InvoiceDao.java:753-770 | leading zeros do not change the value `CAST(... AS UNSIGNED)` reads |
| Numbering.LeadingDigitsOfDigits | src/dao/InvoiceDao.java:753-754 | an all-digit text is its own leading-digit prefix |
| Numbering.ZeroPaddedValue | src/dao/InvoiceDao.java:753-770 | a zero-padded number reads back as the number |
| Numbering.FormattedSuffix | src/dao/InvoiceDao.java:753-770 | the suffix of `INV` + `%06d` of n reads back as n |
| Numbering.NextNumberHasPrefix | src/dao/InvoiceDao.java:769-770 | the minted number carries the prefix, so the next query selects it |
| Numbering.NextNumberIsFresh | src/dao/PaymentDao.java:586-601 | the minted suffix is the largest stored suffix plus one, greater than every stored suffix with the prefix, so no stored number equals the minted one |
| Numbering.MaxSuffixAppend | src/dao/InvoiceDao.java:753-762 | storing one more number raises the maximum suffix to its suffix exactly when that suffix is larger and has the prefix |
| Numbering.NextNumberSequential | src/dao/InvoiceDao.java:753-770 | once the minted number is stored, the largest suffix is one higher, so the numbers run 1, 2, 3, ... |
| Sorting.InsertBy | src/dao/PaymentDao.java:248 | inserting into a sorted list keeps it sorted and adds exactly the element |
| Sorting.SortBy | src/dao/PaymentDao.java:248 | `ORDER BY`: the result is sorted on the key and is a permutation of the input |
| Users.NewUser | src/model/User.java:29-32 | a new account is active, registered today, has never logged in, has no role and no permission |
| Users.NewUserWithRole | src/model/User.java:42-48 | the four-argument constructor keeps the role and is otherwise a new account |
| Users.CanModifyCases | src/model/User.java:190-192 | true exactly for Admin, Attorney and Staff, so never for Finance or ReadOnly |
| Users.CanViewFinancials | src/model/User.java:199-201 | true exactly for Admin, Finance and Attorney, so never for Staff or ReadOnly |
| Users.CanModifyFinancials | src/model/User.java:208-210 | true exactly for Admin and Finance; whoever may modify financials may view them |
| Users.CanManageUsers | src/model/User.java:217-219 | true exactly for Admin, who then holds every other permission |
| Users.ReadOnlyHasNoPermission | src/model/User.java:181-219 | a ReadOnly user holds none of the four permissions |
| Users.RoleMatchIsCaseSensitive | src/model/User.java:145-147 | the role "admin" is not an administrator, because the role match is case-sensitive |
| Users.DisplayName | src/model/User.java:225-227 | the full name, " (", the role and ")", in that order and nothing else |
| Model.TimeEntry.constructor | src/model/TimeEntry.java:28-31 | a new entry is dated today, unbilled, with no rate and no invoice |
| Model.TimeEntry.SetInvoiceId | src/model/TimeEntry.java:195-200 | the invoice id is stored; a positive id sets billed, any other id leaves billed as it was |
| Model.TimeEntry.SetCase | src/model/TimeEntry.java:113-118 | links the case and copies its id only when it is not null |
| Model.TimeEntry.SetAttorney | src/model/TimeEntry.java:132-141 | links the attorney and copies its id; the attorney's rate is taken only when the entry has none, and a rate already set never changes |
| Model.TimeEntry.Amount | src/model/TimeEntry.java:207-212 | zero when the entry has no rate; otherwise rate × hours |
| Model.Payment.constructor | src/model/Payment.java:25-27 | a new payment is dated today and attached to no invoice |
| Model.Payment.SetInvoice | src/model/Payment.java:102-108 | a non-null invoice gives both its id and its client id; null leaves both ids |
| Model.Payment.SetClient | src/model/Payment.java:122-127 | a non-null client gives its id; null leaves it |
| Model.Payment.SetAmount | src/model/Payment.java:141-147 | stores the amount and, when an invoice is attached, sets its paid amount to the sum over its payments and re-derives its status; the frame allows no other field of the invoice to change |
| Model.Payment.DisplayText | src/model/Payment.java:178-181 | with a non-null, non-empty reference: the plain text followed by " (Ref: ", the reference and ")"; otherwise exactly the plain text; the method always leads |
| Model.Payment.PlainText | src/model/Payment.java:179 | method, " payment of ", amount, " on ", date ("null" when there is none), in that order |
| Model.DisplayTextReference | src/model/Payment.java:178-181 | with a reference, the text ends in the reference followed by ")", placed right after the plain text and " (Ref: " |
| Model.Invoice.constructor | src/model/Invoice.java:39-47 | a new invoice is a Draft issued today, due in 30 days, with zero amounts and empty lists |
| Model.Invoice.UpdateStatus | src/model/Invoice.java:301-316 | the new status is the one `Billing.NextStatus` derives |
| Model.Invoice.SetAmount | src/model/Invoice.java:170-173 | stores the amount and re-derives the status from it |
| Model.Invoice.SetAmountPaid | src/model/Invoice.java:179-182 | stores the paid amount and re-derives the status from it |
| Model.Invoice.RecalculateAmount | src/model/Invoice.java:249-256 | the loop leaves amount = Σ `getAmount` over the entries, then re-derives the status |
| Model.Invoice.RecalculateAmountPaid | src/model/Invoice.java:261-268 | the loop leaves amountPaid = Σ of the payment amounts, then re-derives the status |
| Model.Invoice.SetTimeEntries | src/model/Invoice.java:204-213 | the list is taken; every listed entry is billed with this invoice's id; amount = Σ over the list, status re-derived; the frame lets only the entries' billed and invoice id change |
| Model.Invoice.AddTimeEntry | src/model/Invoice.java:220-225 | appends the entry, bills it to this invoice, and the amount grows by exactly its amount |
| Model.Invoice.SetPayments | src/model/Invoice.java:231-234 | takes the list; amountPaid = Σ over it; status re-derived |
| Model.Invoice.AddPayment | src/model/Invoice.java:241-244 | appends the payment; amountPaid grows by exactly its amount; status re-derived |
| Model.Case.constructor | src/model/Case.java:34-41 | a new case is Open, filed today, with empty attorney, document, event and entry lists |
| Model.Case.TotalHours | src/model/Case.java:297-303 | the loop returns Σ hours over the case's entries (0 for none) |
| Model.Case.SetClient | src/model/Case.java:205-210 | links the client and copies its id only when it is not null |
| Model.Case.AddAttorney | src/model/Case.java:225-227 | appends the attorney |
| Model.Case.AddDocument | src/model/Case.java:242-245 | appends the document and points it back at this case and its id |
| Model.Case.AddEvent | src/model/Case.java:260-263 | appends the event and points it back at this case and its id |
| Model.Case.AddTimeEntry | src/model/Case.java:278-281 | appends the entry, points it back at this case, and the case's total hours grow by exactly its hours |
| Model.Attorney.constructor | src/model/Attorney.java:24-26 | a new attorney has no cases |
| Model.Attorney.FullName | src/model/Attorney.java:111-113 | first name, one space, last name |
| Model.Attorney.DisplayName | src/model/Attorney.java:182-187 | the full name, extended by " (specialization)" exactly when the specialization is non-null and non-empty |
| Model.Attorney.AddCase | src/model/Attorney.java:168-175 | a case already listed changes nothing (so adding twice is idempotent); otherwise it is appended and this attorney is added to the case's list unless already there |
| Model.Client.constructor | src/model/Client.java:26-29 | a new client is registered today with no cases |
| Model.Client.IsOrganization | src/model/Client.java:145-156 | an organization has a type and is never also an individual |
| Model.Client.DisplayName | src/model/Client.java:189-197 | the name followed by exactly one of the three tags, chosen by organization and contact person; every other type is tagged Individual |
| Model.Client.AddCase | src/model/Client.java:179-182 | appends the case and makes this client its client |
| Model.Event.constructor | src/model/Event.java:29-33 | a new event is Scheduled with a reminder one day ahead |
| Model.Event.SetCase | src/model/Event.java:183-188 | links the case and copies its id only when it is not null |
| Model.Event.IsOverdue | src/model/Event.java:211-223 | overdue iff dated before today and neither Completed nor Cancelled in any case; never both upcoming and overdue; an undated event is neither |
| Model.Event.DisplayText | src/model/Event.java:230-233 | "title (date - type)", with "No date" for an undated event |
| Model.Document.constructor | src/model/Document.java:25-28 | a new document is Active and added today |
| Model.Document.SetCase | src/model/Document.java:156-161 | links the case and copies its id only when it is not null |
| Model.Document.FileExtension | src/model/Document.java:193-204 | non-empty exactly when the path has a dot that is neither first nor last; then it is the upper-cased text after the last dot, with no dot and no lower-case letter |
| Model.Document.DisplayName | src/model/Document.java:211-217 | the title with the extension in parentheses, or the title alone (possibly null) when there is none |
| Store.Filter | src/dao/PaymentDao.java:245-261 | a `WHERE` clause: exactly the rows satisfying the condition, never more rows than the table |
| Store.Count | src/dao/InvoiceDao.java:548-556 | rows matched: the size of the selection, zero iff no row matches |
| Store.SumPaidNonNegative | src/dao/PaymentDao.java:454-472 | a sum of non-negative payments is non-negative |
| Store.FindInvoice | src/dao/InvoiceDao.java:224-245 | finds a row iff one with the key exists; the row found is stored and carries the key |
| Store.FindPayment | src/dao/PaymentDao.java:187-208 | finds a row iff one with the key exists; the row found is stored and carries the key |
| Store.FindCase | src/dao/InvoiceDao.java:577-580 | finds a row iff one with the key exists; the row found is stored and carries the key |
| Store.FindAttorney | src/controller/TimeEntryController.java:132-137 | finds a row iff one with the key exists; the row found is stored and carries the key |
| Store.PaymentsByInvoice | src/dao/PaymentDao.java:245-267 | exactly the payments naming the invoice, as a permutation of them, latest payment date first |
| Store.TotalPaymentsByClient | src/dao/PaymentDao.java:454-478 | zero when the client has no payment |
| Store.OverdueInvoices | src/dao/InvoiceDao.java:403-427 | exactly the invoices due before today whose status is neither Paid nor Cancelled, as a permutation of them, earliest due date first |
| Store.SettledNeverOverdue | src/dao/InvoiceDao.java:406-410 | a Paid or Cancelled invoice is never listed as overdue |
| Ledger.MarkAll | src/dao/InvoiceDao.java:639-641 | billing each listed id in turn bills exactly the rows whose id is listed, whatever the order or repetitions |
| Ledger.BillStatus | src/dao/InvoiceDao.java:595-606 | the status set to Issued and re-derived by `setAmount`: Paid for a zero total, Overdue when the due date has passed, Issued otherwise |
| Ledger.BillRow | src/dao/InvoiceDao.java:589-606 | the new invoice has the case's client, the case, the number, issue date today, the due date, the total, nothing paid |
| Ledger.Bill | src/dao/InvoiceDao.java:573-675 | no invoice and no change iff the case is unknown, has no unbilled entry, the due date is null or the insert fails; otherwise one invoice with the next key for Σ rate × hours of the unbilled entries, and exactly those entries billed to it |
| Ledger.CreateInvoice | src/dao/InvoiceDao.java:49-120 | a failed insert changes nothing; otherwise the row is appended with the next key and each listed entry is billed to it |
| Ledger.DeleteInvoice | src/dao/InvoiceDao.java:683-743 | an unknown invoice or one with any payment: 0 and no change; otherwise its entries are unbilled, it is removed, and a positive count is returned |
| Ledger.UpdatePaid | src/dao/InvoiceDao.java:535-563 | 0 and no change for an unknown invoice; otherwise only that invoice's amount_paid (Σ of its payments) and status change, nothing else in any table |
| Ledger.UpdatePaidIs | src/dao/InvoiceDao.java:535-563 | once the invoice, the paid sum and the status are known, the operation is the single `UPDATE` |
| Ledger.PaidStatus | src/dao/InvoiceDao.java:497-546 | the status `updateInvoicePaidAmount` writes: Draft and Cancelled stay; otherwise Paid iff paid ≥ Σ of the entries billed to the invoice, Partially Paid iff 0 < paid < that total, else Overdue or Issued |
| Ledger.CreatePayment | src/dao/PaymentDao.java:45-111 | a failed insert changes nothing; otherwise the payment is appended and its invoice's paid amount recomputed |
| Ledger.UpdatePayment | src/dao/PaymentDao.java:119-179 | the count is the number of rows with the payment's id; none: no change; otherwise the row is overwritten and only the invoice the payment now names is recomputed |
| Ledger.DeletePayment | src/dao/PaymentDao.java:520-576 | 0 and no change for an unknown payment; otherwise it is removed and the invoice it belonged to is recomputed |
| Ledger.NextInvoiceNumber | src/dao/InvoiceDao.java:750-775 | the minted number has the INV prefix and its suffix is the largest stored INV suffix plus one |
| Ledger.NextPaymentId | src/dao/PaymentDao.java:583-608 | the minted id has the PMT prefix and its suffix is the largest stored PMT suffix plus one |
| Dao.EntryRowOf | src/dao/TimeEntryDao.java:56-77 | the row written for an entry: same key, case, date, hours, rate (NULL when null) and billed flag; invoice_id NULL exactly when the id is ≤ 0; its amount is the entry's amount |
| Dao.InvoiceRowOf | src/dao/InvoiceDao.java:62-70 | the row written for an invoice carries its key, amounts, status and dates |
| Dao.PaymentRowOf | src/dao/PaymentDao.java:58-65 | the row written for a payment carries its key, invoice, client, date and amount |
| Dao.EntryObject | src/dao/InvoiceDao.java:513-514 | a fresh entry object holding every column of the row (key, entry id, case, attorney, date, hours, description, activity code, rate, billed, invoice id with NULL read as 0); its amount is the row's line amount |
| Dao.EntryObjects | src/dao/InvoiceDao.java:513-514 | one fresh entry object per row, in the rows' order, each holding every column of its row; their total is the rows' total |
| Dao.PaymentObject | src/dao/PaymentDao.java:396-416 | a fresh payment object holding every column of the row (key, payment id, invoice, client, date, amount, method, reference, notes), with no invoice object attached |
| Dao.PaymentObjects | src/dao/PaymentDao.java:245-261 | one fresh payment object per row, in the rows' order, each holding every column of its row; their total is the rows' total |
| Dao.InvoiceObject | src/dao/InvoiceDao.java:464-489 | a fresh invoice object holding every column of the row (key, number, client, case, issue and due dates, amounts, status, notes), with empty lists |
| Dao.AttachEntries | src/dao/InvoiceDao.java:513-515 | `setTimeEntries` on the loaded entries: the invoice's list is exactly one fresh object per row with that row's columns, each billed to this invoice; amount = Σ over the rows; status re-derived; nothing else of the invoice changes |
| Dao.BilledInvoice | src/dao/InvoiceDao.java:500-515 | the invoice row loaded and its entries attached: every column of the row, the entries as `Dao.AttachEntries` states, no payments yet |
| Dao.DetailedInvoice | src/dao/InvoiceDao.java:500-519 | every column of the invoice row, its entries and payments one object per row with that row's columns, amount = Σ of the entries, paid = Σ of the payments, and the status derived from those two totals alone |
| Dao.RecalculatedPaid | src/dao/InvoiceDao.java:543-546 | `recalculateAmountPaid` on an invoice already loaded by `getInvoiceWithDetails` changes neither its paid amount nor its status |
| Dao.TimeEntryDao.CreateTimeEntry | src/dao/TimeEntryDao.java:45-99 | a null date or a failed insert: 0 and no change; otherwise the row is appended and the generated key written back into the entry |
| Dao.TimeEntryDao.UpdateTimeEntry | src/dao/TimeEntryDao.java:107-154 | a null date: 0 and no change; otherwise exactly the row with the entry's key is overwritten, and the count is the number of such rows |
| Dao.TimeEntryDao.MarkTimeEntryAsBilled | src/dao/TimeEntryDao.java:163-186 | exactly the row with the id is billed to the invoice; the count is 0 when there is no such row |
| Dao.InvoiceDao.GetInvoiceWithDetails | src/dao/InvoiceDao.java:497-527 | null iff the invoice is unknown; otherwise a fresh object with every column of its row, one entry object per entry billed to it and one payment object per payment naming it (in query order, each with its row's columns, entries billed to this id), amount = Σ over the entries, paid = Σ of the payments, status as `Ledger.PaidStatus` derives it |
| Dao.InvoiceDao.RecomputedPaid | src/dao/InvoiceDao.java:537-546 | found iff the invoice exists; then the paid amount is the sum of its payments and the status the one `Ledger.PaidStatus` derives |
| Dao.InvoiceDao.UpdateInvoicePaidAmount | src/dao/InvoiceDao.java:535-563 | the store changes exactly as `Ledger.UpdatePaid` says |
| Dao.InvoiceDao.UnbilledTotal | src/dao/InvoiceDao.java:597-604 | the loop computes Σ rate × hours, skipping entries with no rate |
| Dao.InvoiceDao.BillInvoice | src/dao/InvoiceDao.java:589-606 | the invoice assembled is `Ledger.BillRow` |
| Dao.InvoiceDao.MarkEntries | src/dao/InvoiceDao.java:639-641 | the loop bills exactly the listed entries |
| Dao.InvoiceDao.CreateInvoiceFromUnbilledTimeEntries | src/dao/InvoiceDao.java:573-675 | the store and the result are exactly `Ledger.Bill` |
| Dao.InvoiceDao.DeleteInvoice | src/dao/InvoiceDao.java:683-743 | the store and the count are exactly `Ledger.DeleteInvoice` |
| Dao.InvoiceDao.CreateInvoice | src/dao/InvoiceDao.java:49-120 | a null date: 0 and no change; otherwise exactly `Ledger.CreateInvoice`, with the generated key written back |
| Dao.PaymentDao.CreatePayment | src/dao/PaymentDao.java:45-111 | a null date: 0 and no change; otherwise exactly `Ledger.CreatePayment`, with the generated key written back |
| Dao.PaymentDao.UpdatePayment | src/dao/PaymentDao.java:119-179 | a null date: 0 and no change; otherwise exactly `Ledger.UpdatePayment` |
| Dao.PaymentDao.DeletePayment | src/dao/PaymentDao.java:520-576 | exactly `Ledger.DeletePayment` |
| Reconciliation.SumLinesAppend | src/model/Invoice.java:249-256 | one more entry adds exactly its amount to the total |
| Reconciliation.SumOfInvoiceCorrespond | src/dao/InvoiceDao.java:597-605 | two entry tables that select the same rows with the same rates and hours give the same invoice total |
| Reconciliation.SumOfUnbilledCorrespond | src/dao/InvoiceDao.java:597-605 | the total billed into the new invoice equals the total of the case's unbilled entries before billing |
| Reconciliation.InUnbilledIds | src/dao/InvoiceDao.java:583-641 | with unique keys, an entry is among the ids being billed iff it belongs to the case and was unbilled |
| Reconciliation.NoEntriesOf | src/dao/InvoiceDao.java:514-515 | an invoice no entry names has no entries and a zero total |
| Reconciliation.NoPaymentsOf | src/dao/InvoiceDao.java:518-519 | an invoice no payment names has no payments and nothing paid |
| Reconciliation.PaymentsOfAfterAdd | src/dao/PaymentDao.java:58-79 | a new payment for another invoice leaves an invoice's payments as they were |
| Reconciliation.PaymentsOfAfterRemove | src/dao/PaymentDao.java:529-545 | removing another invoice's payment leaves an invoice's payments as they were |
| Reconciliation.PaymentsOfAfterReplace | src/dao/PaymentDao.java:127-148 | overwriting a payment that neither was nor becomes an invoice's leaves that invoice's payments as they were |
| Reconciliation.EntryKeysAfterRewrite | src/dao/TimeEntryDao.java:163-176 | an update that keeps every entry's key keeps the entry keys unique and in range |
| Reconciliation.InvoiceKeysAfterRewrite | src/dao/InvoiceDao.java:548-556 | an update that keeps every invoice's key keeps the invoice keys unique and in range |
| Reconciliation.InvoiceKeysAfterInsert | src/dao/InvoiceDao.java:613-635 | inserting with the next key keeps the invoice keys unique and in range |
| Reconciliation.SetPaidLinked | src/dao/InvoiceDao.java:548-556 | writing amount_paid and status keeps every link and every invoice amount |
| Reconciliation.SetPaidPaid | src/dao/InvoiceDao.java:541-556 | writing the invoice's payment total settles that invoice's paid amount |
| Reconciliation.SetPaidSettles | src/dao/InvoiceDao.java:541-556 | writing the payment total keeps the store consistent and settles the invoice |
| Reconciliation.UpdatePaidSettles | src/dao/InvoiceDao.java:535-563 | recomputing an invoice keeps keys, links and amounts and makes its paid amount the sum of its payments |
| Reconciliation.FindAfterSetPaid | src/dao/InvoiceDao.java:548-556 | after the update the invoice is found with the new paid amount and status |
| Reconciliation.UpdatePaidIdempotent | src/dao/InvoiceDao.java:535-563 | recomputing an invoice twice is the same as once |
| Reconciliation.BillMarksUnbilled | src/dao/InvoiceDao.java:639-641 | after billing, exactly the entries that were unbilled and of the case are billed to the new invoice; every other entry is unchanged |
| Reconciliation.BillKeyed | src/dao/InvoiceDao.java:573-675 | billing keeps all keys unique and in range |
| Reconciliation.BillLinked | src/dao/InvoiceDao.java:573-675 | billing keeps billed ⇔ invoice named, and every named invoice exists |
| Reconciliation.BillAmounts | src/dao/InvoiceDao.java:597-641 | billing keeps amount = Σ billed entries for every invoice, the new one included |
| Reconciliation.BillPaid | src/dao/InvoiceDao.java:606 | billing keeps amountPaid = Σ payments for every invoice, the new one included |
| Reconciliation.BillPreserves | src/dao/InvoiceDao.java:573-675 | billing a case keeps a reconciled store reconciled |
| Reconciliation.UnbillKeepsOthers | src/dao/InvoiceDao.java:702-712 | unbilling one invoice's entries leaves every other invoice's total |
| Reconciliation.DeleteInvoiceLinked | src/dao/InvoiceDao.java:683-743 | deleting an invoice leaves no entry or payment naming it |
| Reconciliation.DeleteInvoiceAmounts | src/dao/InvoiceDao.java:683-743 | deleting an invoice keeps the amounts and paid amounts of the others |
| Reconciliation.DeleteInvoicePreserves | src/dao/InvoiceDao.java:683-743 | deleting an invoice keeps a reconciled store reconciled |
| Reconciliation.CreatePaymentPreserves | src/dao/PaymentDao.java:45-111 | in the single-store model, where the nested recompute sees the new payment: recording a payment for an existing invoice keeps a reconciled store reconciled |
| Reconciliation.DeletePaymentPreserves | src/dao/PaymentDao.java:520-576 | in the single-store model, where the nested recompute sees the deletion: deleting a payment keeps a reconciled store reconciled |
| Reconciliation.AddPaymentConsistent | src/dao/PaymentDao.java:58-79 | appending a payment that names an existing invoice keeps keys, links and amounts |
| Reconciliation.AddPaymentPaid | src/dao/PaymentDao.java:58-79 | after appending a payment only its invoice can have a stale paid amount |
| Reconciliation.SetPaidRow | src/dao/InvoiceDao.java:548-556 | with unique keys, the updated row is the old row with the new paid amount and status |
| Reconciliation.StoredPaidStatus | src/model/Invoice.java:301-316 | the status derived against the stored amount: manual statuses stay; otherwise Paid iff paid ≥ amount, Partially Paid iff 0 < paid < amount |
| Reconciliation.UpdatePaidStored | src/dao/InvoiceDao.java:535-563 | the corrected recomputation: 0 and no change for an unknown invoice; only the invoices table changes |
| Reconciliation.UpdatePaidStoredAgrees | src/dao/InvoiceDao.java:535-563 | after the corrected recomputation the invoice's paid amount is its payment total and its status agrees with its stored amount |
| Reconciliation.UpdatePaidStoredSettles | src/dao/InvoiceDao.java:535-563 | the corrected recomputation keeps the store consistent and settles the invoice |
| Reconciliation.UpdatePaidAgreesWhenReconciled | src/dao/InvoiceDao.java:497-563 | when every amount equals its entries' total, the recomputation as written and the corrected one coincide |
| Reconciliation.CreateInvoiceUnbilledAmount | src/dao/InvoiceDao.java:49-120 | an invoice created with a non-zero amount and no entries breaks amount = Σ billed entries |
| Reconciliation.UpdatePaidMarksPartPaymentPaid | src/dao/InvoiceDao.java:497-563 | as written: an invoice with no billed entries and a part payment is marked Paid although less than its amount is paid |
| Reconciliation.UpdatePaymentBoth | src/dao/PaymentDao.java:119-179 | the corrected update: the count is the number of rows with the key, and no row means no change |
| Reconciliation.ReplacedRows | src/dao/PaymentDao.java:127-143 | after the overwrite every payment is the new row or an untouched row with another key |
| Reconciliation.ReplacePaymentConsistent | src/dao/PaymentDao.java:127-143 | overwriting a payment to name an existing invoice keeps the store consistent; only the old and the new invoice are pending |
| Reconciliation.ReplacePaymentPaid | src/dao/PaymentDao.java:127-143 | after the overwrite only the old and the new invoice can have a stale paid amount |
| Reconciliation.UpdatePaymentBothPreserves | src/dao/PaymentDao.java:119-179 | in the single-store model: recomputing both the old and the new invoice keeps a reconciled store reconciled |
| Reconciliation.SinglePaymentSum | src/dao/PaymentDao.java:245-261 | an invoice with exactly one payment has that payment's amount paid |
| Reconciliation.UpdatePaymentLeavesOldInvoiceStale | src/dao/PaymentDao.java:119-179 | as written: moving an invoice's only payment to another invoice leaves the old invoice's paid amount stale |
| Reconciliation.UpdatePaymentOverwrites | src/dao/PaymentDao.java:140-148 | for an existing payment, the update is the overwrite followed by the new invoice's recomputation |
| Reconciliation.StaleRow | src/dao/InvoiceDao.java:548-556 | recomputing one invoice leaves every other invoice row as it was |
| Reconciliation.MovedPaymentLeaves | src/dao/PaymentDao.java:127-143 | once its only payment is moved away, an invoice's payment total is zero |
| Reconciliation.DeletePaymentCommitted | src/dao/PaymentDao.java:520-576 | with the nested recompute reading the committed store: 0 and no change for an unknown payment; otherwise a positive count, the payment removed and the entries kept |
| Reconciliation.DeletePaymentRecomputed | src/controller/InvoiceController.java:253-256 | the corrected controller: the same count as as written, no change for an unknown payment, and one more recompute after the commit |
| Reconciliation.RecordPaymentCommitted | src/controller/InvoiceController.java:225-245 | with the nested recompute reading the committed store: a refused insert changes nothing; otherwise the count is 1 and the payment is appended with the next key |
| Reconciliation.SetPaidConsistent | src/dao/InvoiceDao.java:548-556 | writing any paid amount and status keeps keys, links and amounts |
| Reconciliation.SetPaidPending | src/dao/InvoiceDao.java:548-556 | writing any paid amount to an invoice already pending keeps every other invoice settled |
| Reconciliation.CommittedRecomputeSettles | src/controller/InvoiceController.java:238-241 | a recompute that read the committed store leaves one invoice pending; recomputing it after the commit makes the store reconciled |
| Reconciliation.RemovedPaymentLeaves | src/dao/PaymentDao.java:529-545 | once its only payment is deleted, an invoice's payment total is zero |
| Reconciliation.DeleteCommittedPaid | src/dao/PaymentDao.java:544-548 | when the nested recompute reads the committed store, the invoice keeps the paid total it had with the deleted payment |
| Reconciliation.DeletePaymentCommittedLeavesStale | src/controller/InvoiceController.java:253-256 | as written: deleting an invoice's only (non-zero) payment leaves a store whose paid amounts are not all reconciled |
| Reconciliation.DeletePaymentRecomputedPreserves | src/controller/InvoiceController.java:253-256 | with a recompute after the commit, deleting a payment keeps a reconciled store reconciled whatever the nested recompute read |
| Reconciliation.RecordPaymentCommittedPreserves | src/controller/InvoiceController.java:225-245 | `recordPayment` keeps a reconciled store reconciled even when the nested recompute reads the committed store, because of its second recompute |
| Controllers.NextInvoiceNumberIsNew | src/dao/InvoiceDao.java:750-775 | the minted invoice number is the number of no stored invoice |
| Controllers.NextPaymentIdIsNew | src/dao/PaymentDao.java:583-608 | the minted payment id is the id of no stored payment |
| Controllers.InvoiceController.CreateInvoice | src/controller/InvoiceController.java:126-138 | a null issue date becomes today, a null due date the issue date plus 30 days (so later than it); the insert follows; true iff it succeeded |
| Controllers.FillInvoiceDates | src/controller/InvoiceController.java:128-133 | a null issue date becomes today; a null due date becomes the issue date plus 30 days; set dates are kept |
| Controllers.InvoiceController.CreateInvoiceFromTimeEntries | src/controller/InvoiceController.java:147-152 | bills the case under the next invoice number, which no stored invoice carries |
| Controllers.InvoiceController.DeleteInvoice | src/controller/InvoiceController.java:183-186 | true iff the invoice existed and had no payment; the store changes as `Ledger.DeleteInvoice` says |
| Controllers.InvoiceController.RecordPayment | src/controller/InvoiceController.java:225-245 | a null or empty id becomes the next PMT id, new to the store, and a supplied id is kept; a null date becomes today; true iff the insert succeeded; in the single-store model the second recomputation changes nothing (under isolation it is the one that settles the invoice, see `Reconciliation.RecordPaymentCommittedPreserves`) |
| Controllers.FillPaymentDefaults | src/controller/InvoiceController.java:227-234 | a null or empty payment id becomes the given next id and a supplied one is kept; a null date becomes today |
| Controllers.InvoiceController.DeletePayment | src/controller/InvoiceController.java:253-256 | true iff the payment existed; in the single-store model the store changes as `Ledger.DeletePayment` says (no recompute follows; see the third finding) |
| Controllers.PaymentMethods | src/controller/InvoiceController.java:263-267 | seven distinct methods, Other among them |
| Controllers.DefaultRate | src/controller/TimeEntryController.java:132-137 | a set rate is never changed; a missing rate is filled iff the attorney id is positive and the attorney exists, and then with that attorney's rate |
| Controllers.TimeEntryController.CreateTimeEntry | src/controller/TimeEntryController.java:125-141 | a null date becomes today and a missing rate the attorney's rate; the insert follows; true iff it succeeded |
| Controllers.TimeEntryController.UpdateTimeEntry | src/controller/TimeEntryController.java:149-152 | true iff the entry has a date and a row with its key exists |
| Controllers.TimeEntryController.MarkTimeEntryAsBilled | src/controller/TimeEntryController.java:161-164 | true iff a row with the id exists; exactly that row is billed |
| Controllers.TimeEntryController.CaseTimeEntries | src/controller/TimeEntryController.java:236-249 | fails with an invalid id iff the id is ≤ 0, with not found iff the case is unknown, and otherwise gives exactly the case's entries |
| Controllers.TimeEntryController.UnbilledTimeEntries | src/controller/TimeEntryController.java:257-271 | fails with an invalid id iff the id is ≤ 0, with not found iff the case is unknown, and otherwise gives exactly the case's unbilled entries |
| Controllers.ActivityCodes | src/controller/TimeEntryController.java:214-227 | eleven distinct three-letter upper-case codes |

## Left out

- JDBC is not modelled: connections, prepared statements, result sets and generated-key reads. Each statement is a method of the in-memory `Database`. Only an INSERT can fail (`accepted`). Any other statement succeeds, so a statement that throws in the middle of an operation is not modelled.
- Transactions and isolation are modelled only in part. `createPayment`, `updatePayment` and `deletePayment` each call `updateInvoicePaidAmount` before they commit, and it opens a connection of its own. Under MySQL's default isolation that connection does not see the uncommitted change, so the invoice is recomputed from the payments as they were. The DAO methods and `Ledger` treat every write as visible at once, in one store, and the `*Preserves` lemmas about them hold in that model. The `*Committed` members of `Reconciliation` model the separate connection for `recordPayment` and `deletePayment`: `recordPayment`'s second recompute (src/controller/InvoiceController.java:238-241) is what settles the invoice, and `deletePayment` leaves it stale (third finding). `updatePayment` under isolation is not modelled; its new invoice would be left stale in the same way.
- Concurrency is not modelled. Nothing here is thread-safe in the source either.
- `double` hours and attorney rates are modelled as exact reals. `new BigDecimal(double)` conversion and floating-point rounding are not modelled.
- `equalsIgnoreCase`, `toUpperCase` and MySQL's case-insensitive collation fold only ASCII letters.
- `toString`, the millisecond-based id fallbacks and every view/UI class are outside the model.
- The DAOs' plain finders are modelled as `Store` query functions (`Filter`, `Find*`, `PaymentsByInvoice`, `OverdueInvoices`, `TotalPaymentsByClient`), not as methods. `findTimeEntriesByInvoice`, `findUnbilledTimeEntriesByCase` and `extractTimeEntryFromResultSet` lie past the end of the visible `TimeEntryDao` text. They are modelled by their names: `invoice_id = ?`, and `case_id = ? AND billed = FALSE`.
- `deleteTimeEntry`, `markCaseTimeEntriesAsBilled`, `getTotalHoursByCase` and `getTotalAmountByCase` in `TimeEntryController` call DAO methods that are not part of the model, so they are not modelled.
- `updateInvoice`, `updateInvoiceStatus`, the date-range and by-status finders and `getPaymentWithDetails` are not modelled. The reconciliation invariants do not depend on them beyond what `createInvoice` already shows.
- Client and case loading in `getInvoiceWithDetails` is not modelled. Only the entries and payments, which the paid-amount recomputation uses, are loaded.
- `maxNum + 1` overflowing a Java `int` is not modelled. Suffixes are unbounded naturals.
- Dao.InvoiceDao.CreateInvoiceFromUnbilledTimeEntries: returns the inserted row, not an object holding its entry list. The entries it billed are stated on the store instead.
- Dao.InvoiceDao.CreateInvoiceFromUnbilledTimeEntries: a null due date is the error path, because `Date.valueOf(null)` throws and the transaction rolls back. An insert that reports 0 rows without throwing is not modelled.
- Model.Payment.SetAmount: requires that the attached invoice can re-derive its status. A null due date on an unpaid invoice throws in the source.
- Model.Invoice.UpdateStatus: requires `Billing.Derivable`, because `isOverdue` in the source dereferences a null due date, and that NullPointerException is not modelled.
- Model.Invoice.SetAmount: requires `Billing.Derivable`, because `isOverdue` in the source dereferences a null due date, and that NullPointerException is not modelled.
- Model.Invoice.SetAmountPaid: requires `Billing.Derivable`, because `isOverdue` in the source dereferences a null due date, and that NullPointerException is not modelled.
- Model.Invoice.RecalculateAmount: requires `Billing.Derivable`, because `isOverdue` in the source dereferences a null due date, and that NullPointerException is not modelled.
- Model.Invoice.RecalculateAmountPaid: requires `Billing.Derivable`, because `isOverdue` in the source dereferences a null due date, and that NullPointerException is not modelled.
- Model.Invoice.SetTimeEntries: requires `Billing.Derivable`, because `isOverdue` in the source dereferences a null due date, and that NullPointerException is not modelled.
- Model.Invoice.AddTimeEntry: requires `Billing.Derivable`, because `isOverdue` in the source dereferences a null due date, and that NullPointerException is not modelled.
- Model.Invoice.SetPayments: requires `Billing.Derivable`, because `isOverdue` in the source dereferences a null due date, and that NullPointerException is not modelled.
- Model.Invoice.AddPayment: requires `Billing.Derivable`, because `isOverdue` in the source dereferences a null due date, and that NullPointerException is not modelled.
- Reconciliation.CreatePaymentPreserves: requires that the payment names an existing invoice. This is the foreign key of `payments.invoice_id`; without it the store would hold a dangling payment.
- No preservation lemma is proved for `createInvoice`. A manually created invoice with a non-zero amount and no entries breaks amount = Σ billed entries (`Reconciliation.CreateInvoiceUnbilledAmount`), which leads to the first finding below.
- Reconciliation.StoredPaidStatus: states the Paid and Partially Paid cases only. The Overdue/Issued split is `Billing.NextStatus`'s.
- Billing.IsFullyPaid, Billing.IsOverdue, Users.IsAdmin, Users.IsAttorney, Users.IsFinance, Users.IsStaff, Users.IsReadOnly and Users.IsNewAccount are predicates whose meaning is their definition. Their properties are carried by `Billing.NextStatus`, `Billing.Balance`, the `Users.Can*` functions and `Users.NewUser`.
- Model.Payment.constructor: the amount starts at 0.0, where `new Payment()` leaves it null. Money is never null in the model, so a payment whose amount was never set is not modelled, nor the NullPointerException `recalculateAmountPaid` would throw on it.
- `Case.isClosed`, `Client.isIndividual`, `Document.isActive` and `Event.isUpcoming` are predicates whose meaning is their definition. Their properties are carried by `Model.Client.IsOrganization`, `Model.Event.IsOverdue` and `Model.Document.constructor`.

## Findings

| source | as written | input that shows it | evidently intended | confidence | as-written member | corrected member |
|---|---|---|---|---|---|---|
| src/dao/InvoiceDao.java:497-563 | `updateInvoicePaidAmount` loads the invoice with `getInvoiceWithDetails`, whose `setTimeEntries` replaces the amount by the total of the entries billed to it. The status is then derived against that total, not the stored amount. | An invoice created with `createInvoice`, amount 500 and no entries, receives a payment of 100: its status becomes Paid with 100 of 500 paid | derive the status against the invoice's stored amount, giving Partially Paid | not executed | Reconciliation.UpdatePaidMarksPartPaymentPaid | Reconciliation.UpdatePaidStoredAgrees |
| src/dao/PaymentDao.java:119-179 | `updatePayment` recomputes only the invoice the updated payment names | Moving an invoice's only payment (amount 100) to another invoice leaves the first invoice's amount_paid at 100 | recompute the invoice the payment belonged to as well as the one it now names | not executed | Reconciliation.UpdatePaymentLeavesOldInvoiceStale | Reconciliation.UpdatePaymentBothPreserves |
| src/controller/InvoiceController.java:253-256 | `deletePayment` recomputes nothing after `PaymentDao.deletePayment` commits, and the recompute nested in it (src/dao/PaymentDao.java:544-548) runs on its own connection before the commit, so it still sees the deleted payment | Deleting an invoice's only payment (amount 100) leaves the invoice's amount_paid at 100 | recompute the invoice after the commit, as `recordPayment` does | not executed | Reconciliation.DeletePaymentCommittedLeavesStale | Reconciliation.DeletePaymentRecomputedPreserves |
