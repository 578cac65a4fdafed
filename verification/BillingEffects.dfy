/**
 * What each billing transaction writes, column by column, and when it commits.
 * Nothing here is said through the functions that do the writing.
 */
module BillingEffects {
  import opened Sums
  import opened Ledger
  import opened InvoiceNumbers
  import InvoiceLines
  import opened Billing
  import opened BillingInvariant
  import opened BillingLaw
  import opened BillingBooks

  // ----- Numbers ------------------------------------------------------------

  /** `number` is the next of its series, kind and financial year, which starts in April; only its counter has moved. */
  predicate NextNumber(before: Counters, series: string, doc: Doc, on: Day, number: Number, after: Counters) {
    && number.counter.series == series && number.counter.doc == doc
    && (on.month >= 4 ==> number.counter.year == on.year)
    && (on.month <= 3 ==> number.counter.year + 1 == on.year)
    && number.value == (if number.counter in before then before[number.counter] + 1 else 1)
    && after == before[number.counter := number.value]
  }

  // ----- Drafting and issuing -----------------------------------------------

  /** The stamp of an issued invoice, and nothing else of any invoice, is new. */
  predicate Stamped(before: Desk, id: nat, format: Format, after: Desk) {
    && id < |before.invoices| == |after.invoices|
    && var inv, row := before.invoices[id], after.invoices[id];
       && inv.status == Draft && inv.header.total > 0
       && after.invoices == before.invoices[id := inv.(status := Issued, stamp := row.stamp)]
       && row.stamp.Some? && row.stamp.value.format == format
       && NextNumber(before.counters, "DEFAULT", InvoiceDoc, inv.date, row.stamp.value.number, after.counters)
       && after.payments == before.payments && after.notes == before.notes
  }

  lemma IssueEffect(desk: Desk, id: nat, format: Format)
    requires Inv(desk) && IssueInvoice(desk, id, format).Success?
    ensures Stamped(desk, id, format, IssueInvoice(desk, id, format).value)
    ensures var after, inv := IssueInvoice(desk, id, format).value, desk.invoices[id];
            && inv.header.total == inv.header.taxable + inv.header.tax && inv.header.tax >= 0
            && Receivable(after, inv.customer) == Receivable(desk, inv.customer) + inv.header.total
  {
    IssuedTables(desk, id, format);
    assert InvoiceValid(desk.invoices[id]);
    PostMoves(desk, IssuePosting(desk, id), desk.invoices[id].customer);
    IssueLegsMove(desk.invoices[id], desk.invoices[id].customer);
  }

  /** A draft, or an issued invoice nothing was paid on, can be cancelled; only its status changes. */
  lemma CancelEffect(desk: Desk, id: nat)
    ensures CancelInvoice(desk, id).Success? <==>
            id < |desk.invoices| && desk.invoices[id].status in {Draft, Issued} && desk.invoices[id].paid == 0
    ensures CancelInvoice(desk, id).Success? ==>
            CancelInvoice(desk, id).value == desk.(invoices := desk.invoices[id := desk.invoices[id].(status := Cancelled)])
  {
  }

  /** What is owed past its due date is overdue; nothing else changes. */
  lemma OverdueEffect(desk: Desk, today: int, i: nat)
    requires i < |desk.invoices|
    ensures var after, inv := MarkOverdue(desk, today), desk.invoices[i];
            && after == desk.(invoices := after.invoices) && |after.invoices| == |desk.invoices|
            && after.invoices[i] == if inv.status in {Issued, PartiallyPaid} && inv.due < today then inv.(status := Overdue) else inv
  {
  }

  // ----- Payments -----------------------------------------------------------

  /** The invoice is paid that much more and PAID when nothing is left; one payment is added. */
  predicate Banks(before: Desk, req: PayRequest, after: Desk) {
    && req.invoice < |before.invoices| == |after.invoices|
    && |after.payments| == |before.payments| + 1
    && var inv, p := before.invoices[req.invoice], after.payments[|before.payments|];
       && 0 < req.amount <= inv.header.total - inv.paid - inv.credited
       && after.invoices == before.invoices[req.invoice := inv.(paid := inv.paid + req.amount,
            status := if inv.paid + inv.credited + req.amount == inv.header.total then Paid else PartiallyPaid)]
       && after.payments == before.payments + [p]
       && p.invoice == req.invoice && p.amount == req.amount && p.reference == req.reference && p.stamp.format == req.format
       && NextNumber(before.counters, "PAY", InvoiceDoc, req.date, p.stamp.number, after.counters)
       && after.notes == before.notes
  }

  lemma PayEffect(desk: Desk, req: PayRequest)
    requires Inv(desk) && PayWrite(desk, req).Success?
    ensures Banks(desk, req, PayWrite(desk, req).value)
    ensures var inv, after := desk.invoices[req.invoice], PayWrite(desk, req).value;
            Receivable(after, inv.customer) == Receivable(desk, inv.customer) - req.amount
  {
    PaidTables(desk, req);
    var stamp := Stamp(Allocate(desk.counters, PaymentCounter(req)).value, req.format);
    FreshPayment(desk, PaymentCounter(req), req.format);
    PaymentMoves(desk, req, stamp, desk.invoices[req.invoice].customer);
  }

  // ----- Notes --------------------------------------------------------------

  /** When a note is raised: a credit only up to what the invoice owes then. The row that is added waits for a second person. */
  lemma RaiseEffect(desk: Desk, id: nat, credit: bool, amount: int, tax: int, reason: string, user: int, date: Day)
    ensures var outcome := RaiseNote(desk, id, credit, amount, tax, reason, user, date);
            && (outcome.Success? <==>
                  && amount > 0 && |reason| >= 5 && id < |desk.invoices| && desk.invoices[id].status != Draft && amount + tax > 0
                  && (credit ==> amount + tax <= desk.invoices[id].header.total - desk.invoices[id].paid - desk.invoices[id].credited))
            && (outcome.Success? ==>
                  && |outcome.value.notes| == |desk.notes| + 1
                  && var n := outcome.value.notes[|desk.notes|];
                     && outcome.value == desk.(notes := desk.notes + [n])
                     && n.invoice == id && n.customer == desk.invoices[id].customer && n.credit == credit
                     && n.subtotal == amount && n.tax == tax && n.total == amount + tax && n.date == date
                     && n.raisedBy == user && n.stamp.None? && !n.recorded)
  {
  }

  /** The note is numbered; a credit is taken off its invoice while that is open, which is PAID when nothing is left. */
  predicate Numbered(before: Desk, id: nat, format: Format, after: Desk) {
    && id < |before.notes| == |after.notes|
    && var n, row := before.notes[id], after.notes[id];
       && n.invoice < |before.invoices| == |after.invoices|
       && var inv := before.invoices[n.invoice];
          var reached := n.credit && inv.status in {Issued, PartiallyPaid, Overdue};
          && after.notes == before.notes[id := n.(stamp := row.stamp, recorded := reached)]
          && row.stamp.Some? && row.stamp.value.format == format
          && NextNumber(before.counters, "DEFAULT", if n.credit then CreditDoc else DebitDoc, n.date, row.stamp.value.number, after.counters)
          && after.invoices
             == (if !reached then before.invoices
                 else before.invoices[n.invoice := inv.(credited := inv.credited + n.total,
                   status := if inv.paid + inv.credited + n.total >= inv.header.total then Paid else inv.status)])
          && after.payments == before.payments
  }

  lemma NoteEffect(desk: Desk, id: nat, user: int, format: Format)
    requires Inv(desk) && IssueNote(desk, id, user, format).Success?
    ensures Numbered(desk, id, format, IssueNote(desk, id, user, format).value)
    ensures var n, after := desk.notes[id], IssueNote(desk, id, user, format).value;
            && n.raisedBy != user && n.stamp.None?
            && Receivable(after, n.customer) == Receivable(desk, n.customer) + (if n.credit then -n.total else n.total)
  {
    NotedTables(desk, id, user, format);
    assert NoteValid(desk.invoices, desk.notes[id]);
    NoteMovesBook(desk, id, desk.notes[id].customer);
  }
}
