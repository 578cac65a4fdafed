/** What every billing transaction keeps: statuses follow the arithmetic, and numbers are never reused. */
module BillingInvariant {
  import opened Sums
  import opened Ledger
  import opened InvoiceNumbers
  import InvoiceLines
  import Money
  import opened Billing

  // ----- The invariant ------------------------------------------------------

  /** The status of an invoice is what its arithmetic says. */
  predicate InvoiceValid(inv: Invoice) {
    && inv.paid >= 0 && inv.credited >= 0
    && inv.header.total == inv.header.taxable + inv.header.tax
    && (inv.header.total > 0 ==> inv.header.taxable > 0 && inv.header.tax >= 0)
    && (inv.status == Draft ==> inv.stamp.None?)
    && (Open(inv) || inv.status == Paid ==> inv.stamp.Some?)
    && (inv.stamp.None? ==> inv.paid == 0 && inv.credited == 0)
    && (inv.stamp.Some? ==> inv.header.total > 0 && inv.paid <= inv.header.total)
    && (Open(inv) ==> Due(inv) > 0)
    && (inv.status == Paid ==> Due(inv) <= 0)
    && (inv.status == Cancelled ==> inv.paid == 0)
  }

  /** A stamped number was allocated from the counter of its kind of document. */
  predicate Allocated(counters: Counters, stamp: Stamp, series: string, doc: Doc) {
    && stamp.number.counter.series == series && stamp.number.counter.doc == doc
    && 1 <= stamp.number.value <= Current(counters, stamp.number.counter)
  }

  predicate NoteValid(invoices: seq<Invoice>, n: Note) {
    && n.invoice < |invoices|
    && n.customer == invoices[n.invoice].customer
    && n.subtotal > 0 && n.total == n.subtotal + n.tax && n.total > 0
    && (n.recorded ==> n.stamp.Some? && n.credit)
  }

  predicate PaymentValid(desk: Desk, p: Payment) {
    p.invoice < |desk.invoices| && p.amount > 0 && Allocated(desk.counters, p.stamp, PAYMENT_SERIES, InvoiceDoc)
  }

  /** The document behind a journal has been stamped. */
  predicate Documented(desk: Desk, key: Key) {
    match key.purpose
    case InvoiceIssue => key.source == FromInvoice && key.id < |desk.invoices| && desk.invoices[key.id].stamp.Some?
    case InvoicePayment(printed) => key.source == FromPayment && PaymentPrints(desk.payments, printed)
    case NoteIssue(credit) => key.source == FromCreditNote && key.id < |desk.notes| && desk.notes[key.id].stamp.Some?
    case _ => false
  }

  ghost predicate InvoicesValid(desk: Desk) {
    forall i :: 0 <= i < |desk.invoices| ==>
      && InvoiceValid(desk.invoices[i])
      && (desk.invoices[i].stamp.Some? ==> Allocated(desk.counters, desk.invoices[i].stamp.value, INVOICE_SERIES, InvoiceDoc))
  }

  ghost predicate NotesValid(desk: Desk) {
    forall n :: 0 <= n < |desk.notes| ==>
      && NoteValid(desk.invoices, desk.notes[n])
      && (desk.notes[n].stamp.Some? ==>
            Allocated(desk.counters, desk.notes[n].stamp.value, INVOICE_SERIES, if desk.notes[n].credit then CreditDoc else DebitDoc))
  }

  ghost predicate PaymentsValid(desk: Desk) {
    forall k :: 0 <= k < |desk.payments| ==> PaymentValid(desk, desk.payments[k])
  }

  ghost predicate JournalsValid(desk: Desk) {
    && Sound(desk.book)
    && forall j :: 0 <= j < |desk.book.journals| ==> Documented(desk, desk.book.journals[j].key)
  }

  ghost predicate Inv(desk: Desk) {
    InvoicesValid(desk) && NotesValid(desk) && PaymentsValid(desk) && JournalsValid(desk)
  }

  // ----- Numbers ------------------------------------------------------------

  /** Counters only grow. */
  ghost predicate Grows(before: Counters, after: Counters) {
    forall c :: Current(before, c) <= Current(after, c)
  }

  lemma AllocateGrows(counters: Counters, c: Counter)
    requires Allocate(counters, c).Some?
    ensures var n := Allocate(counters, c).value;
            && n.counter == c && n.value == Current(counters, c) + 1
            && Grows(counters, counters[c := n.value])
            && Current(counters[c := n.value], c) == n.value
  {
  }

  /** A number just allocated prints unlike every number its counter gave out before. */
  lemma FreshPrint(counters: Counters, c: Counter, format: Format, stamp: Stamp)
    requires Allocate(counters, c).Some?
    requires Allocated(counters, stamp, c.series, c.doc)
    ensures PrintedOf(stamp) != PrintedOf(Stamp(Allocate(counters, c).value, format))
  {
    var number := Allocate(counters, c).value;
    if PrintedOf(stamp) == PrintedOf(Stamp(number, format)) {
      PrintInjective(stamp.format.prefix, stamp.number.counter.year, stamp.format.padding, stamp.number.value,
                     format.prefix, c.year, format.padding, number.value);
    }
  }

  lemma FreshPayment(desk: Desk, c: Counter, format: Format)
    requires PaymentsValid(desk) && c.series == PAYMENT_SERIES && c.doc == InvoiceDoc
    requires Allocate(desk.counters, c).Some?
    ensures !PaymentPrints(desk.payments, PrintedOf(Stamp(Allocate(desk.counters, c).value, format)))
  {
    forall k | 0 <= k < |desk.payments|
      ensures PrintedOf(desk.payments[k].stamp) != PrintedOf(Stamp(Allocate(desk.counters, c).value, format))
    {
      assert PaymentValid(desk, desk.payments[k]);
      FreshPrint(desk.counters, c, format, desk.payments[k].stamp);
    }
  }

  lemma FreshInvoice(desk: Desk, c: Counter, format: Format)
    requires InvoicesValid(desk) && c.series == INVOICE_SERIES && c.doc == InvoiceDoc
    requires Allocate(desk.counters, c).Some?
    ensures !InvoicePrints(desk.invoices, PrintedOf(Stamp(Allocate(desk.counters, c).value, format)))
  {
    forall i | 0 <= i < |desk.invoices| && desk.invoices[i].stamp.Some?
      ensures PrintedOf(desk.invoices[i].stamp.value) != PrintedOf(Stamp(Allocate(desk.counters, c).value, format))
    {
      FreshPrint(desk.counters, c, format, desk.invoices[i].stamp.value);
    }
  }

  lemma FreshKey(desk: Desk, key: Key)
    requires JournalsValid(desk) && !Documented(desk, key)
    ensures Find(desk.book.journals, key).None?
  {
  }

  lemma PostKeepsJournals(desk: Desk, posting: Posting, after: Desk)
    requires JournalsValid(desk) && !Documented(desk, posting.key)
    requires Post(desk.book, posting).Success? && after.book == Post(desk.book, posting).value.book
    requires forall key :: Documented(desk, key) ==> Documented(after, key)
    requires Documented(after, posting.key)
    ensures JournalsValid(after)
  {
    FreshKey(desk, posting.key);
    PostEffect(desk.book, posting, NetFn());
  }

  // ----- What each transaction writes ---------------------------------------

  lemma DraftedTables(desk: Desk, customer: int, date: Day, due: int, shipments: seq<InvoiceLines.Shipment>, rates: seq<int>)
    requires DraftInvoice(desk, customer, date, due, shipments, rates).Success?
    ensures var header := InvoiceLines.HeaderOf(shipments, rates);
            && RatesAccepted(header.taxable, rates)
            && DraftInvoice(desk, customer, date, due, shipments, rates).value
               == desk.(invoices := desk.invoices + [Invoice(customer, date, due, header, Draft, 0, 0, None)])
  {
  }

  /** One invoice stamped, its counter advanced, its journal posted. */
  lemma IssuedTables(desk: Desk, id: nat, format: Format)
    requires IssueInvoice(desk, id, format).Success?
    ensures id < |desk.invoices| && desk.invoices[id].status == Draft && desk.invoices[id].header.total > 0
    ensures Allocate(desk.counters, InvoiceCounter(desk.invoices[id])).Some? && Post(desk.book, IssuePosting(desk, id)).Success?
    ensures var number := Allocate(desk.counters, InvoiceCounter(desk.invoices[id])).value;
            var row := desk.invoices[id].(status := Issued, stamp := Some(Stamp(number, format)));
            IssueInvoice(desk, id, format).value
            == desk.(invoices := desk.invoices[id := row], counters := desk.counters[number.counter := number.value],
                     book := Post(desk.book, IssuePosting(desk, id)).value.book)
  {
  }

  /** One invoice advanced, one payment added, its counter advanced, its journal posted. */
  lemma PaidTables(desk: Desk, req: PayRequest)
    requires PayWrite(desk, req).Success?
    ensures req.invoice < |desk.invoices| && 0 < req.amount <= Due(desk.invoices[req.invoice]) && Open(desk.invoices[req.invoice])
    ensures Allocate(desk.counters, PaymentCounter(req)).Some?
    ensures var stamp := Stamp(Allocate(desk.counters, PaymentCounter(req)).value, req.format);
            && Post(desk.book, PaymentPosting(desk, req, stamp)).Success?
            && PayWrite(desk, req).value
               == desk.(invoices := desk.invoices[req.invoice := TakePayment(desk.invoices[req.invoice], req.amount)],
                        payments := desk.payments + [Payment(req.invoice, req.amount, req.reference, stamp)],
                        counters := desk.counters[stamp.number.counter := stamp.number.value],
                        book := Post(desk.book, PaymentPosting(desk, req, stamp)).value.book)
  {
  }

  predicate Reaches(invoices: seq<Invoice>, n: Note) {
    n.credit && n.invoice < |invoices| && Open(invoices[n.invoice])
  }

  /** One note stamped, its invoice credited when there is an open one, its counter advanced, its journal posted. */
  lemma NotedTables(desk: Desk, id: nat, user: int, format: Format)
    requires IssueNote(desk, id, user, format).Success?
    ensures id < |desk.notes| && desk.notes[id].stamp.None? && desk.notes[id].raisedBy != user
    ensures Allocate(desk.counters, NoteCounter(desk.notes[id])).Some? && Post(desk.book, NotePosting(desk, id)).Success?
    ensures var n := desk.notes[id];
            var number := Allocate(desk.counters, NoteCounter(n)).value;
            var row := n.(stamp := Some(Stamp(number, format)), recorded := Reaches(desk.invoices, n));
            IssueNote(desk, id, user, format).value
            == desk.(invoices := Credited(desk.invoices, n), notes := desk.notes[id := row],
                     counters := desk.counters[number.counter := number.value],
                     book := Post(desk.book, NotePosting(desk, id)).value.book)
  {
  }

  // ----- Steps --------------------------------------------------------------

  /** With accepted rates the tax has the sign of what is taxed. */
  lemma TaxSign(taxable: int, rates: seq<int>)
    requires RatesAccepted(taxable, rates)
    ensures taxable >= 0 ==> Sum(rates, InvoiceLines.TaxFn(taxable)) >= 0
    ensures taxable <= 0 ==> Sum(rates, InvoiceLines.TaxFn(taxable)) <= 0
  {
    forall k | 0 <= k < |rates|
      ensures taxable >= 0 ==> InvoiceLines.TaxFn(taxable)(rates[k]) >= 0
      ensures taxable <= 0 ==> InvoiceLines.TaxFn(taxable)(rates[k]) <= 0
    {
      if Money.ApplyBP(taxable, rates[k]) != 0 {
        Money.ApplyBPSign(taxable, rates[k]);
      }
    }
    if taxable >= 0 {
      SumNonNegative(rates, InvoiceLines.TaxFn(taxable));
    }
    if taxable <= 0 {
      SumNonPositive(rates, InvoiceLines.TaxFn(taxable));
    }
  }

  lemma DraftKeeps(desk: Desk, customer: int, date: Day, due: int, shipments: seq<InvoiceLines.Shipment>, rates: seq<int>)
    requires Inv(desk) && DraftInvoice(desk, customer, date, due, shipments, rates).Success?
    ensures Inv(DraftInvoice(desk, customer, date, due, shipments, rates).value)
  {
    DraftedTables(desk, customer, date, due, shipments, rates);
    var header := InvoiceLines.HeaderOf(shipments, rates);
    TaxSign(header.taxable, rates);
    AddInvoiceKeeps(desk, Invoice(customer, date, due, header, Draft, 0, 0, None));
  }

  lemma AddInvoiceKeeps(desk: Desk, row: Invoice)
    requires Inv(desk) && InvoiceValid(row) && row.stamp.None?
    ensures Inv(desk.(invoices := desk.invoices + [row]))
  {
    var after := desk.(invoices := desk.invoices + [row]);
    KeptElsewhere(desk, after);
    DocumentsStay(desk, after);
  }

  /** Rows that a transaction leaves alone stay valid while invoices keep their customers and counters grow. */
  lemma KeptElsewhere(desk: Desk, after: Desk)
    requires NotesValid(desk) && PaymentsValid(desk)
    requires Grows(desk.counters, after.counters)
    requires |desk.invoices| <= |after.invoices|
    requires forall i :: 0 <= i < |desk.invoices| ==> after.invoices[i].customer == desk.invoices[i].customer
    ensures after.notes == desk.notes ==> NotesValid(after)
    ensures after.payments == desk.payments ==> PaymentsValid(after)
  {
    if after.notes == desk.notes {
      forall n | 0 <= n < |after.notes|
        ensures NoteValid(after.invoices, after.notes[n])
      {
        assert NoteValid(desk.invoices, desk.notes[n]);
      }
    }
    if after.payments == desk.payments {
      forall k | 0 <= k < |after.payments|
        ensures PaymentValid(after, after.payments[k])
      {
        assert PaymentValid(desk, desk.payments[k]);
      }
    }
  }

  lemma IssueKeeps(desk: Desk, id: nat, format: Format)
    requires Inv(desk) && IssueInvoice(desk, id, format).Success?
    ensures Inv(IssueInvoice(desk, id, format).value)
  {
    IssuedTables(desk, id, format);
    var after := IssueInvoice(desk, id, format).value;
    var inv := desk.invoices[id];
    AllocateGrows(desk.counters, InvoiceCounter(inv));
    KeptElsewhere(desk, after);
    DocumentsStay(desk, after);
    assert InvoiceValid(inv);
    PostKeepsJournals(desk, IssuePosting(desk, id), after);
  }

  lemma PayKeepsRows(desk: Desk, req: PayRequest)
    requires Inv(desk) && PayWrite(desk, req).Success?
    ensures var after := PayWrite(desk, req).value;
            InvoicesValid(after) && NotesValid(after) && PaymentsValid(after)
  {
    PaidTables(desk, req);
    var after := PayWrite(desk, req).value;
    AllocateGrows(desk.counters, PaymentCounter(req));
    KeptElsewhere(desk, after);
    assert InvoiceValid(desk.invoices[req.invoice]);
    forall k | 0 <= k < |after.payments|
      ensures PaymentValid(after, after.payments[k])
    {
      assert k < |desk.payments| ==> PaymentValid(desk, desk.payments[k]);
    }
  }

  /** A payment that is added takes no document away. */
  lemma PaymentsStay(desk: Desk, after: Desk, p: Payment)
    requires after.payments == desk.payments + [p]
    requires |desk.invoices| <= |after.invoices| && after.notes == desk.notes
    requires forall i :: 0 <= i < |desk.invoices| && desk.invoices[i].stamp.Some? ==> after.invoices[i].stamp.Some?
    ensures forall key :: Documented(desk, key) ==> Documented(after, key)
    ensures PaymentPrints(after.payments, PrintedOf(p.stamp))
  {
    assert after.payments[|desk.payments|] == p;
    forall key | Documented(desk, key)
      ensures Documented(after, key)
    {
      if key.purpose.InvoicePayment? {
        var k :| 0 <= k < |desk.payments| && PrintedOf(desk.payments[k].stamp) == key.purpose.number;
        assert after.payments[k] == desk.payments[k];
      }
    }
  }

  lemma PayKeeps(desk: Desk, req: PayRequest)
    requires Inv(desk) && PayWrite(desk, req).Success?
    ensures Inv(PayWrite(desk, req).value)
  {
    PaidTables(desk, req);
    PayKeepsRows(desk, req);
    var after := PayWrite(desk, req).value;
    var stamp := Stamp(Allocate(desk.counters, PaymentCounter(req)).value, req.format);
    FreshPayment(desk, PaymentCounter(req), req.format);
    PaymentsStay(desk, after, Payment(req.invoice, req.amount, req.reference, stamp));
    PostKeepsJournals(desk, PaymentPosting(desk, req, stamp), after);
  }

  lemma RaiseKeeps(desk: Desk, id: nat, credit: bool, amount: int, tax: int, reason: string, user: int, date: Day)
    requires Inv(desk) && RaiseNote(desk, id, credit, amount, tax, reason, user, date).Success?
    ensures Inv(RaiseNote(desk, id, credit, amount, tax, reason, user, date).value)
  {
    var after := RaiseNote(desk, id, credit, amount, tax, reason, user, date).value;
    KeptElsewhere(desk, after);
    DocumentsStay(desk, after);
  }

  lemma CreditedValid(invoices: seq<Invoice>, n: Note)
    requires n.total > 0 && forall i :: 0 <= i < |invoices| ==> InvoiceValid(invoices[i])
    ensures forall i :: 0 <= i < |invoices| ==>
              && InvoiceValid(Credited(invoices, n)[i])
              && Credited(invoices, n)[i].stamp == invoices[i].stamp
              && Credited(invoices, n)[i].customer == invoices[i].customer
  {
  }

  lemma IssueNoteKeepsRows(desk: Desk, id: nat, user: int, format: Format)
    requires Inv(desk) && IssueNote(desk, id, user, format).Success?
    ensures var after := IssueNote(desk, id, user, format).value;
            InvoicesValid(after) && NotesValid(after) && PaymentsValid(after)
  {
    NotedTables(desk, id, user, format);
    var after := IssueNote(desk, id, user, format).value;
    var n := desk.notes[id];
    assert NoteValid(desk.invoices, n);
    CreditedValid(desk.invoices, n);
    AllocateGrows(desk.counters, NoteCounter(n));
    KeptElsewhere(desk, after);
    forall k | 0 <= k < |after.notes|
      ensures NoteValid(after.invoices, after.notes[k])
    {
      assert NoteValid(desk.invoices, desk.notes[k]);
    }
  }

  lemma IssueNoteKeeps(desk: Desk, id: nat, user: int, format: Format)
    requires Inv(desk) && IssueNote(desk, id, user, format).Success?
    ensures Inv(IssueNote(desk, id, user, format).value)
  {
    NotedTables(desk, id, user, format);
    IssueNoteKeepsRows(desk, id, user, format);
    assert NoteValid(desk.invoices, desk.notes[id]);
    CreditedValid(desk.invoices, desk.notes[id]);
    DocumentsStay(desk, IssueNote(desk, id, user, format).value);
    PostKeepsJournals(desk, NotePosting(desk, id), IssueNote(desk, id, user, format).value);
  }

  /** No stamp is ever taken back. */
  lemma DocumentsStay(desk: Desk, after: Desk)
    requires |desk.invoices| <= |after.invoices| && |desk.notes| <= |after.notes| && after.payments == desk.payments
    requires forall i :: 0 <= i < |desk.invoices| && desk.invoices[i].stamp.Some? ==> after.invoices[i].stamp.Some?
    requires forall n :: 0 <= n < |desk.notes| && desk.notes[n].stamp.Some? ==> after.notes[n].stamp.Some?
    ensures forall key :: Documented(desk, key) ==> Documented(after, key)
  {
  }

  lemma StatusKeeps(desk: Desk, after: Desk)
    requires Inv(desk)
    requires after == desk.(invoices := after.invoices) && |after.invoices| == |desk.invoices|
    requires forall i :: 0 <= i < |desk.invoices| ==>
               InvoiceValid(after.invoices[i]) && after.invoices[i] == desk.invoices[i].(status := after.invoices[i].status)
    ensures Inv(after)
  {
    KeptElsewhere(desk, after);
    DocumentsStay(desk, after);
  }

  lemma StepKeeps(desk: Desk, event: Event)
    requires Inv(desk)
    ensures Inv(Step(desk, event))
  {
    if Outcome(desk, event).Success? {
      match event
      case DraftOne(customer, date, due, shipments, rates) => DraftKeeps(desk, customer, date, due, shipments, rates);
      case IssueOne(id, format) => IssueKeeps(desk, id, format);
      case Pay(request) => PayKeeps(desk, request);
      case Raise(id, credit, amount, tax, reason, user, date) => RaiseKeeps(desk, id, credit, amount, tax, reason, user, date);
      case IssueNoteOne(id, user, format) => IssueNoteKeeps(desk, id, user, format);
      case Cancel(id) => StatusKeeps(desk, CancelInvoice(desk, id).value);
      case Overdues(today) => StatusKeeps(desk, MarkOverdue(desk, today));
    }
  }

  lemma {:induction false} RunKeeps(desk: Desk, events: seq<Event>)
    requires Inv(desk)
    ensures Inv(Run(desk, events))
  {
    if events != [] {
      var n := |events| - 1;
      RunKeeps(desk, events[..n]);
      StepKeeps(Run(desk, events[..n]), events[n]);
    }
  }

  lemma Reachable(currency: Currency, events: seq<Event>)
    ensures Inv(Run(EmptyDesk(currency), events))
  {
    RunKeeps(EmptyDesk(currency), events);
  }
}
