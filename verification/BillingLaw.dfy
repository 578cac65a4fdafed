/**
 * The customer's receivable in the ledger against the invoices that are still
 * open, payments against their rows, and the numbers every counter has given out.
 */
module BillingLaw {
  import opened Sums
  import opened Ledger
  import opened InvoiceNumbers
  import InvoiceLines
  import opened Billing
  import opened BillingInvariant

  // ----- The terms ----------------------------------------------------------

  function BilledFn(customer: int): Invoice -> int {
    (inv: Invoice) => if inv.customer == customer && inv.stamp.Some? then inv.header.total - inv.paid else 0
  }

  function CreditedOnFn(customer: int): Invoice -> int {
    (inv: Invoice) => if inv.customer == customer then inv.credited else 0
  }

  function IssuedFn(customer: int, credit: bool): Note -> int {
    (n: Note) => if n.customer == customer && n.credit == credit && n.stamp.Some? then n.total else 0
  }

  function RecordedFn(customer: int): Note -> int {
    (n: Note) => if n.customer == customer && n.recorded then n.total else 0
  }

  function PaidOnFn(invoice: nat): Payment -> int {
    (p: Payment) => if p.invoice == invoice then p.amount else 0
  }

  function PaidOf(desk: Desk, invoice: nat): int {
    if invoice < |desk.invoices| then desk.invoices[invoice].paid else 0
  }

  /** What was billed, less what was paid and credited, plus what was debited. */
  predicate ReceivableLaw(desk: Desk, customer: int) {
    Receivable(desk, customer)
    == Sum(desk.invoices, BilledFn(customer)) - Sum(desk.notes, IssuedFn(customer, true)) + Sum(desk.notes, IssuedFn(customer, false))
  }

  predicate CreditLaw(desk: Desk, customer: int) {
    Sum(desk.invoices, CreditedOnFn(customer)) == Sum(desk.notes, RecordedFn(customer))
  }

  predicate PaymentLaw(desk: Desk, invoice: nat) {
    PaidOf(desk, invoice) == Sum(desk.payments, PaidOnFn(invoice))
  }

  predicate Laws(desk: Desk, customer: int, invoice: nat) {
    ReceivableLaw(desk, customer) && CreditLaw(desk, customer) && PaymentLaw(desk, invoice)
  }

  // ----- Postings -----------------------------------------------------------

  lemma PostMoves(desk: Desk, posting: Posting, customer: int)
    requires JournalsValid(desk) && !Documented(desk, posting.key) && Post(desk.book, posting).Success?
    ensures var f := SubsidiaryFn(TradeReceivable, CustomerOf(customer));
            Balance(Post(desk.book, posting).value.book, f) == Balance(desk.book, f) + Sum(posting.legs, f)
  {
    FreshKey(desk, posting.key);
    PostEffect(desk.book, posting, SubsidiaryFn(TradeReceivable, CustomerOf(customer)));
  }

  lemma IssueLegSums(inv: Invoice, f: Leg -> int)
    ensures var legs := IssueLegs(inv);
            Sum(legs, f) == f(legs[0]) + f(legs[1]) + (if inv.header.tax > 0 then f(legs[2]) else 0)
  {
    var legs := IssueLegs(inv);
    if inv.header.tax > 0 {
      Sum3(legs[0], legs[1], legs[2], f);
      assert legs == [legs[0], legs[1], legs[2]];
    } else {
      Sum2(legs[0], legs[1], f);
      assert legs == [legs[0], legs[1]];
    }
  }

  lemma IssueLegsMove(inv: Invoice, customer: int)
    ensures Sum(IssueLegs(inv), SubsidiaryFn(TradeReceivable, CustomerOf(customer)))
            == if inv.customer == customer then inv.header.total else 0
  {
    IssueLegSums(inv, SubsidiaryFn(TradeReceivable, CustomerOf(customer)));
  }

  lemma PaymentLegsMove(inv: Invoice, amount: int, customer: int)
    ensures Sum(PaymentLegs(inv, amount), SubsidiaryFn(TradeReceivable, CustomerOf(customer)))
            == if inv.customer == customer then -amount else 0
  {
    var legs := PaymentLegs(inv, amount);
    Sum2(legs[0], legs[1], SubsidiaryFn(TradeReceivable, CustomerOf(customer)));
  }

  lemma NoteLegSums(n: Note, f: Leg -> int)
    ensures var legs := NoteLegs(n);
            Sum(legs, f) == f(legs[0]) + f(legs[1]) + (if n.tax > 0 then f(legs[2]) else 0)
  {
    var legs := NoteLegs(n);
    if n.tax > 0 {
      Sum3(legs[0], legs[1], legs[2], f);
      assert legs == [legs[0], legs[1], legs[2]];
    } else {
      Sum2(legs[0], legs[1], f);
      assert legs == [legs[0], legs[1]];
    }
  }

  lemma NoteLegsMove(n: Note, customer: int)
    ensures Sum(NoteLegs(n), SubsidiaryFn(TradeReceivable, CustomerOf(customer)))
            == if n.customer != customer then 0 else if n.credit then -n.total else n.total
  {
    NoteLegSums(n, SubsidiaryFn(TradeReceivable, CustomerOf(customer)));
  }

  // ----- Steps --------------------------------------------------------------

  /** A new draft asks for nothing yet. */
  lemma AddInvoiceLaw(desk: Desk, row: Invoice, c: int, i: nat)
    requires Laws(desk, c, i) && row.stamp.None? && row.paid == 0 && row.credited == 0
    ensures Laws(desk.(invoices := desk.invoices + [row]), c, i)
  {
    SumAppend(desk.invoices, row, BilledFn(c));
    SumAppend(desk.invoices, row, CreditedOnFn(c));
  }

  lemma DraftLaw(desk: Desk, customer: int, date: Day, due: int, shipments: seq<InvoiceLines.Shipment>, rates: seq<int>, c: int, i: nat)
    requires Inv(desk) && Laws(desk, c, i) && DraftInvoice(desk, customer, date, due, shipments, rates).Success?
    ensures Laws(DraftInvoice(desk, customer, date, due, shipments, rates).value, c, i)
  {
    DraftedTables(desk, customer, date, due, shipments, rates);
    AddInvoiceLaw(desk, Invoice(customer, date, due, InvoiceLines.HeaderOf(shipments, rates), Draft, 0, 0, None), c, i);
  }

  lemma StampedLaw(desk: Desk, id: nat, row: Invoice, counters: Counters, book: Book, c: int, i: nat)
    requires Laws(desk, c, i) && id < |desk.invoices| && desk.invoices[id].stamp.None? && InvoiceValid(desk.invoices[id])
    requires row == desk.invoices[id].(status := row.status, stamp := row.stamp) && row.stamp.Some?
    requires var f := SubsidiaryFn(TradeReceivable, CustomerOf(c));
             Balance(book, f) == Balance(desk.book, f) + if row.customer == c then row.header.total else 0
    ensures Laws(desk.(invoices := desk.invoices[id := row], counters := counters, book := book), c, i)
  {
    SumUpdate(desk.invoices, id, row, BilledFn(c));
    SumUpdate(desk.invoices, id, row, CreditedOnFn(c));
  }

  lemma IssueLaw(desk: Desk, id: nat, format: Format, c: int, i: nat)
    requires Inv(desk) && Laws(desk, c, i) && IssueInvoice(desk, id, format).Success?
    ensures Laws(IssueInvoice(desk, id, format).value, c, i)
  {
    IssuedTables(desk, id, format);
    var after := IssueInvoice(desk, id, format).value;
    assert InvoiceValid(desk.invoices[id]);
    PostMoves(desk, IssuePosting(desk, id), c);
    IssueLegsMove(desk.invoices[id], c);
    StampedLaw(desk, id, after.invoices[id], after.counters, after.book, c, i);
  }

  lemma PaymentMoves(desk: Desk, req: PayRequest, stamp: Stamp, c: int)
    requires JournalsValid(desk) && req.invoice < |desk.invoices| && !PaymentPrints(desk.payments, PrintedOf(stamp))
    requires Post(desk.book, PaymentPosting(desk, req, stamp)).Success?
    ensures var f := SubsidiaryFn(TradeReceivable, CustomerOf(c));
            Balance(Post(desk.book, PaymentPosting(desk, req, stamp)).value.book, f)
            == Balance(desk.book, f) - if desk.invoices[req.invoice].customer == c then req.amount else 0
  {
    PostMoves(desk, PaymentPosting(desk, req, stamp), c);
    PaymentLegsMove(desk.invoices[req.invoice], req.amount, c);
  }

  lemma PaidLaw(desk: Desk, req: PayRequest, stamp: Stamp, counters: Counters, book: Book, c: int, i: nat)
    requires Laws(desk, c, i) && req.invoice < |desk.invoices| && desk.invoices[req.invoice].stamp.Some?
    requires var f := SubsidiaryFn(TradeReceivable, CustomerOf(c));
             Balance(book, f) == Balance(desk.book, f) - if desk.invoices[req.invoice].customer == c then req.amount else 0
    ensures Laws(desk.(invoices := desk.invoices[req.invoice := TakePayment(desk.invoices[req.invoice], req.amount)],
                       payments := desk.payments + [Payment(req.invoice, req.amount, req.reference, stamp)],
                       counters := counters, book := book), c, i)
  {
    var row := TakePayment(desk.invoices[req.invoice], req.amount);
    SumUpdate(desk.invoices, req.invoice, row, BilledFn(c));
    SumUpdate(desk.invoices, req.invoice, row, CreditedOnFn(c));
    SumAppend(desk.payments, Payment(req.invoice, req.amount, req.reference, stamp), PaidOnFn(i));
  }

  lemma PayLaw(desk: Desk, req: PayRequest, c: int, i: nat)
    requires Inv(desk) && Laws(desk, c, i) && PayWrite(desk, req).Success?
    ensures Laws(PayWrite(desk, req).value, c, i)
  {
    PaidTables(desk, req);
    var after := PayWrite(desk, req).value;
    var stamp := Stamp(Allocate(desk.counters, PaymentCounter(req)).value, req.format);
    assert InvoiceValid(desk.invoices[req.invoice]);
    FreshPayment(desk, PaymentCounter(req), req.format);
    PaymentMoves(desk, req, stamp, c);
    PaidLaw(desk, req, stamp, after.counters, after.book, c, i);
  }

  lemma RaiseLaw(desk: Desk, id: nat, credit: bool, amount: int, tax: int, reason: string, user: int, date: Day, c: int, i: nat)
    requires Laws(desk, c, i) && RaiseNote(desk, id, credit, amount, tax, reason, user, date).Success?
    ensures Laws(RaiseNote(desk, id, credit, amount, tax, reason, user, date).value, c, i)
  {
    var after := RaiseNote(desk, id, credit, amount, tax, reason, user, date).value;
    var row := after.notes[|desk.notes|];
    SumAppend(desk.notes, row, IssuedFn(c, true));
    SumAppend(desk.notes, row, IssuedFn(c, false));
    SumAppend(desk.notes, row, RecordedFn(c));
  }

  /** What a recorded credit does to the sums over invoices. */
  lemma CreditedSums(invoices: seq<Invoice>, n: Note, c: int)
    requires n.invoice < |invoices| && n.customer == invoices[n.invoice].customer
    ensures Sum(Credited(invoices, n), BilledFn(c)) == Sum(invoices, BilledFn(c))
    ensures Sum(Credited(invoices, n), CreditedOnFn(c))
            == Sum(invoices, CreditedOnFn(c)) + (if n.credit && Open(invoices[n.invoice]) && n.customer == c then n.total else 0)
  {
    if n.credit && Open(invoices[n.invoice]) {
      SumUpdate(invoices, n.invoice, TakeCredit(invoices[n.invoice], n.total), BilledFn(c));
      SumUpdate(invoices, n.invoice, TakeCredit(invoices[n.invoice], n.total), CreditedOnFn(c));
    }
  }

  lemma NoteMovesBook(desk: Desk, id: nat, c: int)
    requires JournalsValid(desk) && id < |desk.notes| && desk.notes[id].stamp.None? && Post(desk.book, NotePosting(desk, id)).Success?
    ensures var n, f := desk.notes[id], SubsidiaryFn(TradeReceivable, CustomerOf(c));
            Balance(Post(desk.book, NotePosting(desk, id)).value.book, f)
            == Balance(desk.book, f) + (if n.customer != c then 0 else if n.credit then -n.total else n.total)
  {
    PostMoves(desk, NotePosting(desk, id), c);
    NoteLegsMove(desk.notes[id], c);
  }

  lemma NotedLaw(desk: Desk, id: nat, row: Note, counters: Counters, book: Book, c: int, i: nat)
    requires Laws(desk, c, i) && id < |desk.notes| && NoteValid(desk.invoices, desk.notes[id]) && desk.notes[id].stamp.None?
    requires row == desk.notes[id].(stamp := row.stamp, recorded := Reaches(desk.invoices, desk.notes[id])) && row.stamp.Some?
    requires var n, f := desk.notes[id], SubsidiaryFn(TradeReceivable, CustomerOf(c));
             Balance(book, f) == Balance(desk.book, f) + (if n.customer != c then 0 else if n.credit then -n.total else n.total)
    ensures Laws(desk.(invoices := Credited(desk.invoices, desk.notes[id]), notes := desk.notes[id := row], counters := counters, book := book), c, i)
  {
    CreditedSums(desk.invoices, desk.notes[id], c);
    NoteSums(desk.notes, id, row, c);
  }

  lemma IssueNoteLaw(desk: Desk, id: nat, user: int, format: Format, c: int, i: nat)
    requires Inv(desk) && Laws(desk, c, i) && IssueNote(desk, id, user, format).Success?
    ensures Laws(IssueNote(desk, id, user, format).value, c, i)
  {
    NotedTables(desk, id, user, format);
    var after := IssueNote(desk, id, user, format).value;
    assert NoteValid(desk.invoices, desk.notes[id]);
    NoteMovesBook(desk, id, c);
    NotedLaw(desk, id, after.notes[id], after.counters, after.book, c, i);
  }

  lemma NoteSums(notes: seq<Note>, id: nat, row: Note, c: int)
    requires id < |notes|
    ensures forall credit :: Sum(notes[id := row], IssuedFn(c, credit))
                             == Sum(notes, IssuedFn(c, credit)) - IssuedFn(c, credit)(notes[id]) + IssuedFn(c, credit)(row)
    ensures Sum(notes[id := row], RecordedFn(c)) == Sum(notes, RecordedFn(c)) - RecordedFn(c)(notes[id]) + RecordedFn(c)(row)
  {
    forall credit
      ensures Sum(notes[id := row], IssuedFn(c, credit))
              == Sum(notes, IssuedFn(c, credit)) - IssuedFn(c, credit)(notes[id]) + IssuedFn(c, credit)(row)
    {
      SumUpdate(notes, id, row, IssuedFn(c, credit));
    }
    SumUpdate(notes, id, row, RecordedFn(c));
  }

  lemma StatusLaw(desk: Desk, after: Desk, c: int, i: nat)
    requires Laws(desk, c, i)
    requires after == desk.(invoices := after.invoices) && |after.invoices| == |desk.invoices|
    requires forall k :: 0 <= k < |desk.invoices| ==> after.invoices[k] == desk.invoices[k].(status := after.invoices[k].status)
    ensures Laws(after, c, i)
  {
    SumPointwise(after.invoices, desk.invoices, BilledFn(c), BilledFn(c));
    SumPointwise(after.invoices, desk.invoices, CreditedOnFn(c), CreditedOnFn(c));
  }

  lemma StepLaw(desk: Desk, event: Event, c: int, i: nat)
    requires Inv(desk) && Laws(desk, c, i)
    ensures Laws(Step(desk, event), c, i)
  {
    if Outcome(desk, event).Success? {
      match event
      case DraftOne(customer, date, due, shipments, rates) => DraftLaw(desk, customer, date, due, shipments, rates, c, i);
      case IssueOne(id, format) => IssueLaw(desk, id, format, c, i);
      case Pay(request) => PayLaw(desk, request, c, i);
      case Raise(id, credit, amount, tax, reason, user, date) => RaiseLaw(desk, id, credit, amount, tax, reason, user, date, c, i);
      case IssueNoteOne(id, user, format) => IssueNoteLaw(desk, id, user, format, c, i);
      case Cancel(id) => StatusLaw(desk, CancelInvoice(desk, id).value, c, i);
      case Overdues(today) => StatusLaw(desk, MarkOverdue(desk, today), c, i);
    }
  }

  lemma {:induction false} RunLaw(currency: Currency, events: seq<Event>, c: int, i: nat)
    ensures Laws(Run(EmptyDesk(currency), events), c, i)
  {
    if events != [] {
      var n := |events| - 1;
      RunLaw(currency, events[..n], c, i);
      Reachable(currency, events[..n]);
      StepLaw(Run(EmptyDesk(currency), events[..n]), events[n], c, i);
    }
  }

  // ----- Receivable and outstanding -----------------------------------------

  /** Stamped invoices the outstanding query no longer counts. */
  function ClosedFn(customer: int): Invoice -> int {
    (inv: Invoice) => if inv.customer == customer && inv.stamp.Some? && !Open(inv) then Due(inv) else 0
  }

  function DueFn(customer: int): Invoice -> int {
    (inv: Invoice) => if inv.customer == customer && inv.stamp.Some? then Due(inv) else 0
  }

  /** Credit notes that reached the ledger but no invoice. */
  function UnrecordedFn(customer: int): Note -> int {
    (n: Note) => if n.customer == customer && n.credit && n.stamp.Some? && !n.recorded then n.total else 0
  }

  /** By how much the ledger and the outstanding query may differ. */
  function Gap(desk: Desk, customer: int): int {
    Sum(desk.invoices, ClosedFn(customer)) + Sum(desk.notes, IssuedFn(customer, false)) - Sum(desk.notes, UnrecordedFn(customer))
  }

  lemma DueSplits(desk: Desk, customer: int)
    requires Inv(desk)
    ensures Sum(desk.invoices, BilledFn(customer)) - Sum(desk.invoices, CreditedOnFn(customer))
            == Outstanding(desk, customer) + Sum(desk.invoices, ClosedFn(customer))
  {
    forall i | 0 <= i < |desk.invoices|
      ensures BilledFn(customer)(desk.invoices[i]) == DueFn(customer)(desk.invoices[i]) + CreditedOnFn(customer)(desk.invoices[i])
      ensures DueFn(customer)(desk.invoices[i]) == OutstandingFn(customer)(desk.invoices[i]) + ClosedFn(customer)(desk.invoices[i])
    {
      assert InvoiceValid(desk.invoices[i]);
    }
    SumLinear(desk.invoices, DueFn(customer), CreditedOnFn(customer), BilledFn(customer));
    SumLinear(desk.invoices, OutstandingFn(customer), ClosedFn(customer), DueFn(customer));
  }

  lemma CreditSplits(desk: Desk, customer: int)
    requires Inv(desk)
    ensures Sum(desk.notes, IssuedFn(customer, true)) == Sum(desk.notes, RecordedFn(customer)) + Sum(desk.notes, UnrecordedFn(customer))
  {
    forall n | 0 <= n < |desk.notes|
      ensures IssuedFn(customer, true)(desk.notes[n]) == RecordedFn(customer)(desk.notes[n]) + UnrecordedFn(customer)(desk.notes[n])
    {
      assert NoteValid(desk.invoices, desk.notes[n]);
    }
    SumLinear(desk.notes, RecordedFn(customer), UnrecordedFn(customer), IssuedFn(customer, true));
  }

  /** In every run, ledger and outstanding differ by exactly the gap. */
  lemma GapLaw(currency: Currency, events: seq<Event>, customer: int)
    ensures var desk := Run(EmptyDesk(currency), events);
            Receivable(desk, customer) == Outstanding(desk, customer) + Gap(desk, customer)
  {
    var desk := Run(EmptyDesk(currency), events);
    RunLaw(currency, events, customer, 0);
    Reachable(currency, events);
    DueSplits(desk, customer);
    CreditSplits(desk, customer);
  }

  /** A step that, if it commits a note, credits no more than is outstanding then, and if it commits a cancellation, cancels a draft. */
  predicate Careful(desk: Desk, event: Event) {
    Outcome(desk, event).Success? ==>
      match event
      case IssueNoteOne(id, user, format) =>
        id < |desk.notes| ==>
          var n := desk.notes[id];
          n.credit && n.invoice < |desk.invoices| && Open(desk.invoices[n.invoice]) && n.total <= Due(desk.invoices[n.invoice])
      case Cancel(id) => id < |desk.invoices| ==> desk.invoices[id].status == Draft
      case _ => true
  }

  ghost predicate CarefulRun(currency: Currency, events: seq<Event>) {
    forall k :: 0 <= k < |events| ==> Careful(Run(EmptyDesk(currency), events[..k]), events[k])
  }

  /** Nothing is left over on a closed invoice, and every note reached its invoice. */
  predicate Clean(desk: Desk) {
    && (forall i :: 0 <= i < |desk.invoices| && desk.invoices[i].stamp.Some? ==> Open(desk.invoices[i]) || Due(desk.invoices[i]) == 0)
    && (forall n :: 0 <= n < |desk.notes| && desk.notes[n].stamp.Some? ==> desk.notes[n].credit && desk.notes[n].recorded)
  }

  lemma CleanDraft(desk: Desk, customer: int, date: Day, due: int, shipments: seq<InvoiceLines.Shipment>, rates: seq<int>)
    requires Clean(desk) && DraftInvoice(desk, customer, date, due, shipments, rates).Success?
    ensures Clean(DraftInvoice(desk, customer, date, due, shipments, rates).value)
  {
    DraftedTables(desk, customer, date, due, shipments, rates);
  }

  lemma CleanPay(desk: Desk, req: PayRequest)
    requires Clean(desk) && PayWrite(desk, req).Success?
    ensures Clean(PayWrite(desk, req).value)
  {
    PaidTables(desk, req);
  }

  lemma CleanIssue(desk: Desk, id: nat, format: Format)
    requires Inv(desk) && Clean(desk) && IssueInvoice(desk, id, format).Success?
    ensures Clean(IssueInvoice(desk, id, format).value)
  {
    IssuedTables(desk, id, format);
  }

  lemma CleanStep(desk: Desk, event: Event)
    requires Inv(desk) && Clean(desk) && Careful(desk, event)
    ensures Clean(Step(desk, event))
  {
    if Outcome(desk, event).Success? {
      match event
      case DraftOne(customer, date, due, shipments, rates) => CleanDraft(desk, customer, date, due, shipments, rates);
      case IssueOne(id, format) => CleanIssue(desk, id, format);
      case Pay(request) => CleanPay(desk, request);
      case Raise(id, credit, amount, tax, reason, user, date) =>
      case IssueNoteOne(id, user, format) => CleanIssueNote(desk, id, user, format);
      case Cancel(id) => assert InvoiceValid(desk.invoices[id]);
      case Overdues(today) =>
    }
  }

  lemma CleanIssueNote(desk: Desk, id: nat, user: int, format: Format)
    requires Inv(desk) && Clean(desk) && Careful(desk, IssueNoteOne(id, user, format)) && IssueNote(desk, id, user, format).Success?
    ensures Clean(IssueNote(desk, id, user, format).value)
  {
    var n := desk.notes[id];
    assert NoteValid(desk.invoices, n);
    assert InvoiceValid(desk.invoices[n.invoice]);
  }

  lemma {:induction false} CleanRun(currency: Currency, events: seq<Event>)
    requires CarefulRun(currency, events)
    ensures Clean(Run(EmptyDesk(currency), events))
  {
    if events != [] {
      var n := |events| - 1;
      forall k | 0 <= k < n
        ensures Careful(Run(EmptyDesk(currency), events[..n][..k]), events[..n][k])
      {
        assert events[..n][..k] == events[..k];
        assert Careful(Run(EmptyDesk(currency), events[..k]), events[k]);
      }
      CleanRun(currency, events[..n]);
      Reachable(currency, events[..n]);
      CleanStep(Run(EmptyDesk(currency), events[..n]), events[n]);
    }
  }

  /**
   * In every run of drafting, issuing, overdue marking, payments, and credit
   * notes no larger than what is outstanding when they are issued, a customer's
   * trade receivable is the outstanding sum over its open invoices.
   */
  lemma ReceivableIsOutstanding(currency: Currency, events: seq<Event>, customer: int)
    requires CarefulRun(currency, events)
    ensures var desk := Run(EmptyDesk(currency), events);
            Receivable(desk, customer) == Outstanding(desk, customer)
  {
    var desk := Run(EmptyDesk(currency), events);
    GapLaw(currency, events, customer);
    CleanRun(currency, events);
    SumZero(desk.invoices, ClosedFn(customer));
    SumZero(desk.notes, IssuedFn(customer, false));
    SumZero(desk.notes, UnrecordedFn(customer));
  }

  lemma OutstandingAfterCredit(invoices: seq<Invoice>, n: Note)
    requires n.credit && n.total > 0 && n.invoice < |invoices| && n.customer == invoices[n.invoice].customer
    requires InvoiceValid(invoices[n.invoice])
    ensures var inv := invoices[n.invoice];
            Sum(Credited(invoices, n), OutstandingFn(n.customer)) - Sum(invoices, OutstandingFn(n.customer))
            == if !Open(inv) then 0 else if n.total <= Due(inv) then -n.total else -Due(inv)
  {
    if Open(invoices[n.invoice]) {
      SumUpdate(invoices, n.invoice, TakeCredit(invoices[n.invoice], n.total), OutstandingFn(n.customer));
    }
  }

  /**
   * A credit note that is issued leaves ledger and outstanding as far apart as
   * they were exactly when its invoice is open and owes at least its total.
   */
  lemma NoteKeepsGapIff(currency: Currency, events: seq<Event>, id: nat, user: int, format: Format)
    requires var desk := Run(EmptyDesk(currency), events);
             IssueNote(desk, id, user, format).Success? && desk.notes[id].credit
    ensures var desk := Run(EmptyDesk(currency), events);
            var after, n := IssueNote(desk, id, user, format).value, desk.notes[id];
            && n.invoice < |desk.invoices|
            && (Receivable(after, n.customer) - Outstanding(after, n.customer) == Receivable(desk, n.customer) - Outstanding(desk, n.customer)
                <==> Open(desk.invoices[n.invoice]) && n.total <= Due(desk.invoices[n.invoice]))
  {
    var desk := Run(EmptyDesk(currency), events);
    Reachable(currency, events);
    NoteMoves(desk, id, user, format);
  }

  lemma NoteMoves(desk: Desk, id: nat, user: int, format: Format)
    requires Inv(desk) && IssueNote(desk, id, user, format).Success? && desk.notes[id].credit
    ensures var after, n := IssueNote(desk, id, user, format).value, desk.notes[id];
            && n.invoice < |desk.invoices| && n.total > 0
            && Receivable(after, n.customer) == Receivable(desk, n.customer) - n.total
            && Outstanding(after, n.customer) - Outstanding(desk, n.customer)
               == (if !Open(desk.invoices[n.invoice]) then 0
                   else if n.total <= Due(desk.invoices[n.invoice]) then -n.total else -Due(desk.invoices[n.invoice]))
  {
    var n := desk.notes[id];
    NotedTables(desk, id, user, format);
    assert NoteValid(desk.invoices, n);
    NoteMovesBook(desk, id, n.customer);
    assert InvoiceValid(desk.invoices[n.invoice]);
    OutstandingAfterCredit(desk.invoices, n);
  }

  /** The journal of a note balances exactly when its tax is not negative. */
  lemma NoteBalancesIff(n: Note)
    requires n.total == n.subtotal + n.tax
    ensures BalancedLegs(NoteLegs(n)) <==> n.tax >= 0
  {
    NoteLegSums(n, DebitFn());
    NoteLegSums(n, CreditFn());
  }

  lemma NotePostsIff(desk: Desk, id: nat)
    requires JournalsValid(desk) && id < |desk.notes| && desk.notes[id].stamp.None? && NoteValid(desk.invoices, desk.notes[id])
    ensures Post(desk.book, NotePosting(desk, id)).Success? <==>
            !desk.book.currency.Unsupported? && desk.notes[id].customer != 0 && desk.notes[id].tax >= 0
  {
    var posting := NotePosting(desk, id);
    FreshKey(desk, posting.key);
    PostAcceptedIff(desk.book, posting);
    NoteBalancesIff(desk.notes[id]);
    assert posting.legs[0] in posting.legs && posting.legs[1] in posting.legs;
  }

  /** The slack of an open invoice is all that is checked of what it owes. */
  lemma SlackIff(desk: Desk, n: Note)
    requires NoteValid(desk.invoices, n)
    ensures var invoices := Credited(desk.invoices, n);
            (invoices != desk.invoices && !WithinSlack(invoices[n.invoice])) <==>
            Reaches(desk.invoices, n) && n.total > Due(desk.invoices[n.invoice]) + 100
  {
    if Reaches(desk.invoices, n) {
      assert Credited(desk.invoices, n)[n.invoice].credited != desk.invoices[n.invoice].credited;
    }
  }

  /**
   * When a note is issued. Nothing compares a credit with what the invoice
   * still owes: only the slack of 100 on an open invoice stops it.
   */
  lemma IssueNoteIff(desk: Desk, id: nat, user: int, format: Format)
    requires Inv(desk) && id < |desk.notes|
    ensures var n := desk.notes[id];
            IssueNote(desk, id, user, format).Success? <==>
            && n.stamp.None? && n.raisedBy != user && n.customer != 0 && n.tax >= 0
            && !desk.book.currency.Unsupported?
            && Current(desk.counters, NoteCounter(n)) < 999_999_999
            && !NotePrints(desk.notes, Printed(format.prefix, NoteCounter(n).year, format.padding, Current(desk.counters, NoteCounter(n)) + 1))
            && (Reaches(desk.invoices, n) ==> n.total <= Due(desk.invoices[n.invoice]) + 100)
  {
    var n := desk.notes[id];
    assert NoteValid(desk.invoices, n);
    SlackIff(desk, n);
    if n.stamp.None? {
      NotePostsIff(desk, id);
    }
  }

  // ----- Status follows the arithmetic --------------------------------------

  /**
   * In every run an open invoice owes something, a PAID one nothing, a CANCELLED
   * one was paid nothing; paid is the sum of the payment rows and never more
   * than the total.
   */
  lemma StatusFollowsArithmetic(currency: Currency, events: seq<Event>, i: nat)
    requires i < |Run(EmptyDesk(currency), events).invoices|
    ensures var desk := Run(EmptyDesk(currency), events);
            var inv := desk.invoices[i];
            && (Open(inv) ==> inv.paid + inv.credited < inv.header.total)
            && (inv.status == Paid ==> inv.paid + inv.credited >= inv.header.total)
            && (inv.status == Cancelled ==> inv.paid == 0)
            && inv.paid == Sum(desk.payments, PaidOnFn(i))
            && (inv.paid > 0 ==> inv.paid <= inv.header.total)
  {
    Reachable(currency, events);
    assert InvoiceValid(Run(EmptyDesk(currency), events).invoices[i]);
    RunLaw(currency, events, 0, i);
  }

  // ----- Numbers without gaps -----------------------------------------------

  function InvoiceHas(number: Number): Invoice -> int {
    (inv: Invoice) => if inv.stamp.Some? && inv.stamp.value.number == number then 1 else 0
  }

  function PaymentHas(number: Number): Payment -> int {
    (p: Payment) => if p.stamp.number == number then 1 else 0
  }

  function NoteHas(number: Number): Note -> int {
    (n: Note) => if n.stamp.Some? && n.stamp.value.number == number then 1 else 0
  }

  /** How many documents carry a number. */
  function Carriers(desk: Desk, number: Number): int {
    Sum(desk.invoices, InvoiceHas(number)) + Sum(desk.payments, PaymentHas(number)) + Sum(desk.notes, NoteHas(number))
  }

  predicate GivenOut(counters: Counters, number: Number) {
    1 <= number.value <= Current(counters, number.counter)
  }

  predicate NumberLaw(desk: Desk, number: Number) {
    Carriers(desk, number) == if GivenOut(desk.counters, number) then 1 else 0
  }

  lemma NumberIssue(desk: Desk, id: nat, format: Format, number: Number)
    requires Inv(desk) && NumberLaw(desk, number) && IssueInvoice(desk, id, format).Success?
    ensures NumberLaw(IssueInvoice(desk, id, format).value, number)
  {
    IssuedTables(desk, id, format);
    assert InvoiceValid(desk.invoices[id]);
    var stamp := Stamp(Allocate(desk.counters, InvoiceCounter(desk.invoices[id])).value, format);
    AllocateGrows(desk.counters, InvoiceCounter(desk.invoices[id]));
    SumUpdate(desk.invoices, id, desk.invoices[id].(status := Issued, stamp := Some(stamp)), InvoiceHas(number));
  }

  lemma NumberPay(desk: Desk, req: PayRequest, number: Number)
    requires NumberLaw(desk, number) && PayWrite(desk, req).Success?
    ensures NumberLaw(PayWrite(desk, req).value, number)
  {
    PaidTables(desk, req);
    AllocateGrows(desk.counters, PaymentCounter(req));
    var stamp := Stamp(Allocate(desk.counters, PaymentCounter(req)).value, req.format);
    SumUpdate(desk.invoices, req.invoice, TakePayment(desk.invoices[req.invoice], req.amount), InvoiceHas(number));
    SumAppend(desk.payments, Payment(req.invoice, req.amount, req.reference, stamp), PaymentHas(number));
  }

  lemma NumberNote(desk: Desk, id: nat, user: int, format: Format, number: Number)
    requires NumberLaw(desk, number) && IssueNote(desk, id, user, format).Success?
    ensures NumberLaw(IssueNote(desk, id, user, format).value, number)
  {
    NotedTables(desk, id, user, format);
    var after, n := IssueNote(desk, id, user, format).value, desk.notes[id];
    AllocateGrows(desk.counters, NoteCounter(n));
    SumPointwise(after.invoices, desk.invoices, InvoiceHas(number), InvoiceHas(number));
    SumUpdate(desk.notes, id, after.notes[id], NoteHas(number));
  }

  lemma NumberAdded(desk: Desk, row: Invoice, number: Number)
    requires NumberLaw(desk, number) && row.stamp.None?
    ensures NumberLaw(desk.(invoices := desk.invoices + [row]), number)
  {
    SumAppend(desk.invoices, row, InvoiceHas(number));
  }

  lemma NumberDraft(desk: Desk, customer: int, date: Day, due: int, shipments: seq<InvoiceLines.Shipment>, rates: seq<int>, number: Number)
    requires NumberLaw(desk, number) && DraftInvoice(desk, customer, date, due, shipments, rates).Success?
    ensures NumberLaw(DraftInvoice(desk, customer, date, due, shipments, rates).value, number)
  {
    DraftedTables(desk, customer, date, due, shipments, rates);
    NumberAdded(desk, Invoice(customer, date, due, InvoiceLines.HeaderOf(shipments, rates), Draft, 0, 0, None), number);
  }

  lemma NumberRaise(desk: Desk, id: nat, credit: bool, amount: int, tax: int, reason: string, user: int, date: Day, number: Number)
    requires NumberLaw(desk, number) && RaiseNote(desk, id, credit, amount, tax, reason, user, date).Success?
    ensures NumberLaw(RaiseNote(desk, id, credit, amount, tax, reason, user, date).value, number)
  {
    var after := RaiseNote(desk, id, credit, amount, tax, reason, user, date).value;
    SumAppend(desk.notes, after.notes[|desk.notes|], NoteHas(number));
  }

  lemma NumberStatus(desk: Desk, after: Desk, number: Number)
    requires NumberLaw(desk, number)
    requires after == desk.(invoices := after.invoices) && |after.invoices| == |desk.invoices|
    requires forall k :: 0 <= k < |desk.invoices| ==> after.invoices[k].stamp == desk.invoices[k].stamp
    ensures NumberLaw(after, number)
  {
    SumPointwise(after.invoices, desk.invoices, InvoiceHas(number), InvoiceHas(number));
  }

  lemma NumberStep(desk: Desk, event: Event, number: Number)
    requires Inv(desk) && NumberLaw(desk, number)
    ensures NumberLaw(Step(desk, event), number)
  {
    if Outcome(desk, event).Success? {
      match event
      case DraftOne(customer, date, due, shipments, rates) =>
        NumberDraft(desk, customer, date, due, shipments, rates, number);
      case IssueOne(id, format) => NumberIssue(desk, id, format, number);
      case Pay(request) => NumberPay(desk, request, number);
      case Raise(id, credit, amount, tax, reason, user, date) =>
        NumberRaise(desk, id, credit, amount, tax, reason, user, date, number);
      case IssueNoteOne(id, user, format) => NumberNote(desk, id, user, format, number);
      case Cancel(id) => NumberStatus(desk, CancelInvoice(desk, id).value, number);
      case Overdues(today) => NumberStatus(desk, MarkOverdue(desk, today), number);
    }
  }

  /**
   * In every run the numbers of a counter are given out without gap or repeat:
   * each of 1..n is on exactly one document, and no other number is on any.
   */
  lemma {:induction false} GaplessNumbers(currency: Currency, events: seq<Event>, number: Number)
    ensures NumberLaw(Run(EmptyDesk(currency), events), number)
  {
    if events != [] {
      var n := |events| - 1;
      GaplessNumbers(currency, events[..n], number);
      Reachable(currency, events[..n]);
      NumberStep(Run(EmptyDesk(currency), events[..n]), events[n], number);
    }
  }

  /** In the invoice series those documents are all invoices. */
  lemma InvoicesAreNumbered(currency: Currency, events: seq<Event>, year: nat, value: nat)
    ensures var desk := Run(EmptyDesk(currency), events);
            var number := Number(Counter(INVOICE_SERIES, InvoiceDoc, year), value);
            Sum(desk.invoices, InvoiceHas(number)) == if GivenOut(desk.counters, number) then 1 else 0
  {
    var desk := Run(EmptyDesk(currency), events);
    var number := Number(Counter(INVOICE_SERIES, InvoiceDoc, year), value);
    GaplessNumbers(currency, events, number);
    Reachable(currency, events);
    forall k | 0 <= k < |desk.payments|
      ensures PaymentHas(number)(desk.payments[k]) == 0
    {
      assert PaymentValid(desk, desk.payments[k]);
    }
    SumZero(desk.payments, PaymentHas(number));
    SumZero(desk.notes, NoteHas(number));
  }

  /** Two issued invoices never print alike, whatever prefix and padding were configured when. */
  lemma InvoicesPrintApart(currency: Currency, events: seq<Event>, i: nat, j: nat)
    requires var invoices := Run(EmptyDesk(currency), events).invoices;
             i < j < |invoices| && invoices[i].stamp.Some? && invoices[j].stamp.Some?
    ensures var invoices := Run(EmptyDesk(currency), events).invoices;
            PrintedOf(invoices[i].stamp.value) != PrintedOf(invoices[j].stamp.value)
  {
    var desk := Run(EmptyDesk(currency), events);
    var a, b := desk.invoices[i].stamp.value, desk.invoices[j].stamp.value;
    Reachable(currency, events);
    GaplessNumbers(currency, events, a.number);
    SumNonNegative(desk.payments, PaymentHas(a.number));
    SumNonNegative(desk.notes, NoteHas(a.number));
    if a.number == b.number {
      TwoCarriers(desk.invoices, i, j, a.number);
    }
    if PrintedOf(a) == PrintedOf(b) {
      PrintInjective(a.format.prefix, a.number.counter.year, a.format.padding, a.number.value,
                     b.format.prefix, b.number.counter.year, b.format.padding, b.number.value);
    }
  }

  lemma {:induction false} TwoCarriers(invoices: seq<Invoice>, i: nat, j: nat, number: Number)
    requires i < j < |invoices|
    requires InvoiceHas(number)(invoices[i]) == 1 && InvoiceHas(number)(invoices[j]) == 1
    ensures Sum(invoices, InvoiceHas(number)) >= 2
  {
    var n := |invoices| - 1;
    if j < n {
      TwoCarriers(invoices[..n], i, j, number);
    } else {
      SumUpdate(invoices[..n], i, invoices[i].(stamp := None), InvoiceHas(number));
      SumNonNegative(invoices[..n][i := invoices[i].(stamp := None)], InvoiceHas(number));
    }
  }

  // ----- When an invoice can be issued --------------------------------------

  /** The journal of an issue balances exactly when the tax is not negative. */
  lemma IssueBalancesIff(inv: Invoice)
    requires inv.header.total == inv.header.taxable + inv.header.tax
    ensures BalancedLegs(IssueLegs(inv)) <==> inv.header.tax >= 0
  {
    IssueLegSums(inv, DebitFn());
    IssueLegSums(inv, CreditFn());
  }

  /** Whatever is shipped and discounted, non-negative rates on a non-negative taxable sum make a journal that balances. */
  lemma DraftJournalBalances(customer: int, date: Day, due: int, shipments: seq<InvoiceLines.Shipment>, rates: seq<int>)
    requires InvoiceLines.HeaderOf(shipments, rates).taxable >= 0
    requires forall k :: 0 <= k < |rates| ==> rates[k] >= 0
    ensures BalancedLegs(IssueLegs(Invoice(customer, date, due, InvoiceLines.HeaderOf(shipments, rates), Draft, 0, 0, None)))
  {
    InvoiceLines.TaxNotNegative(InvoiceLines.HeaderOf(shipments, rates).taxable, rates);
    IssueBalancesIff(Invoice(customer, date, due, InvoiceLines.HeaderOf(shipments, rates), Draft, 0, 0, None));
  }

  lemma IssuePostsIff(desk: Desk, id: nat)
    requires Inv(desk) && id < |desk.invoices| && desk.invoices[id].stamp.None? && desk.invoices[id].header.total > 0
    ensures Post(desk.book, IssuePosting(desk, id)).Success? <==> !desk.book.currency.Unsupported? && desk.invoices[id].customer != 0
  {
    var posting := IssuePosting(desk, id);
    assert InvoiceValid(desk.invoices[id]);
    FreshKey(desk, posting.key);
    PostAcceptedIff(desk.book, posting);
    IssueBalancesIff(desk.invoices[id]);
    assert posting.legs[0] in posting.legs;
  }

  /**
   * Every draft that asks for money can be issued until its counter is
   * exhausted: its journal always balances and its number is never taken.
   */
  lemma IssueSucceedsIff(currency: Currency, events: seq<Event>, id: nat, format: Format)
    requires id < |Run(EmptyDesk(currency), events).invoices|
    ensures var desk := Run(EmptyDesk(currency), events);
            var inv := desk.invoices[id];
            IssueInvoice(desk, id, format).Success? <==>
            && inv.status == Draft && inv.header.total > 0 && inv.customer != 0
            && !desk.book.currency.Unsupported?
            && Current(desk.counters, InvoiceCounter(inv)) < 999_999_999
  {
    Reachable(currency, events);
    IssueIff(Run(EmptyDesk(currency), events), id, format);
  }

  lemma IssueIff(desk: Desk, id: nat, format: Format)
    requires Inv(desk) && id < |desk.invoices|
    ensures var inv := desk.invoices[id];
            IssueInvoice(desk, id, format).Success? <==>
            && inv.status == Draft && inv.header.total > 0 && inv.customer != 0
            && !desk.book.currency.Unsupported?
            && Current(desk.counters, InvoiceCounter(inv)) < 999_999_999
  {
    var inv := desk.invoices[id];
    assert InvoiceValid(inv);
    if inv.status == Draft && inv.header.total > 0 {
      IssuePostsIff(desk, id);
      var counter := InvoiceCounter(inv);
      if Allocate(desk.counters, counter).Some? {
        FreshInvoice(desk, counter, format);
      }
    }
  }

  // ----- Payments and their references --------------------------------------

  /** A request that runs after its reference was banked changes nothing, for ever after. */
  lemma {:induction false} ReplayedPayment(currency: Currency, events: seq<Event>, later: seq<Event>, req: PayRequest)
    requires req.amount > 0 && req.reference != ""
    requires Banked(Run(EmptyDesk(currency), events).payments, req.invoice, req.reference)
    ensures var desk := Run(Run(EmptyDesk(currency), events), later);
            && Banked(desk.payments, req.invoice, req.reference)
            && RecordPayment(desk, req) == Success(desk)
  {
    var start := Run(EmptyDesk(currency), events);
    Reachable(currency, events);
    if later == [] {
      var k :| 0 <= k < |start.payments| && start.payments[k].invoice == req.invoice && start.payments[k].reference == req.reference;
      assert PaymentValid(start, start.payments[k]);
    } else {
      var n := |later| - 1;
      ReplayedPayment(currency, events, later[..n], req);
      var before := Run(start, later[..n]);
      RunKeeps(start, later[..n]);
      StepKeeps(before, later[n]);
      PaymentsPersist(before, later[n], req.invoice, req.reference);
      var after := Run(start, later);
      var k :| 0 <= k < |after.payments| && after.payments[k].invoice == req.invoice && after.payments[k].reference == req.reference;
      assert PaymentValid(after, after.payments[k]);
    }
  }

  lemma PaymentsPersist(desk: Desk, event: Event, invoice: nat, reference: string)
    requires Banked(desk.payments, invoice, reference)
    ensures Banked(Step(desk, event).payments, invoice, reference)
  {
    var k :| 0 <= k < |desk.payments| && desk.payments[k].invoice == invoice && desk.payments[k].reference == reference;
    var after := Step(desk, event);
    assert k < |after.payments| && after.payments[k] == desk.payments[k];
  }

  lemma PaymentPostsIff(desk: Desk, req: PayRequest, stamp: Stamp)
    requires JournalsValid(desk) && req.invoice < |desk.invoices| && req.amount > 0
    requires !PaymentPrints(desk.payments, PrintedOf(stamp))
    ensures Post(desk.book, PaymentPosting(desk, req, stamp)).Success?
            <==> !desk.book.currency.Unsupported? && desk.invoices[req.invoice].customer != 0
  {
    var posting := PaymentPosting(desk, req, stamp);
    FreshKey(desk, posting.key);
    PostAcceptedIff(desk.book, posting);
    Sum2(posting.legs[0], posting.legs[1], DebitFn());
    Sum2(posting.legs[0], posting.legs[1], CreditFn());
    assert posting.legs[1] in posting.legs;
  }

  /** When the locked half of a payment commits. References play no part. */
  lemma PayIff(desk: Desk, req: PayRequest)
    requires Inv(desk) && req.invoice < |desk.invoices|
    ensures var inv := desk.invoices[req.invoice];
            PayWrite(desk, req).Success? <==>
            && 0 < req.amount <= Due(inv) && Open(inv) && inv.customer != 0
            && !desk.book.currency.Unsupported?
            && Current(desk.counters, PaymentCounter(req)) < 999_999_999
  {
    var inv := desk.invoices[req.invoice];
    assert InvoiceValid(inv);
    if req.amount > 0 && PayError(inv, req.amount).None? && Allocate(desk.counters, PaymentCounter(req)).Some? {
      FreshPayment(desk, PaymentCounter(req), req.format);
      PaymentPostsIff(desk, req, Stamp(Allocate(desk.counters, PaymentCounter(req)).value, req.format));
    }
  }

  /**
   * Two requests with one reference that both probe before either writes bank
   * the same money twice, exactly when the invoice owes twice the amount (and
   * the series has two numbers left).
   */
  lemma BanksTwiceIff(currency: Currency, events: seq<Event>, req: PayRequest)
    requires PayWrite(Run(EmptyDesk(currency), events), req).Success?
    ensures var desk := Run(EmptyDesk(currency), events);
            var once := PayWrite(desk, req).value;
            && req.invoice < |desk.invoices|
            && Banked(once.payments, req.invoice, req.reference)
            && (PayWrite(once, req).Success? <==>
                  && 2 * req.amount <= Due(desk.invoices[req.invoice])
                  && Current(desk.counters, PaymentCounter(req)) + 1 < 999_999_999)
  {
    var desk := Run(EmptyDesk(currency), events);
    Reachable(currency, events);
    PayIff(desk, req);
    PayKeeps(desk, req);
    PaidOnce(desk, req);
    PayIff(PayWrite(desk, req).value, req);
  }

  lemma PaidOnce(desk: Desk, req: PayRequest)
    requires PayWrite(desk, req).Success?
    ensures req.invoice < |desk.invoices|
    ensures var once := PayWrite(desk, req).value;
            && once.book.currency == desk.book.currency
            && |once.invoices| == |desk.invoices|
            && once.invoices[req.invoice] == TakePayment(desk.invoices[req.invoice], req.amount)
            && Current(once.counters, PaymentCounter(req)) == Current(desk.counters, PaymentCounter(req)) + 1
            && Banked(once.payments, req.invoice, req.reference)
  {
    PaidTables(desk, req);
    AllocateGrows(desk.counters, PaymentCounter(req));
    var once := PayWrite(desk, req).value;
    var p := once.payments[|desk.payments|];
    assert p.invoice == req.invoice && p.reference == req.reference;
  }
}
