/** The billing service over its tables, updated in place. */
module BillingService {
  import opened Sums
  import opened Ledger
  import opened InvoiceNumbers
  import L = InvoiceLines
  import Money
  import M = Billing
  import opened Billing
  import opened BillingInvariant
  import opened BillingBooks
  import opened BillingEffects
  import BillingLaw

  /** A transaction commits its outcome, or changes nothing and reports why. */
  predicate Commits(before: M.Desk, outcome: Result<M.Desk, BillingError>, after: M.Desk, error: Option<BillingError>) {
    match outcome
    case Success(desk) => error.None? && after == desk
    case Failure(e) => error == Some(e) && after == before
  }

  class Service {
    var invoices: seq<Invoice>
    var payments: seq<Payment>
    var notes: seq<Note>
    var counters: Counters
    var book: Book
    // The lines of each invoice, by invoice id.
    var lines: seq<seq<L.Line>>

    function Desk(): M.Desk
      reads this
    {
      M.Desk(invoices, payments, notes, counters, book)
    }

    /** Every invoice has lines that agree with its header, in total too unless its tax is negative. */
    ghost predicate LinesValid()
      reads this
    {
      |lines| == |invoices| && forall i :: 0 <= i < |invoices| ==> L.LinesAgree(lines[i], invoices[i].header)
    }

    ghost predicate Valid()
      reads this
    {
      Inv(Desk()) && LinesValid()
    }

    constructor (currency: Currency)
      ensures Valid() && Desk() == EmptyDesk(currency)
    {
      invoices, payments, notes, counters, lines := [], [], [], map[], [];
      book := Book(currency, []);
      new;
      Reachable(currency, []);
    }

    method Draft(customer: int, date: Day, due: int, shipments: seq<L.Shipment>, rates: seq<int>, summary: bool) returns (error: Option<BillingError>)
      requires Valid()
      modifies this
      ensures Valid()
      ensures Commits(old(Desk()), DraftInvoice(old(Desk()), customer, date, due, shipments, rates), Desk(), error)
      ensures error.None? <==>
                && shipments != []
                && forall k :: 0 <= k < |rates| && Money.ApplyBP(L.HeaderOf(shipments, rates).taxable, rates[k]) != 0 ==> 0 <= rates[k] <= 1_000_000
      ensures error.None? ==>
                invoices == old(invoices) + [Invoice(customer, date, due, L.HeaderOf(shipments, rates), InvoiceStatus.Draft, 0, 0, None)]
    {
      if shipments == [] { return Some(NothingToBill); }
      var built := L.BuildLines(shipments, rates, summary);
      if !RatesAccepted(built.header.taxable, rates) { return Some(ConstraintViolated); }
      DraftKeeps(Desk(), customer, date, due, shipments, rates);
      invoices := invoices + [Invoice(customer, date, due, built.header, InvoiceStatus.Draft, 0, 0, None)];
      lines := lines + [built.lines];
      error := None;
    }

    /** The numbered and posted half of an issue. */
    method WriteIssue(id: nat, format: Format) returns (error: Option<BillingError>)
      modifies this
      ensures Commits(old(Desk()), IssueInvoice(old(Desk()), id, format), Desk(), error) && lines == old(lines)
    {
      if id >= |invoices| { return Some(Unknown); }
      var inv := invoices[id];
      if inv.status != InvoiceStatus.Draft { return Some(AlreadyIssued); }
      if inv.header.total <= 0 { return Some(NothingToBill); }
      var number := Allocate(counters, InvoiceCounter(inv));
      if number.None? { return Some(SequenceExhausted); }
      var stamp := Stamp(number.value, format);
      var posted := Post(book, IssuePosting(Desk(), id));
      if posted.Failure? { return Some(LedgerRefused(posted.error)); }
      if InvoicePrints(invoices, PrintedOf(stamp)) { return Some(NumberTaken); }
      invoices := invoices[id := inv.(status := Issued, stamp := Some(stamp))];
      counters := counters[number.value.counter := number.value.value];
      book := posted.value.book;
      error := None;
    }

    /**
     * An issued invoice carries the next number of its financial year and has
     * lines that add up to its total. Its customer owes that much more, of which
     * what is taxed is revenue and the tax is owed on; no other account moves.
     */
    method Issue(id: nat, format: Format) returns (error: Option<BillingError>)
      requires Valid()
      modifies this
      ensures Valid()
      ensures Commits(old(Desk()), IssueInvoice(old(Desk()), id, format), Desk(), error)
      ensures error.None? ==>
                && Stamped(old(Desk()), id, format, Desk()) && lines == old(lines)
                && var header := invoices[id].header;
                   && Sum(lines[id], L.LineTotalFn()) == header.total
                   && Receivable(Desk(), invoices[id].customer) == Receivable(old(Desk()), invoices[id].customer) + header.total
                   && Earns(old(book), book, header)
    {
      if IssueInvoice(Desk(), id, format).Success? {
        IssueKeeps(Desk(), id, format);
        IssueEffect(Desk(), id, format);
        IssueEarns(Desk(), id, format);
      }
      error := WriteIssue(id, format);
    }

    /** The locked half of a payment. */
    method WritePayment(req: PayRequest) returns (error: Option<BillingError>)
      modifies this
      ensures Commits(old(Desk()), PayWrite(old(Desk()), req), Desk(), error) && lines == old(lines)
    {
      if req.amount <= 0 { return Some(Invalid); }
      if req.invoice >= |invoices| { return Some(Unknown); }
      var inv := invoices[req.invoice];
      error := PayError(inv, req.amount);
      if error.Some? { return; }
      var number := Allocate(counters, PaymentCounter(req));
      if number.None? { return Some(SequenceExhausted); }
      var stamp := Stamp(number.value, req.format);
      var posted := Post(book, PaymentPosting(Desk(), req, stamp));
      if posted.Failure? { return Some(LedgerRefused(posted.error)); }
      if PaymentPrints(payments, PrintedOf(stamp)) { return Some(NumberTaken); }
      payments := payments + [Payment(req.invoice, req.amount, req.reference, stamp)];
      invoices := invoices[req.invoice := TakePayment(inv, req.amount)];
      counters := counters[number.value.counter := number.value.value];
      book := posted.value.book;
    }

    /** A payment is banked and settles its invoice; a reference banked before is answered without writing. */
    method RecordPayment(req: PayRequest) returns (error: Option<BillingError>)
      requires Valid()
      modifies this
      ensures Valid()
      ensures Commits(old(Desk()), M.RecordPayment(old(Desk()), req), Desk(), error)
      ensures error.None? ==>
                if req.reference != "" && exists k :: 0 <= k < |old(payments)| && old(payments)[k].invoice == req.invoice && old(payments)[k].reference == req.reference
                then Desk() == old(Desk())
                else
                  && Banks(old(Desk()), req, Desk())
                  && Receivable(Desk(), invoices[req.invoice].customer) == Receivable(old(Desk()), invoices[req.invoice].customer) - req.amount
                  && Balance(book, AccountFn(Cash)) == Balance(old(book), AccountFn(Cash)) + req.amount
    {
      if PayWrite(Desk(), req).Success? {
        PayKeeps(Desk(), req);
        PayEffect(Desk(), req);
        PayBooks(Desk(), req, Cash);
      }
      if req.amount <= 0 { return Some(Invalid); }
      if req.invoice >= |invoices| { return Some(Unknown); }
      if req.reference != "" && Banked(payments, req.invoice, req.reference) { return None; }
      error := WritePayment(req);
    }

    /** The numbered, posted and recorded half of a note. */
    method WriteNote(id: nat, user: int, format: Format) returns (error: Option<BillingError>)
      modifies this
      ensures Commits(old(Desk()), IssueNote(old(Desk()), id, user, format), Desk(), error) && lines == old(lines)
    {
      if id >= |notes| { return Some(Unknown); }
      var n := notes[id];
      if n.stamp.Some? { return Some(InvalidState); }
      if n.raisedBy == user { return Some(SelfApproval); }
      var number := Allocate(counters, NoteCounter(n));
      if number.None? { return Some(SequenceExhausted); }
      var stamp := Stamp(number.value, format);
      var posted := Post(book, NotePosting(Desk(), id));
      if posted.Failure? { return Some(LedgerRefused(posted.error)); }
      if NotePrints(notes, PrintedOf(stamp)) { return Some(NumberTaken); }
      var newInvoices := Credited(invoices, n);
      if n.invoice < |newInvoices| && newInvoices != invoices && !WithinSlack(newInvoices[n.invoice]) { return Some(ConstraintViolated); }
      notes := notes[id := n.(stamp := Some(stamp), recorded := Reaches(invoices, n))];
      invoices := newInvoices;
      counters := counters[number.value.counter := number.value.value];
      book := posted.value.book;
      error := None;
    }

    /** A second person's approval moves the customer's receivable, and the invoice when it is still open. */
    method IssueCreditNote(id: nat, user: int, format: Format) returns (error: Option<BillingError>)
      requires Valid()
      modifies this
      ensures Valid()
      ensures Commits(old(Desk()), IssueNote(old(Desk()), id, user, format), Desk(), error)
      ensures error.None? ==>
                && Numbered(old(Desk()), id, format, Desk())
                && var n := old(notes)[id];
                   && n.raisedBy != user && n.stamp.None?
                   && Receivable(Desk(), n.customer) == Receivable(old(Desk()), n.customer) + (if n.credit then -n.total else n.total)
                   && Balance(book, AccountFn(TaxPayable)) == Balance(old(book), AccountFn(TaxPayable)) + (if n.credit then -n.tax else n.tax)
    {
      if IssueNote(Desk(), id, user, format).Success? {
        IssueNoteKeeps(Desk(), id, user, format);
        NoteEffect(Desk(), id, user, format);
        NoteBooks(Desk(), id, user, format, TaxPayable);
      }
      error := WriteNote(id, user, format);
    }
  }
}
