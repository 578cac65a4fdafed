/**
 * Invoices, payments and notes: internal/billing/billing.go over the statements
 * of internal/dbgen/billing.sql.gen.go and the constraints of
 * db/migrations/0024_billing.up.sql. Each function is one transaction.
 */
module Billing {
  import opened Sums
  import opened Ledger
  import opened InvoiceNumbers
  import InvoiceLines
  import Money

  // ----- Numbers ------------------------------------------------------------

  datatype Doc = InvoiceDoc | CreditDoc | DebitDoc

  /** One counter per series, document type and financial year. */
  datatype Counter = Counter(series: string, doc: Doc, year: nat)

  datatype Number = Number(counter: Counter, value: nat)

  /** The prefix and padding configured when the number was printed. */
  datatype Format = Format(prefix: string, padding: nat)

  datatype Stamp = Stamp(number: Number, format: Format)

  type Day = d: Date | d.year >= 1 witness Date(1, 1)

  const MAX_NUMBER: nat := 999999999
  const INVOICE_SERIES := "DEFAULT"
  const PAYMENT_SERIES := "PAY"

  type Counters = map<Counter, nat>

  function Current(counters: Counters, c: Counter): nat {
    if c in counters then counters[c] else 0
  }

  /** AllocateInvoiceNumber: insert at 1, or add one below the maximum. */
  function Allocate(counters: Counters, c: Counter): Option<Number> {
    if c !in counters then Some(Number(c, 1))
    else if counters[c] < MAX_NUMBER then Some(Number(c, counters[c] + 1))
    else None
  }

  function PrintedOf(s: Stamp): string {
    Printed(s.format.prefix, s.number.counter.year, s.format.padding, s.number.value)
  }

  // ----- Rows ---------------------------------------------------------------

  datatype InvoiceStatus = Draft | Issued | PartiallyPaid | Paid | Overdue | Cancelled

  datatype Invoice = Invoice(
    customer: int, date: Day, due: int, header: InvoiceLines.Header,
    status: InvoiceStatus, paid: int, credited: int, stamp: Option<Stamp>)

  datatype Payment = Payment(invoice: nat, amount: int, reference: string, stamp: Stamp)

  /** `recorded` tells whether issuing the note also reduced the invoice. */
  datatype Note = Note(
    invoice: nat, customer: int, credit: bool, subtotal: int, tax: int, total: int, date: Day,
    raisedBy: int, stamp: Option<Stamp>, recorded: bool)

  datatype Desk = Desk(invoices: seq<Invoice>, payments: seq<Payment>, notes: seq<Note>, counters: Counters, book: Book)

  datatype BillingError =
    | NothingToBill | Unknown | AlreadyIssued | NotIssued | InvalidState | AlreadyPaid | Overpayment | Invalid
    | CreditExceeds | SelfApproval | SequenceExhausted | NumberTaken | ConstraintViolated | LedgerRefused(error: LedgerError)

  predicate Open(inv: Invoice) {
    inv.status in {Issued, PartiallyPaid, Overdue}
  }

  function Due(inv: Invoice): int {
    inv.header.total - inv.paid - inv.credited
  }

  function CustomerOf(id: int): Party {
    Party(CustomerParty, id)
  }

  // ----- Drafting and issuing -----------------------------------------------

  /** tax_components.rate_bp: a component row is written only for a tax that is not zero. */
  predicate RatesAccepted(taxable: int, rates: seq<int>) {
    forall k :: 0 <= k < |rates| && Money.ApplyBP(taxable, rates[k]) != 0 ==> 0 <= rates[k] <= 1_000_000
  }

  function DraftInvoice(desk: Desk, customer: int, date: Day, due: int, shipments: seq<InvoiceLines.Shipment>, rates: seq<int>): Result<Desk, BillingError> {
    var header := InvoiceLines.HeaderOf(shipments, rates);
    if shipments == [] then Failure(NothingToBill)
    else if !RatesAccepted(header.taxable, rates) then Failure(ConstraintViolated)
    else Success(desk.(invoices := desk.invoices + [Invoice(customer, date, due, header, Draft, 0, 0, None)]))
  }

  function IssueLegs(inv: Invoice): seq<Leg> {
    [DrParty(TradeReceivable, inv.header.total, CustomerOf(inv.customer)), Cr(FreightRevenue, inv.header.taxable)]
    + (if inv.header.tax > 0 then [Cr(TaxPayable, inv.header.tax)] else [])
  }

  function InvoiceCounter(inv: Invoice): Counter {
    Counter(INVOICE_SERIES, InvoiceDoc, FinancialYear(inv.date))
  }

  function IssuePosting(desk: Desk, id: nat): Posting
    requires id < |desk.invoices|
  {
    Posting(Key(FromInvoice, id, InvoiceIssue), desk.book.currency, IssueLegs(desk.invoices[id]))
  }

  predicate InvoicePrints(invoices: seq<Invoice>, printed: string) {
    exists i :: 0 <= i < |invoices| && invoices[i].stamp.Some? && PrintedOf(invoices[i].stamp.value) == printed
  }

  function IssueInvoice(desk: Desk, id: nat, format: Format): Result<Desk, BillingError> {
    if id >= |desk.invoices| then Failure(Unknown)
    else
      var inv := desk.invoices[id];
      if inv.status != Draft then Failure(AlreadyIssued)
      else if inv.header.total <= 0 then Failure(NothingToBill)
      else
        var number := Allocate(desk.counters, InvoiceCounter(inv));
        if number.None? then Failure(SequenceExhausted)
        else
          var stamp := Stamp(number.value, format);
          match Post(desk.book, IssuePosting(desk, id))
          case Failure(error) => Failure(LedgerRefused(error))
          case Success(posted) =>
            if InvoicePrints(desk.invoices, PrintedOf(stamp)) then Failure(NumberTaken)
            else Success(desk.(invoices := desk.invoices[id := inv.(status := Issued, stamp := Some(stamp))],
                               counters := desk.counters[number.value.counter := number.value.value],
                               book := posted.book))
  }

  /** CancelInvoice posts nothing. */
  function CancelInvoice(desk: Desk, id: nat): Result<Desk, BillingError> {
    if id >= |desk.invoices| then Failure(Unknown)
    else
      var inv := desk.invoices[id];
      if inv.status !in {Draft, Issued} || inv.paid != 0 then Failure(InvalidState)
      else Success(desk.(invoices := desk.invoices[id := inv.(status := Cancelled)]))
  }

  function Lapse(inv: Invoice, today: int): Invoice {
    if inv.status in {Issued, PartiallyPaid} && inv.due < today then inv.(status := Overdue) else inv
  }

  function MarkOverdue(desk: Desk, today: int): Desk {
    desk.(invoices := seq(|desk.invoices|, i requires 0 <= i < |desk.invoices| => Lapse(desk.invoices[i], today)))
  }

  // ----- Payments -----------------------------------------------------------

  datatype PayRequest = PayRequest(invoice: nat, amount: int, reference: string, date: Day, format: Format)

  function PaymentLegs(inv: Invoice, amount: int): seq<Leg> {
    [Dr(Cash, amount), CrParty(TradeReceivable, amount, CustomerOf(inv.customer))]
  }

  function PaymentCounter(req: PayRequest): Counter {
    Counter(PAYMENT_SERIES, InvoiceDoc, FinancialYear(req.date))
  }

  function PaymentPosting(desk: Desk, req: PayRequest, stamp: Stamp): Posting
    requires req.invoice < |desk.invoices|
  {
    Posting(Key(FromPayment, req.invoice, InvoicePayment(PrintedOf(stamp))), desk.book.currency,
            PaymentLegs(desk.invoices[req.invoice], req.amount))
  }

  predicate PaymentPrints(payments: seq<Payment>, printed: string) {
    exists k :: 0 <= k < |payments| && PrintedOf(payments[k].stamp) == printed
  }

  /** Why an invoice cannot take a payment, when it cannot. */
  function PayError(inv: Invoice, amount: int): Option<BillingError> {
    if inv.status == Draft then Some(NotIssued)
    else if inv.status == Cancelled then Some(InvalidState)
    else if Due(inv) <= 0 then Some(AlreadyPaid)
    else if amount > Due(inv) then Some(Overpayment)
    // RecordInvoicePayment finds no row.
    else if !Open(inv) then Some(InvalidState)
    else None
  }

  function TakePayment(inv: Invoice, amount: int): Invoice {
    var paid := inv.paid + amount;
    inv.(paid := paid, status := if paid + inv.credited >= inv.header.total then Paid else PartiallyPaid)
  }

  /** The locked half of RecordPayment: the reference is not looked up again. */
  function PayWrite(desk: Desk, req: PayRequest): Result<Desk, BillingError> {
    if req.amount <= 0 then Failure(Invalid)
    else if req.invoice >= |desk.invoices| then Failure(Unknown)
    else
      var inv := desk.invoices[req.invoice];
      var error := PayError(inv, req.amount);
      if error.Some? then Failure(error.value)
      else
        var number := Allocate(desk.counters, PaymentCounter(req));
        if number.None? then Failure(SequenceExhausted)
        else
          var stamp := Stamp(number.value, req.format);
          match Post(desk.book, PaymentPosting(desk, req, stamp))
          case Failure(e) => Failure(LedgerRefused(e))
          case Success(posted) =>
            if PaymentPrints(desk.payments, PrintedOf(stamp)) then Failure(NumberTaken)
            else Success(desk.(invoices := desk.invoices[req.invoice := TakePayment(inv, req.amount)],
                               payments := desk.payments + [Payment(req.invoice, req.amount, req.reference, stamp)],
                               counters := desk.counters[number.value.counter := number.value.value],
                               book := posted.book))
  }

  predicate Banked(payments: seq<Payment>, invoice: nat, reference: string) {
    exists k :: 0 <= k < |payments| && payments[k].invoice == invoice && payments[k].reference == reference
  }

  /** The whole request: a reference already banked is answered without writing. */
  function RecordPayment(desk: Desk, req: PayRequest): Result<Desk, BillingError> {
    if req.amount <= 0 then Failure(Invalid)
    else if req.invoice >= |desk.invoices| then Failure(Unknown)
    else if req.reference != "" && Banked(desk.payments, req.invoice, req.reference) then Success(desk)
    else PayWrite(desk, req)
  }

  // ----- Notes --------------------------------------------------------------

  function RaiseNote(desk: Desk, id: nat, credit: bool, amount: int, tax: int, reason: string, user: int, date: Day): Result<Desk, BillingError> {
    if amount <= 0 || |reason| < 5 then Failure(Invalid)
    else if id >= |desk.invoices| then Failure(Unknown)
    else
      var inv := desk.invoices[id];
      if inv.status == Draft then Failure(NotIssued)
      else if credit && amount + tax > Due(inv) then Failure(CreditExceeds)
      else if amount + tax <= 0 then Failure(ConstraintViolated)
      else Success(desk.(notes := desk.notes + [Note(id, inv.customer, credit, amount, tax, amount + tax, date, user, None, false)]))
  }

  function NoteLegs(n: Note): seq<Leg> {
    if n.credit
    then [Dr(DiscountAllowed, n.subtotal), CrParty(TradeReceivable, n.total, CustomerOf(n.customer))]
         + (if n.tax > 0 then [Dr(TaxPayable, n.tax)] else [])
    else [DrParty(TradeReceivable, n.total, CustomerOf(n.customer)), Cr(OtherRevenue, n.subtotal)]
         + (if n.tax > 0 then [Cr(TaxPayable, n.tax)] else [])
  }

  predicate NotePrints(notes: seq<Note>, printed: string) {
    exists k :: 0 <= k < |notes| && notes[k].stamp.Some? && PrintedOf(notes[k].stamp.value) == printed
  }

  function TakeCredit(inv: Invoice, amount: int): Invoice {
    inv.(credited := inv.credited + amount,
         status := if inv.paid + inv.credited + amount >= inv.header.total then Paid else inv.status)
  }

  /** RecordInvoiceCredit touches an open invoice only; finding none is tolerated. */
  function Credited(invoices: seq<Invoice>, n: Note): (after: seq<Invoice>)
    ensures |after| == |invoices|
  {
    if n.credit && n.invoice < |invoices| && Open(invoices[n.invoice])
    then invoices[n.invoice := TakeCredit(invoices[n.invoice], n.total)]
    else invoices
  }

  /** invoices_settled_within_total. */
  predicate WithinSlack(inv: Invoice) {
    inv.paid + inv.credited <= inv.header.total + 100
  }

  function NoteCounter(n: Note): Counter {
    Counter(INVOICE_SERIES, if n.credit then CreditDoc else DebitDoc, FinancialYear(n.date))
  }

  function NotePosting(desk: Desk, id: nat): Posting
    requires id < |desk.notes|
  {
    Posting(Key(FromCreditNote, id, NoteIssue(desk.notes[id].credit)), desk.book.currency, NoteLegs(desk.notes[id]))
  }

  function IssueNote(desk: Desk, id: nat, user: int, format: Format): Result<Desk, BillingError> {
    if id >= |desk.notes| then Failure(Unknown)
    else
      var n := desk.notes[id];
      if n.stamp.Some? then Failure(InvalidState)
      else if n.raisedBy == user then Failure(SelfApproval)
      else
        var number := Allocate(desk.counters, NoteCounter(n));
        if number.None? then Failure(SequenceExhausted)
        else
          var stamp := Stamp(number.value, format);
          match Post(desk.book, NotePosting(desk, id))
          case Failure(e) => Failure(LedgerRefused(e))
          case Success(posted) =>
            var invoices := Credited(desk.invoices, n);
            if NotePrints(desk.notes, PrintedOf(stamp)) then Failure(NumberTaken)
            else if n.invoice < |invoices| && invoices != desk.invoices && !WithinSlack(invoices[n.invoice]) then Failure(ConstraintViolated)
            else
              var recorded := n.credit && n.invoice < |desk.invoices| && Open(desk.invoices[n.invoice]);
              Success(desk.(invoices := invoices,
                            notes := desk.notes[id := n.(stamp := Some(stamp), recorded := recorded)],
                            counters := desk.counters[number.value.counter := number.value.value],
                            book := posted.book))
  }

  // ----- Runs ---------------------------------------------------------------

  datatype Event =
    | DraftOne(customer: int, date: Day, due: int, shipments: seq<InvoiceLines.Shipment>, rates: seq<int>)
    | IssueOne(id: nat, format: Format)
    | Pay(request: PayRequest)
    | Raise(id: nat, credit: bool, amount: int, tax: int, reason: string, user: int, date: Day)
    | IssueNoteOne(id: nat, user: int, format: Format)
    | Cancel(id: nat)
    | Overdues(today: int)

  /** One scheduled transaction. A payment is scheduled as its locked half. */
  function Outcome(desk: Desk, event: Event): Result<Desk, BillingError> {
    match event
    case DraftOne(customer, date, due, shipments, rates) => DraftInvoice(desk, customer, date, due, shipments, rates)
    case IssueOne(id, format) => IssueInvoice(desk, id, format)
    case Pay(request) => PayWrite(desk, request)
    case Raise(id, credit, amount, tax, reason, user, date) => RaiseNote(desk, id, credit, amount, tax, reason, user, date)
    case IssueNoteOne(id, user, format) => IssueNote(desk, id, user, format)
    case Cancel(id) => CancelInvoice(desk, id)
    case Overdues(today) => Success(MarkOverdue(desk, today))
  }

  function Step(desk: Desk, event: Event): Desk {
    var outcome := Outcome(desk, event);
    if outcome.Success? then outcome.value else desk
  }

  function Run(desk: Desk, events: seq<Event>): Desk {
    if events == [] then desk else Step(Run(desk, events[..|events| - 1]), events[|events| - 1])
  }

  function EmptyDesk(currency: Currency): Desk {
    Desk([], [], [], map[], Book(currency, []))
  }

  /** GetCustomerOutstanding. */
  function OutstandingFn(customer: int): Invoice -> int {
    (inv: Invoice) => if inv.customer == customer && Open(inv) then Due(inv) else 0
  }

  function Outstanding(desk: Desk, customer: int): int {
    Sum(desk.invoices, OutstandingFn(customer))
  }

  /** The customer's trade-receivable balance. */
  function Receivable(desk: Desk, customer: int): int {
    Balance(desk.book, SubsidiaryFn(TradeReceivable, CustomerOf(customer)))
  }
}
