/**
 * Every account billing posts to, from the documents that feed it: revenue from
 * what was taxed, tax from what was charged and given back, cash from the
 * payments.
 */
module BillingBooks {
  import opened Sums
  import opened Ledger
  import InvoiceLines
  import opened Billing
  import opened BillingInvariant
  import opened BillingLaw

  // ----- What a document means for an account -------------------------------

  /** An invoice is owed in full and earned on what is taxed, and its tax is owed on. */
  function InvoiceOn(inv: Invoice, account: AccountCode): int {
    match account
    case TradeReceivable => inv.header.total
    case FreightRevenue => inv.header.taxable
    case TaxPayable => inv.header.tax
    case _ => 0
  }

  function PaymentOn(amount: int, account: AccountCode): int {
    match account
    case Cash => amount
    case TradeReceivable => -amount
    case _ => 0
  }

  /** A credit note is a discount and takes its tax back; a debit note is other revenue and adds its tax. */
  function NoteOn(n: Note, account: AccountCode): int {
    match account
    case TradeReceivable => if n.credit then -n.total else n.total
    case TaxPayable => if n.credit then -n.tax else n.tax
    case DiscountAllowed => if n.credit then n.subtotal else 0
    case OtherRevenue => if n.credit then 0 else n.subtotal
    case _ => 0
  }

  lemma IssueLegsOn(inv: Invoice, account: AccountCode)
    requires inv.header.tax >= 0
    ensures Sum(IssueLegs(inv), AccountFn(account)) == InvoiceOn(inv, account)
  {
    IssueLegSums(inv, AccountFn(account));
  }

  lemma PaymentLegsOn(inv: Invoice, amount: int, account: AccountCode)
    ensures Sum(PaymentLegs(inv, amount), AccountFn(account)) == PaymentOn(amount, account)
  {
    var legs := PaymentLegs(inv, amount);
    Sum2(legs[0], legs[1], AccountFn(account));
  }

  lemma NoteLegsOn(n: Note, account: AccountCode)
    requires n.tax >= 0
    ensures Sum(NoteLegs(n), AccountFn(account)) == NoteOn(n, account)
  {
    NoteLegSums(n, AccountFn(account));
  }

  // ----- Each operation ------------------------------------------------------

  lemma AccountPosts(desk: Desk, posting: Posting, account: AccountCode)
    requires JournalsValid(desk) && !Documented(desk, posting.key) && Post(desk.book, posting).Success?
    ensures Balance(Post(desk.book, posting).value.book, AccountFn(account))
            == Balance(desk.book, AccountFn(account)) + Sum(posting.legs, AccountFn(account))
  {
    FreshKey(desk, posting.key);
    PostEffect(desk.book, posting, AccountFn(account));
  }

  lemma IssueBooks(desk: Desk, id: nat, format: Format, account: AccountCode)
    requires Inv(desk) && IssueInvoice(desk, id, format).Success?
    ensures id < |desk.invoices|
    ensures Balance(IssueInvoice(desk, id, format).value.book, AccountFn(account))
            == Balance(desk.book, AccountFn(account)) + InvoiceOn(desk.invoices[id], account)
  {
    IssuedTables(desk, id, format);
    assert InvoiceValid(desk.invoices[id]);
    AccountPosts(desk, IssuePosting(desk, id), account);
    IssueLegsOn(desk.invoices[id], account);
  }

  predicate Unmoved(before: Book, after: Book, account: AccountCode) {
    Balance(after, AccountFn(account)) == Balance(before, AccountFn(account))
  }

  /** The total is owed, what is taxed is earned, the tax is owed on, and no other account moves. */
  ghost predicate Earns(before: Book, after: Book, h: InvoiceLines.Header) {
    && Balance(after, AccountFn(TradeReceivable)) == Balance(before, AccountFn(TradeReceivable)) + h.total
    && Balance(after, AccountFn(FreightRevenue)) == Balance(before, AccountFn(FreightRevenue)) + h.taxable
    && Balance(after, AccountFn(TaxPayable)) == Balance(before, AccountFn(TaxPayable)) + h.tax
    && forall account: AccountCode :: account !in {TradeReceivable, FreightRevenue, TaxPayable} ==> Unmoved(before, after, account)
  }

  lemma IssueEarns(desk: Desk, id: nat, format: Format)
    requires Inv(desk) && IssueInvoice(desk, id, format).Success?
    ensures id < |desk.invoices| && Earns(desk.book, IssueInvoice(desk, id, format).value.book, desk.invoices[id].header)
  {
    IssueBooks(desk, id, format, TradeReceivable);
    IssueBooks(desk, id, format, FreightRevenue);
    IssueBooks(desk, id, format, TaxPayable);
    var book := IssueInvoice(desk, id, format).value.book;
    forall account: AccountCode | account !in {TradeReceivable, FreightRevenue, TaxPayable}
      ensures Unmoved(desk.book, book, account)
    {
      IssueBooks(desk, id, format, account);
    }
  }

  lemma PayBooks(desk: Desk, req: PayRequest, account: AccountCode)
    requires Inv(desk) && PayWrite(desk, req).Success?
    ensures Balance(PayWrite(desk, req).value.book, AccountFn(account)) == Balance(desk.book, AccountFn(account)) + PaymentOn(req.amount, account)
  {
    PaidTables(desk, req);
    FreshPayment(desk, PaymentCounter(req), req.format);
    AccountPosts(desk, PaymentPosting(desk, req, Stamp(Allocate(desk.counters, PaymentCounter(req)).value, req.format)), account);
    PaymentLegsOn(desk.invoices[req.invoice], req.amount, account);
  }

  /** A note that posts has a tax that is not negative. */
  lemma NoteBooks(desk: Desk, id: nat, user: int, format: Format, account: AccountCode)
    requires Inv(desk) && IssueNote(desk, id, user, format).Success?
    ensures id < |desk.notes|
    ensures Balance(IssueNote(desk, id, user, format).value.book, AccountFn(account))
            == Balance(desk.book, AccountFn(account)) + NoteOn(desk.notes[id], account)
  {
    NotedTables(desk, id, user, format);
    assert NoteValid(desk.invoices, desk.notes[id]);
    NotePostsIff(desk, id);
    AccountPosts(desk, NotePosting(desk, id), account);
    NoteLegsOn(desk.notes[id], account);
  }

  // ----- The accounts, in every run -----------------------------------------

  function IssuedOnFn(account: AccountCode): Invoice -> int {
    (inv: Invoice) => if inv.stamp.Some? then InvoiceOn(inv, account) else 0
  }

  function PaidOnFn(account: AccountCode): Payment -> int {
    (p: Payment) => PaymentOn(p.amount, account)
  }

  function NotedOnFn(account: AccountCode): Note -> int {
    (n: Note) => if n.stamp.Some? then NoteOn(n, account) else 0
  }

  /** The balance of an account is what the issued invoices, the payments and the issued notes put on it. */
  predicate AccountLaw(desk: Desk, account: AccountCode) {
    Balance(desk.book, AccountFn(account))
    == Sum(desk.invoices, IssuedOnFn(account)) + Sum(desk.payments, PaidOnFn(account)) + Sum(desk.notes, NotedOnFn(account))
  }

  lemma AddInvoiceAccount(desk: Desk, row: Invoice, account: AccountCode)
    requires AccountLaw(desk, account) && row.stamp.None?
    ensures AccountLaw(desk.(invoices := desk.invoices + [row]), account)
  {
    SumAppend(desk.invoices, row, IssuedOnFn(account));
  }

  lemma DraftAccount(desk: Desk, customer: int, date: Day, due: int, shipments: seq<InvoiceLines.Shipment>, rates: seq<int>, account: AccountCode)
    requires AccountLaw(desk, account) && DraftInvoice(desk, customer, date, due, shipments, rates).Success?
    ensures AccountLaw(DraftInvoice(desk, customer, date, due, shipments, rates).value, account)
  {
    DraftedTables(desk, customer, date, due, shipments, rates);
    AddInvoiceAccount(desk, Invoice(customer, date, due, InvoiceLines.HeaderOf(shipments, rates), Draft, 0, 0, None), account);
  }

  lemma StampedAccount(desk: Desk, after: Desk, id: nat, account: AccountCode)
    requires AccountLaw(desk, account) && id < |desk.invoices| == |after.invoices| && desk.invoices[id].stamp.None?
    requires after.invoices == desk.invoices[id := after.invoices[id]] && after.payments == desk.payments && after.notes == desk.notes
    requires after.invoices[id].stamp.Some? && after.invoices[id].header == desk.invoices[id].header
    requires Balance(after.book, AccountFn(account)) == Balance(desk.book, AccountFn(account)) + InvoiceOn(desk.invoices[id], account)
    ensures AccountLaw(after, account)
  {
    SumUpdate(desk.invoices, id, after.invoices[id], IssuedOnFn(account));
  }

  lemma IssueAccount(desk: Desk, id: nat, format: Format, account: AccountCode)
    requires Inv(desk) && AccountLaw(desk, account) && IssueInvoice(desk, id, format).Success?
    ensures AccountLaw(IssueInvoice(desk, id, format).value, account)
  {
    IssuedTables(desk, id, format);
    IssueBooks(desk, id, format, account);
    assert InvoiceValid(desk.invoices[id]);
    StampedAccount(desk, IssueInvoice(desk, id, format).value, id, account);
  }

  lemma BankedAccount(desk: Desk, after: Desk, id: nat, p: Payment, account: AccountCode)
    requires AccountLaw(desk, account) && id < |desk.invoices| == |after.invoices|
    requires after.invoices == desk.invoices[id := after.invoices[id]] && after.payments == desk.payments + [p] && after.notes == desk.notes
    requires after.invoices[id].header == desk.invoices[id].header && after.invoices[id].stamp == desk.invoices[id].stamp
    requires Balance(after.book, AccountFn(account)) == Balance(desk.book, AccountFn(account)) + PaymentOn(p.amount, account)
    ensures AccountLaw(after, account)
  {
    SumUpdate(desk.invoices, id, after.invoices[id], IssuedOnFn(account));
    SumAppend(desk.payments, p, PaidOnFn(account));
  }

  lemma PayAccount(desk: Desk, req: PayRequest, account: AccountCode)
    requires Inv(desk) && AccountLaw(desk, account) && PayWrite(desk, req).Success?
    ensures AccountLaw(PayWrite(desk, req).value, account)
  {
    PaidTables(desk, req);
    PayBooks(desk, req, account);
    var after := PayWrite(desk, req).value;
    BankedAccount(desk, after, req.invoice, after.payments[|desk.payments|], account);
  }

  lemma RaiseAccount(desk: Desk, id: nat, credit: bool, amount: int, tax: int, reason: string, user: int, date: Day, account: AccountCode)
    requires AccountLaw(desk, account) && RaiseNote(desk, id, credit, amount, tax, reason, user, date).Success?
    ensures AccountLaw(RaiseNote(desk, id, credit, amount, tax, reason, user, date).value, account)
  {
    SumAppend(desk.notes, RaiseNote(desk, id, credit, amount, tax, reason, user, date).value.notes[|desk.notes|], NotedOnFn(account));
  }

  lemma NumberedAccount(desk: Desk, after: Desk, id: nat, account: AccountCode)
    requires AccountLaw(desk, account) && id < |desk.notes| == |after.notes| && desk.notes[id].stamp.None?
    requires Sum(after.invoices, IssuedOnFn(account)) == Sum(desk.invoices, IssuedOnFn(account))
    requires after.payments == desk.payments && after.notes == desk.notes[id := after.notes[id]]
    requires after.notes[id].stamp.Some? && NoteOn(after.notes[id], account) == NoteOn(desk.notes[id], account)
    requires Balance(after.book, AccountFn(account)) == Balance(desk.book, AccountFn(account)) + NoteOn(desk.notes[id], account)
    ensures AccountLaw(after, account)
  {
    SumUpdate(desk.notes, id, after.notes[id], NotedOnFn(account));
  }

  /** Crediting an invoice changes neither its header nor its stamp. */
  lemma CreditedOn(invoices: seq<Invoice>, n: Note, account: AccountCode)
    ensures Sum(Credited(invoices, n), IssuedOnFn(account)) == Sum(invoices, IssuedOnFn(account))
  {
    SumPointwise(Credited(invoices, n), invoices, IssuedOnFn(account), IssuedOnFn(account));
  }

  lemma IssueNoteAccount(desk: Desk, id: nat, user: int, format: Format, account: AccountCode)
    requires AccountLaw(desk, account) && IssueNote(desk, id, user, format).Success? && id < |desk.notes|
    requires Balance(IssueNote(desk, id, user, format).value.book, AccountFn(account))
             == Balance(desk.book, AccountFn(account)) + NoteOn(desk.notes[id], account)
    ensures AccountLaw(IssueNote(desk, id, user, format).value, account)
  {
    NotedTables(desk, id, user, format);
    CreditedOn(desk.invoices, desk.notes[id], account);
    NumberedAccount(desk, IssueNote(desk, id, user, format).value, id, account);
  }

  lemma StatusAccount(desk: Desk, after: Desk, account: AccountCode)
    requires AccountLaw(desk, account) && after == desk.(invoices := after.invoices) && |after.invoices| == |desk.invoices|
    requires forall i :: 0 <= i < |desk.invoices| ==> after.invoices[i] == desk.invoices[i].(status := after.invoices[i].status)
    ensures AccountLaw(after, account)
  {
    SumPointwise(after.invoices, desk.invoices, IssuedOnFn(account), IssuedOnFn(account));
  }

  lemma AccountStep(desk: Desk, event: Event, account: AccountCode)
    requires Inv(desk) && AccountLaw(desk, account)
    ensures AccountLaw(Step(desk, event), account)
  {
    if Outcome(desk, event).Success? {
      match event
      case DraftOne(customer, date, due, shipments, rates) => DraftAccount(desk, customer, date, due, shipments, rates, account);
      case IssueOne(id, format) => IssueAccount(desk, id, format, account);
      case Pay(request) => PayAccount(desk, request, account);
      case Raise(id, credit, amount, tax, reason, user, date) => RaiseAccount(desk, id, credit, amount, tax, reason, user, date, account);
      case IssueNoteOne(id, user, format) =>
        NoteBooks(desk, id, user, format, account);
        IssueNoteAccount(desk, id, user, format, account);
      case Cancel(id) => StatusAccount(desk, CancelInvoice(desk, id).value, account);
      case Overdues(today) => StatusAccount(desk, MarkOverdue(desk, today), account);
    }
  }

  /**
   * In every run, for every account of the ledger: freight revenue is what the
   * issued invoices tax; tax payable is their tax, less that of issued credit
   * notes and plus that of issued debit notes; cash is the sum of the payments;
   * discounts are the subtotals of issued credit notes and other revenue those
   * of issued debit notes; and no other account is touched.
   */
  lemma {:induction false} AccountsFollowDocuments(currency: Currency, events: seq<Event>, account: AccountCode)
    ensures AccountLaw(Run(EmptyDesk(currency), events), account)
  {
    if events != [] {
      var n := |events| - 1;
      AccountsFollowDocuments(currency, events[..n], account);
      Reachable(currency, events[..n]);
      AccountStep(Run(EmptyDesk(currency), events[..n]), events[n], account);
    }
  }
}
