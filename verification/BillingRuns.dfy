/** Two short runs in which billing does not do what its documentation promises. */
module BillingRuns {
  import opened Sums
  import opened Ledger
  import opened InvoiceNumbers
  import opened InvoiceLines
  import opened Billing
  import opened BillingInvariant
  import opened BillingEffects
  import opened BillingLaw

  const MAY: Day := Date(2026, 5)
  const PLAIN := Format("P", 6)
  const NOTES := Format("C", 6)
  const CUSTOMER := 1
  const PAYMENT := PayRequest(0, 100, "R", MAY, PLAIN)

  /** An invoice of 200. */
  function OfTwoHundred(status: InvoiceStatus, paid: int, credited: int, stamp: Option<Stamp>): Invoice {
    Invoice(CUSTOMER, MAY, 0, Header(200, 0, 200, 0, 200), status, paid, credited, stamp)
  }

  function CreditOf(stamp: Option<Stamp>, recorded: bool): Note {
    Note(0, CUSTOMER, true, 200, 0, 200, MAY, 1, stamp, recorded)
  }

  lemma RunPrefix(desk: Desk, events: seq<Event>, k: nat)
    requires k < |events|
    ensures Run(desk, events[..k + 1]) == Step(Run(desk, events[..k]), events[k])
  {
    assert events[..k + 1][..k] == events[..k];
  }

  // ----- Both runs start with an invoice of 200, issued ------------------------

  function StartScript(k: nat): Event {
    if k == 0 then DraftOne(CUSTOMER, MAY, 0, [Shipment(200, 0, 0)], []) else IssueOne(0, PLAIN)
  }

  predicate StartsIssued(events: seq<Event>) {
    |events| >= 2 && forall k {:trigger StartScript(k)} :: 0 <= k < 2 ==> events[k] == StartScript(k)
  }

  lemma Drafts(desk: Desk, events: seq<Event>)
    requires StartsIssued(events) && desk == EmptyDesk(NGN)
    ensures Inv(Step(desk, events[0])) && Step(desk, events[0]) == desk.(invoices := [OfTwoHundred(Draft, 0, 0, None)])
  {
    assert events[0] == StartScript(0);
    var shipments := [Shipment(200, 0, 0)];
    Sum1(shipments[0], GrossFn());
    Sum1(shipments[0], InvoiceLines.DiscountFn());
    Sum1(shipments[0], InvoiceLines.NetFn());
    assert HeaderOf(shipments, []) == Header(200, 0, 200, 0, 200);
    assert [] + [OfTwoHundred(Draft, 0, 0, None)] == [OfTwoHundred(Draft, 0, 0, None)];
    StepKeeps(desk, events[0]);
  }

  predicate IssuedStage(desk: Desk, stamp: Stamp) {
    && desk.invoices == [OfTwoHundred(Issued, 0, 0, Some(stamp))]
    && desk.payments == [] && desk.notes == [] && desk.book.currency == NGN
    && desk.counters.Keys == {Counter(INVOICE_SERIES, InvoiceDoc, 2026)}
    && Receivable(desk, CUSTOMER) == 200 && Outstanding(desk, CUSTOMER) == 200
  }

  /** Issuing puts 200 in the books and on the invoice. */
  lemma Issues(desk: Desk, events: seq<Event>)
    requires StartsIssued(events) && Inv(desk)
    requires desk == EmptyDesk(NGN).(invoices := [OfTwoHundred(Draft, 0, 0, None)])
    ensures Inv(Step(desk, events[1])) && exists stamp :: IssuedStage(Step(desk, events[1]), stamp)
  {
    assert events[1] == StartScript(1);
    IssueIff(desk, 0, PLAIN);
    IssuedTables(desk, 0, PLAIN);
    IssueKeeps(desk, 0, PLAIN);
    IssueEffect(desk, 0, PLAIN);
    PostEffect(desk.book, IssuePosting(desk, 0), Ledger.NetFn());
    var after := Step(desk, events[1]);
    var stamp := Stamp(Allocate(desk.counters, InvoiceCounter(desk.invoices[0])).value, PLAIN);
    Sum1(after.invoices[0], OutstandingFn(CUSTOMER));
    assert IssuedStage(after, stamp);
  }

  lemma AfterDraft(events: seq<Event>)
    requires StartsIssued(events)
    ensures var desk := Run(EmptyDesk(NGN), events[..1]);
            Inv(desk) && desk == EmptyDesk(NGN).(invoices := [OfTwoHundred(Draft, 0, 0, None)])
  {
    RunPrefix(EmptyDesk(NGN), events, 0);
    Drafts(Run(EmptyDesk(NGN), events[..0]), events);
  }

  lemma AfterIssue(events: seq<Event>)
    requires StartsIssued(events)
    ensures var desk := Run(EmptyDesk(NGN), events[..2]); Inv(desk) && exists stamp :: IssuedStage(desk, stamp)
  {
    AfterDraft(events);
    RunPrefix(EmptyDesk(NGN), events, 1);
    Issues(Run(EmptyDesk(NGN), events[..1]), events);
  }

  // ----- One reference, two payments ----------------------------------------

  function PayScript(k: nat): Event {
    Pay(PAYMENT)
  }

  /** Two requests with one reference write one after the other. */
  predicate PaysTwice(events: seq<Event>) {
    && |events| == 4 && StartsIssued(events)
    && forall k {:trigger PayScript(k)} :: 2 <= k < 4 ==> events[k] == PayScript(k)
  }

  lemma PayCommits(desk: Desk, inv: Invoice)
    requires Inv(desk) && desk.invoices == [inv] && desk.book.currency == NGN
    requires Open(inv) && Due(inv) >= 100 && inv.customer == CUSTOMER
    requires Current(desk.counters, PaymentCounter(PAYMENT)) < 10
    ensures PayWrite(desk, PAYMENT).Success?
    ensures var after := PayWrite(desk, PAYMENT).value;
            && Inv(after) && after.invoices == [TakePayment(inv, 100)] && after.book.currency == NGN
            && (exists stamp :: after.payments == desk.payments + [Payment(0, 100, "R", stamp)])
            && Current(after.counters, PaymentCounter(PAYMENT)) == Current(desk.counters, PaymentCounter(PAYMENT)) + 1
  {
    PayIff(desk, PAYMENT);
    PaidTables(desk, PAYMENT);
    PaidOnce(desk, PAYMENT);
    PayKeeps(desk, PAYMENT);
  }

  lemma Pays(desk: Desk, events: seq<Event>, k: nat, inv: Invoice)
    requires PaysTwice(events) && 2 <= k < 4
    requires Inv(desk) && desk.invoices == [inv] && desk.book.currency == NGN
    requires Open(inv) && Due(inv) >= 100 && inv.customer == CUSTOMER
    requires Current(desk.counters, PaymentCounter(PAYMENT)) < 10
    ensures var after := Step(desk, events[k]);
            && Inv(after) && after.invoices == [TakePayment(inv, 100)] && after.book.currency == NGN
            && (exists stamp :: after.payments == desk.payments + [Payment(0, 100, "R", stamp)])
            && Current(after.counters, PaymentCounter(PAYMENT)) == Current(desk.counters, PaymentCounter(PAYMENT)) + 1
  {
    assert events[k] == PayScript(k);
    PayCommits(desk, inv);
  }

  predicate OfReference(p: Payment) {
    p.invoice == 0 && p.reference == "R" && p.amount == 100
  }

  predicate PaidStage(desk: Desk, inv: Invoice, p: Payment) {
    && desk.invoices == [inv] && Open(inv) && Due(inv) == 100 && inv.paid == 100 && inv.customer == CUSTOMER
    && desk.payments == [p] && OfReference(p)
    && Current(desk.counters, PaymentCounter(PAYMENT)) == 1 && desk.book.currency == NGN
  }

  lemma FirstPays(desk: Desk, events: seq<Event>, stamp: Stamp)
    requires PaysTwice(events) && Inv(desk) && IssuedStage(desk, stamp)
    ensures Inv(Step(desk, events[2])) && exists inv, p :: PaidStage(Step(desk, events[2]), inv, p)
  {
    Pays(desk, events, 2, desk.invoices[0]);
    var after := Step(desk, events[2]);
    assert PaidStage(after, TakePayment(desk.invoices[0], 100), after.payments[0]);
  }

  lemma AfterPay(events: seq<Event>)
    requires PaysTwice(events)
    ensures var desk := Run(EmptyDesk(NGN), events[..3]); Inv(desk) && exists inv, p :: PaidStage(desk, inv, p)
  {
    AfterIssue(events);
    var stamp :| IssuedStage(Run(EmptyDesk(NGN), events[..2]), stamp);
    RunPrefix(EmptyDesk(NGN), events, 2);
    FirstPays(Run(EmptyDesk(NGN), events[..2]), events, stamp);
  }

  lemma SecondPays(desk: Desk, events: seq<Event>, inv: Invoice, p: Payment)
    requires PaysTwice(events) && Inv(desk) && PaidStage(desk, inv, p)
    ensures var after := Step(desk, events[3]);
            && (exists p, q :: after.payments == [p, q] && OfReference(p) && OfReference(q))
            && |after.invoices| == 1 && after.invoices[0].paid == 200
  {
    Pays(desk, events, 3, inv);
    var after := Step(desk, events[3]);
    assert after.payments == [p, after.payments[1]];
  }

  lemma ProbeAnswers(desk: Desk, inv: Invoice, p: Payment)
    requires PaidStage(desk, inv, p)
    ensures RecordPayment(desk, PAYMENT) == Success(desk)
  {
    assert desk.payments[0] == p;
  }

  /**
   * One reference is banked twice and the invoice of 200 is paid twice 100. The
   * same request probing between the two writes would have changed nothing.
   */
  lemma ReferenceBankedTwice(events: seq<Event>)
    requires PaysTwice(events)
    ensures var once, twice := Run(EmptyDesk(NGN), events[..3]), Run(EmptyDesk(NGN), events);
            && RecordPayment(once, PAYMENT) == Success(once)
            && (exists p, q :: twice.payments == [p, q] && OfReference(p) && OfReference(q))
            && |twice.invoices| == 1 && twice.invoices[0].paid == 200
  {
    AfterPay(events);
    var once := Run(EmptyDesk(NGN), events[..3]);
    var inv, p :| PaidStage(once, inv, p);
    ProbeAnswers(once, inv, p);
    RunPrefix(EmptyDesk(NGN), events, 3);
    SecondPays(once, events, inv, p);
    assert events[..4] == events;
  }

  // ----- One balance, two credits -------------------------------------------

  function CreditScript(k: nat): Event {
    if k < 4 then Raise(0, true, 200, 0, "wrong", 1, MAY) else IssueNoteOne(if k == 4 then 0 else 1, 2, NOTES)
  }

  /** Two credit notes of 200 are raised against an invoice that owes 200, and a second person issues both. */
  predicate CreditsTwice(events: seq<Event>) {
    && |events| == 6 && StartsIssued(events)
    && forall k {:trigger CreditScript(k)} :: 2 <= k < 6 ==> events[k] == CreditScript(k)
  }

  /** Raising compares the credit with what is owed now, whatever other credits wait. */
  lemma Raises(desk: Desk, events: seq<Event>, k: nat)
    requires CreditsTwice(events) && 2 <= k < 4
    requires Inv(desk) && |desk.invoices| == 1 && Open(desk.invoices[0]) && Due(desk.invoices[0]) == 200 && desk.invoices[0].customer == CUSTOMER
    ensures Inv(Step(desk, events[k])) && Step(desk, events[k]) == desk.(notes := desk.notes + [CreditOf(None, false)])
  {
    assert events[k] == CreditScript(k);
    StepKeeps(desk, events[k]);
  }

  predicate RaisedStage(desk: Desk, stamp: Stamp, notes: seq<Note>) {
    && desk.invoices == [OfTwoHundred(Issued, 0, 0, Some(stamp))] && desk.notes == notes && desk.book.currency == NGN
    && Current(desk.counters, NoteCounter(CreditOf(None, false))) == 0
    && Receivable(desk, CUSTOMER) == 200 && Outstanding(desk, CUSTOMER) == 200
  }

  lemma FirstRaise(desk: Desk, events: seq<Event>, stamp: Stamp)
    requires CreditsTwice(events) && Inv(desk) && IssuedStage(desk, stamp)
    ensures Inv(Step(desk, events[2])) && RaisedStage(Step(desk, events[2]), stamp, [CreditOf(None, false)])
  {
    Raises(desk, events, 2);
    assert [] + [CreditOf(None, false)] == [CreditOf(None, false)];
  }

  lemma SecondRaise(desk: Desk, events: seq<Event>, stamp: Stamp)
    requires CreditsTwice(events) && Inv(desk) && RaisedStage(desk, stamp, [CreditOf(None, false)])
    ensures Inv(Step(desk, events[3])) && RaisedStage(Step(desk, events[3]), stamp, [CreditOf(None, false), CreditOf(None, false)])
  {
    Raises(desk, events, 3);
    assert [CreditOf(None, false)] + [CreditOf(None, false)] == [CreditOf(None, false), CreditOf(None, false)];
  }

  lemma AfterFirstRaise(events: seq<Event>)
    requires CreditsTwice(events)
    ensures var desk := Run(EmptyDesk(NGN), events[..3]);
            Inv(desk) && exists stamp :: RaisedStage(desk, stamp, [CreditOf(None, false)])
  {
    AfterIssue(events);
    var stamp :| IssuedStage(Run(EmptyDesk(NGN), events[..2]), stamp);
    RunPrefix(EmptyDesk(NGN), events, 2);
    FirstRaise(Run(EmptyDesk(NGN), events[..2]), events, stamp);
  }

  lemma AfterSecondRaise(events: seq<Event>)
    requires CreditsTwice(events)
    ensures var desk := Run(EmptyDesk(NGN), events[..4]);
            Inv(desk) && exists stamp :: RaisedStage(desk, stamp, [CreditOf(None, false), CreditOf(None, false)])
  {
    AfterFirstRaise(events);
    var stamp :| RaisedStage(Run(EmptyDesk(NGN), events[..3]), stamp, [CreditOf(None, false)]);
    RunPrefix(EmptyDesk(NGN), events, 3);
    SecondRaise(Run(EmptyDesk(NGN), events[..3]), events, stamp);
  }

  /** How the next number of a note's counter prints. */
  function NextPrint(desk: Desk, n: Note, format: Format): string {
    Printed(format.prefix, NoteCounter(n).year, format.padding, Current(desk.counters, NoteCounter(n)) + 1)
  }

  /** A credit of 200 waits for an invoice that owes 200, or nothing any more. */
  predicate Waits(desk: Desk, id: nat, inv: Invoice) {
    && desk.invoices == [inv] && desk.book.currency == NGN && (Open(inv) ==> Due(inv) == 200)
    && id < |desk.notes| && desk.notes[id] == CreditOf(None, false)
    && Current(desk.counters, NoteCounter(desk.notes[id])) < 10
  }

  lemma CreditSucceeds(desk: Desk, id: nat, inv: Invoice, user: int, format: Format)
    requires Inv(desk) && Waits(desk, id, inv) && user != 1
    requires !NotePrints(desk.notes, NextPrint(desk, desk.notes[id], format))
    ensures IssueNote(desk, id, user, format).Success?
  {
    IssueNoteIff(desk, id, user, format);
  }

  lemma CreditRows(desk: Desk, id: nat, inv: Invoice, user: int, format: Format, after: Desk)
    requires Waits(desk, id, inv) && IssueNote(desk, id, user, format) == Success(after)
    ensures var next := Current(desk.counters, NoteCounter(desk.notes[id])) + 1;
            && after.invoices == (if Open(inv) then [TakeCredit(inv, 200)] else [inv]) && after.book.currency == NGN
            && (exists stamp: Stamp :: stamp.number.value == next && after.notes == desk.notes[id := CreditOf(Some(stamp), Open(inv))])
            && Current(after.counters, NoteCounter(desk.notes[id])) == next
  {
    NotedTables(desk, id, user, format);
    AllocateGrows(desk.counters, NoteCounter(desk.notes[id]));
    PostEffect(desk.book, NotePosting(desk, id), Ledger.NetFn());
  }

  /** Issuing it moves the books by 200, and what is outstanding when the invoice was open. */
  lemma CreditCommits(desk: Desk, id: nat, inv: Invoice, user: int, format: Format, after: Desk)
    requires Inv(desk) && Waits(desk, id, inv) && IssueNote(desk, id, user, format) == Success(after)
    ensures Inv(after)
    ensures Receivable(after, CUSTOMER) == Receivable(desk, CUSTOMER) - 200
    ensures Outstanding(after, CUSTOMER) == Outstanding(desk, CUSTOMER) - (if Open(inv) then 200 else 0)
  {
    NoteMoves(desk, id, user, format);
    IssueNoteKeeps(desk, id, user, format);
  }

  predicate CreditedStage(desk: Desk, inv: Invoice, stamp: Stamp) {
    && desk.invoices == [inv] && !Open(inv) && desk.book.currency == NGN
    && stamp.number.value == 1 && desk.notes == [CreditOf(Some(stamp), true), CreditOf(None, false)]
    && Current(desk.counters, NoteCounter(CreditOf(None, false))) == 1
    && Receivable(desk, CUSTOMER) == 0 && Outstanding(desk, CUSTOMER) == 0
  }

  lemma StepIsIssue(desk: Desk, events: seq<Event>, k: nat, after: Desk)
    requires CreditsTwice(events) && 4 <= k < 6 && IssueNote(desk, if k == 4 then 0 else 1, 2, NOTES) == Success(after)
    ensures Step(desk, events[k]) == after
  {
    assert events[k] == CreditScript(k);
  }

  lemma FirstCommits(desk: Desk, stamp: Stamp, user: int, format: Format, after: Desk)
    requires Inv(desk) && RaisedStage(desk, stamp, [CreditOf(None, false), CreditOf(None, false)])
    requires IssueNote(desk, 0, user, format) == Success(after)
    ensures Inv(after) && exists inv, number :: CreditedStage(after, inv, number)
  {
    var inv := desk.invoices[0];
    assert Waits(desk, 0, inv);
    CreditRows(desk, 0, inv, user, format, after);
    CreditCommits(desk, 0, inv, user, format, after);
    var number: Stamp :| number.number.value == 1 && after.notes == desk.notes[0 := CreditOf(Some(number), true)];
    assert CreditedStage(after, TakeCredit(inv, 200), number);
  }

  /** The first credit settles the invoice, and the second still waits. */
  lemma FirstCredit(desk: Desk, events: seq<Event>, stamp: Stamp)
    requires CreditsTwice(events) && Inv(desk) && RaisedStage(desk, stamp, [CreditOf(None, false), CreditOf(None, false)])
    ensures Inv(Step(desk, events[4])) && exists inv, number :: CreditedStage(Step(desk, events[4]), inv, number)
  {
    assert Waits(desk, 0, desk.invoices[0]);
    CreditSucceeds(desk, 0, desk.invoices[0], 2, NOTES);
    var after := IssueNote(desk, 0, 2, NOTES).value;
    FirstCommits(desk, stamp, 2, NOTES, after);
    StepIsIssue(desk, events, 4, after);
  }

  /** With the first number of a counter taken, the second prints unlike it. */
  lemma SecondNumberFree(notes: seq<Note>, stamp: Stamp, format: Format, year: nat, next: nat)
    requires |notes| == 2 && notes[0].stamp == Some(stamp) && notes[1].stamp.None?
    requires stamp.number.value < next
    ensures !NotePrints(notes, Printed(format.prefix, year, format.padding, next))
  {
    if PrintedOf(stamp) == Printed(format.prefix, year, format.padding, next) {
      PrintInjective(stamp.format.prefix, stamp.number.counter.year, stamp.format.padding, stamp.number.value,
                     format.prefix, year, format.padding, next);
    }
  }

  lemma SecondPrintFree(desk: Desk, inv: Invoice, stamp: Stamp, format: Format)
    requires CreditedStage(desk, inv, stamp)
    ensures !NotePrints(desk.notes, NextPrint(desk, desk.notes[1], format))
  {
    var n := desk.notes[1];
    SecondNumberFree(desk.notes, stamp, format, NoteCounter(n).year, Current(desk.counters, NoteCounter(n)) + 1);
  }

  lemma SecondWaits(desk: Desk, inv: Invoice, stamp: Stamp)
    requires CreditedStage(desk, inv, stamp)
    ensures Waits(desk, 1, inv)
  {
  }

  /** The second credit finds no open invoice, and moves the books alone. */
  lemma SecondCredit(desk: Desk, events: seq<Event>, inv: Invoice, stamp: Stamp)
    requires CreditsTwice(events) && Inv(desk) && CreditedStage(desk, inv, stamp)
    ensures Receivable(Step(desk, events[5]), CUSTOMER) == -200 && Outstanding(Step(desk, events[5]), CUSTOMER) == 0
  {
    SecondWaits(desk, inv, stamp);
    SecondPrintFree(desk, inv, stamp, NOTES);
    CreditSucceeds(desk, 1, inv, 2, NOTES);
    var after := IssueNote(desk, 1, 2, NOTES).value;
    CreditCommits(desk, 1, inv, 2, NOTES, after);
    StepIsIssue(desk, events, 5, after);
  }

  lemma AfterFirstCredit(events: seq<Event>)
    requires CreditsTwice(events)
    ensures var desk := Run(EmptyDesk(NGN), events[..5]); Inv(desk) && exists inv, stamp :: CreditedStage(desk, inv, stamp)
  {
    AfterSecondRaise(events);
    var raised := Run(EmptyDesk(NGN), events[..4]);
    var stamp :| RaisedStage(raised, stamp, [CreditOf(None, false), CreditOf(None, false)]);
    RunPrefix(EmptyDesk(NGN), events, 4);
    FirstCredit(raised, events, stamp);
  }

  /** One balance of 200 is credited twice: the books owe the customer 200, and nothing is outstanding. */
  lemma BalanceCreditedTwice(events: seq<Event>)
    requires CreditsTwice(events)
    ensures var desk := Run(EmptyDesk(NGN), events);
            Receivable(desk, CUSTOMER) == -200 && Outstanding(desk, CUSTOMER) == 0
  {
    AfterFirstCredit(events);
    var once := Run(EmptyDesk(NGN), events[..5]);
    var inv, stamp :| CreditedStage(once, inv, stamp);
    RunPrefix(EmptyDesk(NGN), events, 5);
    SecondCredit(once, events, inv, stamp);
    assert events[..6] == events;
  }
}
