/**
 * The double-entry ledger the finance services post to: internal/ledger/ledger.go
 * and the balance queries of db/queries/ledger.sql.
 *
 * A book is the append-only list of journal transactions of one organization.
 * No balance is stored: every balance is a sum over the legs.
 */
module Ledger {
  import opened Sums

  datatype Currency = INR | NGN | USD | Unsupported(code: string)

  datatype AccountCode =
    | Cash                  // 1000
    | CodReceivableAgent    // 1100
    | CodReceivableBranch   // 1110
    | CodReceivableFranchise // 1120
    | TradeReceivable       // 1200
    | CodShortage           // 1400
    | CodPayableConsignor   // 2000
    | CommissionPayable     // 2100
    | TaxPayable            // 2300
    | CodExcessPayable      // 2500
    | FreightRevenue        // 4000
    | OtherRevenue          // 4300
    | CommissionExpense     // 5000
    | IncentiveExpense      // 5100
    | CodShortageWrittenOff // 5200
    | DiscountAllowed       // 5300

  datatype PartyKind = AgentParty | UnitParty | FranchiseParty | CustomerParty

  datatype Party = Party(kind: PartyKind, id: int)

  datatype Leg = Leg(account: AccountCode, debit: int, credit: int, party: Option<Party>)

  function Dr(account: AccountCode, amount: int): Leg {
    Leg(account, amount, 0, None)
  }

  function Cr(account: AccountCode, amount: int): Leg {
    Leg(account, 0, amount, None)
  }

  function DrParty(account: AccountCode, amount: int, party: Party): Leg {
    Leg(account, amount, 0, Some(party))
  }

  function CrParty(account: AccountCode, amount: int, party: Party): Leg {
    Leg(account, 0, amount, Some(party))
  }

  datatype Source = FromCod | FromCommission | FromInvoice | FromCreditNote | FromPayment | FromAdjustment | FromReversal

  datatype Purpose =
    | Collection
    | CustodyTransfer
    | Remittance
    | Reconciliation
    | CodAdjustment
    | CommissionOf(commissionType: string)
    | InvoiceIssue
    | InvoicePayment(number: string)
    | NoteIssue(credit: bool)
    | ReversalOf(purpose: Purpose)

  /** The idempotency key of a posting: (source_type, source_id, purpose). */
  datatype Key = Key(source: Source, id: nat, purpose: Purpose)

  datatype Posting = Posting(key: Key, currency: Currency, legs: seq<Leg>)

  datatype Journal = Journal(key: Key, currency: Currency, legs: seq<Leg>, reversed: bool)

  /** `currency` is the one the control accounts are held in. */
  datatype Book = Book(currency: Currency, journals: seq<Journal>)

  datatype LedgerError = UnsupportedCurrency | TooFewLegs | MalformedLeg | Unbalanced | CurrencyMismatch | NotFound | AlreadyReversed

  // ----- Posting ------------------------------------------------------------

  /** Exactly one side carries a positive amount, and a party leg names its party. */
  predicate WellFormedLeg(leg: Leg) {
    && leg.debit >= 0
    && leg.credit >= 0
    && (leg.debit == 0) != (leg.credit == 0)
    && (leg.party.Some? ==> leg.party.value.id != 0)
  }

  function DebitFn(): Leg -> int {
    (leg: Leg) => leg.debit
  }

  function CreditFn(): Leg -> int {
    (leg: Leg) => leg.credit
  }

  predicate BalancedLegs(legs: seq<Leg>) {
    Sum(legs, DebitFn()) == Sum(legs, CreditFn())
  }

  predicate WellFormedLegs(legs: seq<Leg>) {
    |legs| >= 2 && forall leg :: leg in legs ==> WellFormedLeg(leg)
  }

  /** A control account takes postings in its own currency only; a party account is opened in any. */
  predicate CurrencyFits(book: Book, posting: Posting) {
    forall leg :: leg in posting.legs && leg.party.None? ==> posting.currency == book.currency
  }

  /** The live journal with this key. A reversed one no longer holds the key. */
  function Find(journals: seq<Journal>, key: Key): (found: Option<nat>)
    ensures found.Some? ==> found.value < |journals| && journals[found.value].key == key && !journals[found.value].reversed
    ensures found.None? ==> forall j :: j in journals && j.key == key ==> j.reversed
  {
    if journals == [] then None
    else
      var last := |journals| - 1;
      if journals[last].key == key && !journals[last].reversed then Some(last)
      else Find(journals[..last], key)
  }

  datatype Posted = PostedAs(book: Book, journal: nat)

  function Post(book: Book, posting: Posting): Result<Posted, LedgerError> {
    if posting.currency.Unsupported? then Failure(UnsupportedCurrency)
    else if |posting.legs| < 2 then Failure(TooFewLegs)
    else if exists leg :: leg in posting.legs && !WellFormedLeg(leg) then Failure(MalformedLeg)
    else
      var existing := Find(book.journals, posting.key);
      if existing.Some? then Success(PostedAs(book, existing.value))
      else if !BalancedLegs(posting.legs) then Failure(Unbalanced)
      else if !CurrencyFits(book, posting) then Failure(CurrencyMismatch)
      else
        var journal := Journal(posting.key, posting.currency, posting.legs, false);
        Success(PostedAs(book.(journals := book.journals + [journal]), |book.journals|))
  }

  function Mirror(leg: Leg): Leg {
    leg.(debit := leg.credit, credit := leg.debit)
  }

  function MirrorAll(legs: seq<Leg>): (mirrored: seq<Leg>)
    ensures |mirrored| == |legs|
    ensures forall i :: 0 <= i < |legs| ==> mirrored[i] == Mirror(legs[i])
  {
    seq(|legs|, i requires 0 <= i < |legs| => Mirror(legs[i]))
  }

  function Reverse(book: Book, id: nat): Result<Posted, LedgerError> {
    if id >= |book.journals| then Failure(NotFound)
    else
      var original := book.journals[id];
      if original.reversed then Failure(AlreadyReversed)
      else
        var key := Key(FromReversal, id, ReversalOf(original.key.purpose));
        var reversal := Journal(key, original.currency, MirrorAll(original.legs), false);
        Success(PostedAs(
                  book.(journals := book.journals[id := original.(reversed := true)] + [reversal]),
                  |book.journals|))
  }

  // ----- Balances -----------------------------------------------------------

  /** ASSET and EXPENSE accounts grow on the debit side. */
  predicate NormalDebit(account: AccountCode) {
    match account
    case Cash | CodReceivableAgent | CodReceivableBranch | CodReceivableFranchise | TradeReceivable | CodShortage => true
    case CommissionExpense | IncentiveExpense | CodShortageWrittenOff | DiscountAllowed => true
    case _ => false
  }

  function Signed(leg: Leg): int {
    if NormalDebit(leg.account) then leg.debit - leg.credit else leg.credit - leg.debit
  }

  /** The balance of one control account, with all its subsidiaries. */
  function AccountFn(account: AccountCode): Leg -> int {
    (leg: Leg) => if leg.account == account then Signed(leg) else 0
  }

  /** The balance of one party's subsidiary account under a control account. */
  function SubsidiaryFn(account: AccountCode, party: Party): Leg -> int {
    (leg: Leg) => if leg.account == account && leg.party == Some(party) then Signed(leg) else 0
  }

  /** GetPartyBalance: everything booked against a party, across every account bound to it. */
  function PartyFn(party: Party): Leg -> int {
    (leg: Leg) => if leg.party == Some(party) then Signed(leg) else 0
  }

  function NetFn(): Leg -> int {
    (leg: Leg) => leg.debit - leg.credit
  }

  function JournalFn(f: Leg -> int): Journal -> int {
    (journal: Journal) => Sum(journal.legs, f)
  }

  function Balance(book: Book, f: Leg -> int): int {
    Sum(book.journals, JournalFn(f))
  }

  predicate SoundJournal(journal: Journal) {
    WellFormedLegs(journal.legs) && BalancedLegs(journal.legs)
  }

  predicate Sound(book: Book) {
    forall j :: j in book.journals ==> SoundJournal(j)
  }

  // ----- What posting guarantees --------------------------------------------

  /**
   * A posting either fails, or replays the live journal of its key and changes
   * nothing, or appends one sound journal and moves every balance by its legs.
   */
  lemma PostEffect(book: Book, posting: Posting, f: Leg -> int)
    requires Post(book, posting).Success?
    ensures var after := Post(book, posting).value;
            && after.journal < |after.book.journals|
            && after.book.currency == book.currency
            && after.book.journals[after.journal].key == posting.key
            && (if Find(book.journals, posting.key).Some?
                then after.book == book
                else && after.journal == |book.journals|
                     && after.book.journals == book.journals + [Journal(posting.key, posting.currency, posting.legs, false)]
                     && Balance(after.book, f) == Balance(book, f) + Sum(posting.legs, f))
    ensures Sound(book) ==> Sound(Post(book, posting).value.book)
  {
    if Find(book.journals, posting.key).None? {
      SumAppend(book.journals, Journal(posting.key, posting.currency, posting.legs, false), JournalFn(f));
    }
  }

  /** When a posting under a fresh key is accepted. */
  lemma PostAcceptedIff(book: Book, posting: Posting)
    requires Find(book.journals, posting.key).None?
    ensures Post(book, posting).Success? <==>
            && !posting.currency.Unsupported?
            && WellFormedLegs(posting.legs)
            && BalancedLegs(posting.legs)
            && CurrencyFits(book, posting)
  {
  }

  lemma {:induction false} NetOfBalancedLegs(legs: seq<Leg>)
    ensures Sum(legs, NetFn()) == Sum(legs, DebitFn()) - Sum(legs, CreditFn())
  {
    if legs != [] {
      NetOfBalancedLegs(legs[..|legs| - 1]);
    }
  }

  /** The trial balance of a sound book is zero: SUM(debit) = SUM(credit) over the whole ledger. */
  lemma TrialBalance(book: Book)
    requires Sound(book)
    ensures Balance(book, NetFn()) == 0
  {
    forall i | 0 <= i < |book.journals|
      ensures JournalFn(NetFn())(book.journals[i]) == 0
    {
      assert SoundJournal(book.journals[i]);
      NetOfBalancedLegs(book.journals[i].legs);
    }
    SumZero(book.journals, JournalFn(NetFn()));
  }

  lemma {:induction false} MirrorNegates(legs: seq<Leg>, f: Leg -> int)
    requires forall leg :: f(Mirror(leg)) == -f(leg)
    ensures Sum(MirrorAll(legs), f) == -Sum(legs, f)
  {
    if legs != [] {
      var n := |legs| - 1;
      MirrorNegates(legs[..n], f);
      assert MirrorAll(legs)[..n] == MirrorAll(legs[..n]);
    }
  }

  lemma {:induction false} MirrorSwapsSides(legs: seq<Leg>)
    ensures Sum(MirrorAll(legs), DebitFn()) == Sum(legs, CreditFn())
    ensures Sum(MirrorAll(legs), CreditFn()) == Sum(legs, DebitFn())
  {
    if legs != [] {
      var n := |legs| - 1;
      MirrorSwapsSides(legs[..n]);
      assert MirrorAll(legs)[..n] == MirrorAll(legs[..n]);
    }
  }

  /** A reversal cancels the original in every balance and frees its key. */
  lemma ReverseEffect(book: Book, id: nat, f: Leg -> int)
    requires Reverse(book, id).Success?
    requires forall leg :: f(Mirror(leg)) == -f(leg)
    ensures id < |book.journals|
    ensures var after := Reverse(book, id).value;
            && after.journal == |book.journals|
            && |after.book.journals| == |book.journals| + 1
            && Balance(after.book, f) == Balance(book, f) - Sum(book.journals[id].legs, f)
            && after.book.journals[id] == book.journals[id].(reversed := true)
            && forall i :: 0 <= i < |book.journals| && i != id ==> after.book.journals[i] == book.journals[i]
    ensures Sound(book) ==> Sound(Reverse(book, id).value.book)
  {
    var original := book.journals[id];
    var after := Reverse(book, id).value;
    var marked := book.journals[id := original.(reversed := true)];
    var reversal := after.book.journals[|book.journals|];
    SumUpdate(book.journals, id, original.(reversed := true), JournalFn(f));
    SumAppend(marked, reversal, JournalFn(f));
    MirrorNegates(original.legs, f);
    MirrorSwapsSides(original.legs);
    if Sound(book) {
      assert SoundJournal(original);
      forall i | 0 <= i < |reversal.legs|
        ensures WellFormedLeg(reversal.legs[i])
      {
        assert original.legs[i] in original.legs;
      }
      assert SoundJournal(reversal);
      forall j | j in after.book.journals
        ensures SoundJournal(j)
      {
      }
    }
  }
}
