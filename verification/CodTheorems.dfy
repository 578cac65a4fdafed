/** What the COD design promises, as consequences of the invariant and the laws. */
module CodTheorems {
  import opened Sums
  import opened Ledger
  import opened CodModel
  import opened CodInvariant
  import opened CodLaw

  // ----- The custody position -----------------------------------------------

  /** Held plus released is everything a party was last to hold. */
  lemma HeldPlusReleased(desk: Desk, party: Holder)
    requires RowsValid(desk.obligations)
    ensures Sum(desk.obligations, EverHeldFn(party)) == Held(desk, party) + Sum(desk.obligations, ReleasedFn(party))
  {
    forall i | 0 <= i < |desk.obligations|
      ensures EverHeldFn(party)(desk.obligations[i]) == HeldFn(party)(desk.obligations[i]) + ReleasedFn(party)(desk.obligations[i])
    {
      assert ValidRow(desk.obligations[i]);
    }
    SumLinear(desk.obligations, HeldFn(party), ReleasedFn(party), EverHeldFn(party));
  }

  /** A party is bound to no other accounts than its receivables and its shortage. */
  lemma PartyBalanceSplits(desk: Desk, party: Party)
    requires JournalsValid(desk)
    ensures Balance(desk.book, PartyFn(party))
            == Balance(desk.book, ReceivableFn(party)) + Balance(desk.book, SubsidiaryFn(CodShortage, party))
  {
    var receivable, shortage := ReceivableFn(party), SubsidiaryFn(CodShortage, party);
    forall j | 0 <= j < |desk.book.journals|
      ensures JournalFn(PartyFn(party))(desk.book.journals[j])
              == JournalFn(receivable)(desk.book.journals[j]) + JournalFn(shortage)(desk.book.journals[j])
    {
      SumLinear(desk.book.journals[j].legs, receivable, shortage, PartyFn(party));
    }
    SumLinear(desk.book.journals, JournalFn(receivable), JournalFn(shortage), JournalFn(PartyFn(party)));
  }

  /** By how much the obligation rows and the books differ for a party. */
  function RecordedVariance(desk: Desk, party: Holder): int
    requires Custodial(party.kind)
  {
    Sum(desk.transfers, TakenShortFn(party)) - Sum(desk.transfers, GivenShortFn(party))
    - Sum(desk.obligations, ReleasedFn(party)) + Sum(desk.remittances, BankedFn(party))
    - Sum(desk.counts, CountExcessFn(party)) + Sum(desk.adjustments, ClearedFn(PartyOf(party)))
  }

  /**
   * In every run of every COD operation the two derivations of a party's
   * position differ by exactly the recorded variances, and CustodyPosition
   * reports agreement exactly when those cancel.
   */
  lemma PositionLaw(currency: Currency, events: seq<Event>, party: Holder)
    requires Custodial(party.kind)
    ensures var desk := Run(EmptyDesk(currency), events);
            var position := CustodyPosition(desk, party);
            && position.Success?
            && position.value.held - position.value.ledger == RecordedVariance(desk, party)
            && (position.value.reconciled <==> RecordedVariance(desk, party) == 0)
  {
    var desk := Run(EmptyDesk(currency), events);
    RunLaw(currency, events, party);
    HeldPlusReleased(desk, party);
    PartyBalanceSplits(desk, PartyOf(party));
  }

  predicate IsHandOver(event: Event) {
    event.Open? || event.Collect? || event.Declare? || event.Accept?
  }

  predicate OnlyHandOvers(desk: Desk) {
    && desk.remittances == [] && desk.counts == [] && desk.adjustments == []
    && forall i :: 0 <= i < |desk.obligations| ==> desk.obligations[i].status !in {Reconciled, Remitted}
  }

  lemma HandOverAccept(desk: Desk, id: nat, accepted: int, reason: string)
    requires Inv(desk) && OnlyHandOvers(desk) && AcceptTransfer(desk, id, accepted, reason).Success?
    ensures OnlyHandOvers(AcceptTransfer(desk, id, accepted, reason).value)
  {
    AcceptedTables(desk, id, accepted, reason);
    var transfer := desk.transfers[id];
    assert TransferValid(desk.obligations, transfer);
    MovedRows(desk.obligations, transfer.items, transfer.from.kind, transfer.to);
  }

  lemma HandOverCollect(desk: Desk, request: CollectRequest)
    requires OnlyHandOvers(desk) && CollectWrite(desk, request).Success?
    ensures OnlyHandOvers(CollectWrite(desk, request).value.desk)
  {
    CollectedTables(desk, request);
  }

  lemma HandOverStep(desk: Desk, event: Event)
    requires Inv(desk) && OnlyHandOvers(desk) && IsHandOver(event)
    ensures OnlyHandOvers(Step(desk, event))
  {
    if Step(desk, event) != desk {
      match event
      case Open(shipment, amount, currency) =>
      case Collect(request) => HandOverCollect(desk, request);
      case Declare(from, to, ids) =>
      case Accept(id, accepted, reason) => HandOverAccept(desk, id, accepted, reason);
    }
  }

  lemma {:induction false} HandOverRuns(currency: Currency, events: seq<Event>)
    requires forall e :: 0 <= e < |events| ==> IsHandOver(events[e])
    ensures OnlyHandOvers(Run(EmptyDesk(currency), events))
  {
    if events != [] {
      var n := |events| - 1;
      HandOverRuns(currency, events[..n]);
      RunKeeps(EmptyDesk(currency), events[..n]);
      HandOverStep(Run(EmptyDesk(currency), events[..n]), events[n]);
    }
  }

  /**
   * Runs of collections and hand-overs with any counted amounts: what a party
   * holds minus its receivable is the total shortfall on the transfers it
   * accepted; and when every count was exact the position agrees.
   */
  lemma HandOverLaw(currency: Currency, events: seq<Event>, party: Holder)
    requires Custodial(party.kind)
    requires forall e :: 0 <= e < |events| ==> IsHandOver(events[e])
    ensures var desk := Run(EmptyDesk(currency), events);
            && Held(desk, party) - Balance(desk.book, ReceivableFn(PartyOf(party))) == Sum(desk.transfers, TakenShortFn(party))
            && ((forall t :: 0 <= t < |desk.transfers| && desk.transfers[t].status == Accepted ==>
                   desk.transfers[t].accepted == desk.transfers[t].declared)
                ==> CustodyPosition(desk, party).value.reconciled)
  {
    var desk := Run(EmptyDesk(currency), events);
    RunLaw(currency, events, party);
    HandOverRuns(currency, events);
    HeldPlusReleased(desk, party);
    SumZero(desk.obligations, ReleasedFn(party));
    if forall t :: 0 <= t < |desk.transfers| && desk.transfers[t].status == Accepted ==>
         desk.transfers[t].accepted == desk.transfers[t].declared {
      SumZero(desk.transfers, TakenShortFn(party));
      SumZero(desk.transfers, GivenShortFn(party));
      PositionLaw(currency, events, party);
    }
  }

  // ----- Custodians and their accounts --------------------------------------

  /** In every run the status of a row in custody says which kind of custodian has it. */
  lemma StatusNamesCustodian(currency: Currency, events: seq<Event>, i: nat)
    requires i < |Run(EmptyDesk(currency), events).obligations|
    ensures var ob := Run(EmptyDesk(currency), events).obligations[i];
            && (ob.status in {AgentCollected, BranchReceived, FranchiseConfirmed} ==> ob.custodian.Some?)
            && (ob.status == AgentCollected ==> ob.custodian.value.kind == Agent)
            && (ob.status == BranchReceived ==> ob.custodian.value.kind == Unit)
            && (ob.status == FranchiseConfirmed ==> ob.custodian.value.kind == Franchise)
  {
    RunKeeps(EmptyDesk(currency), events);
    assert ValidRow(Run(EmptyDesk(currency), events).obligations[i]);
  }

  /**
   * In every run each kind of custodian owes on its own control account: the
   * agents' carries agents only and the branches' units only; on the franchises'
   * an adjustment may book another kind of party.
   */
  lemma AccountNamesCustodian(currency: Currency, events: seq<Event>, j: nat, l: nat)
    requires j < |Run(EmptyDesk(currency), events).book.journals|
    requires l < |Run(EmptyDesk(currency), events).book.journals[j].legs|
    ensures var journal := Run(EmptyDesk(currency), events).book.journals[j];
            var leg := journal.legs[l];
            leg.party.Some? ==>
              && leg.account in {CodReceivableAgent, CodReceivableBranch, CodReceivableFranchise, CodShortage}
              && (leg.account == CodReceivableAgent ==> leg.party.value.kind == AgentParty)
              && (leg.account == CodReceivableBranch ==> leg.party.value.kind == UnitParty)
              && (leg.account == CodReceivableFranchise && journal.key.purpose != CodAdjustment ==> leg.party.value.kind == FranchiseParty)
  {
    RunKeeps(EmptyDesk(currency), events);
    var journal := Run(EmptyDesk(currency), events).book.journals[j];
    assert LegFits(journal.legs[l], journal.key.purpose);
  }

  // ----- Journals -----------------------------------------------------------

  lemma AdjustmentBalances(a: Adjustment)
    ensures BalancedLegs(AdjustmentLegs(a))
  {
    var legs := AdjustmentLegs(a);
    Sum2(legs[0], legs[1], DebitFn());
    Sum2(legs[0], legs[1], CreditFn());
  }

  /** Every journal the COD module builds balances, for all amounts, variances and adjustment types. */
  lemma JournalsBalance(amount: int, agent: int, transfer: Transfer, accepted: int, row: RemittanceRow,
                        party: Holder, shortage: int, excess: int, a: Adjustment)
    requires Custodial(transfer.from.kind) && Custodial(transfer.to.kind)
    requires Custodial(row.from.kind) && Custodial(party.kind)
    ensures BalancedLegs(CollectionLegs(amount, agent))
    ensures BalancedLegs(TransferLegs(transfer, accepted))
    ensures BalancedLegs(RemittanceLegs(row))
    ensures BalancedLegs(CountLegs(party, shortage, excess))
    ensures BalancedLegs(AdjustmentLegs(a))
  {
    var c, r := CollectionLegs(amount, agent), RemittanceLegs(row);
    Sum2(c[0], c[1], DebitFn());
    Sum2(c[0], c[1], CreditFn());
    Sum2(r[0], r[1], DebitFn());
    Sum2(r[0], r[1], CreditFn());
    AdjustmentBalances(a);
    TransferLegSums(transfer, accepted, DebitFn());
    TransferLegSums(transfer, accepted, CreditFn());
    CountLegSums(party, shortage, excess, DebitFn());
    CountLegSums(party, shortage, excess, CreditFn());
  }

  /** And so does the whole ledger, after every run. */
  lemma LedgerBalances(currency: Currency, events: seq<Event>)
    ensures Balance(Run(EmptyDesk(currency), events).book, NetFn()) == 0
  {
    RunKeeps(EmptyDesk(currency), events);
    TrialBalance(Run(EmptyDesk(currency), events).book);
  }

  /** Wherever the cash is, the senders are owed what was collected less what they were paid. */
  lemma ConsignorLiability(currency: Currency, events: seq<Event>)
    ensures var desk := Run(EmptyDesk(currency), events);
            Balance(desk.book, AccountFn(CodPayableConsignor)) == Sum(desk.collections, CollectedFn()) - Sum(desk.remittances, ConsignorPaidFn())
  {
    RunLaw(currency, events, Holder(Agent, 0));
  }

  // ----- Accepting ----------------------------------------------------------

  lemma {:induction false} MovedIff(obligations: seq<Obligation>, items: seq<Item>, from: HolderKind, to: Holder)
    requires Custodial(from) && Custodial(to.kind)
    requires DistinctItems(items)
    ensures Moved(obligations, items, from, to).Some? <==>
            forall k :: 0 <= k < |items| ==>
              && items[k].obligation < |obligations|
              && obligations[items[k].obligation].status == StatusForCustodian(from)
  {
    if items != [] {
      var n := |items| - 1;
      MovedIff(obligations, items[..n], from, to);
      if Moved(obligations, items[..n], from, to).Some? {
        MovedRows(obligations, items[..n], from, to);
        assert !Carries(items[..n], items[n].obligation);
        assert forall k :: 0 <= k < n ==> items[..n][k] == items[k];
      }
    }
  }

  lemma TransferPostsIff(desk: Desk, id: nat, accepted: int)
    requires JournalsValid(desk) && id < |desk.transfers| && TransferValid(desk.obligations, desk.transfers[id])
    requires desk.transfers[id].status == Declared && Custodial(desk.transfers[id].to.kind)
    ensures var t := desk.transfers[id];
            Post(desk.book, Posting(Key(FromCod, id, CustodyTransfer), t.currency, TransferLegs(t, accepted))).Success? <==>
            && accepted > 0
            && t.from.id != 0 && t.to.id != 0
            && !t.currency.Unsupported?
            && (accepted > t.declared ==> t.currency == desk.book.currency)
  {
    var t := desk.transfers[id];
    var posting := Posting(Key(FromCod, id, CustodyTransfer), t.currency, TransferLegs(t, accepted));
    FreshKey(desk, posting.key);
    PostAcceptedIff(desk.book, posting);
    TransferLegSums(t, accepted, DebitFn());
    TransferLegSums(t, accepted, CreditFn());
    var legs := posting.legs;
    assert legs[0] in legs && legs[1] in legs;
    assert accepted > t.declared ==> legs[2] in legs;
  }

  /**
   * When a receiver can accept. A receiver who counts nothing cannot: the
   * ledger refuses a leg of zero.
   */
  lemma AcceptSucceedsIff(desk: Desk, id: nat, accepted: int, reason: string)
    requires Inv(desk) && id < |desk.transfers|
    ensures var t := desk.transfers[id];
            AcceptTransfer(desk, id, accepted, reason).Success? <==>
            && t.status == Declared
            && Custodial(t.to.kind)
            && (accepted == t.declared || |reason| >= 3)
            && accepted > 0
            && t.from.id != 0 && t.to.id != 0
            && !t.currency.Unsupported?
            && (accepted > t.declared ==> t.currency == desk.book.currency)
            && forall k :: 0 <= k < |t.items| ==>
                 desk.obligations[t.items[k].obligation].status == StatusForCustodian(t.from.kind)
  {
    var t := desk.transfers[id];
    assert TransferValid(desk.obligations, t);
    if t.status == Declared && Custodial(t.to.kind) {
      TransferPostsIff(desk, id, accepted);
      MovedIff(desk.obligations, t.items, t.from.kind, t.to);
    }
  }

  // ----- One hop ------------------------------------------------------------

  predicate Distinct(ids: seq<nat>) {
    forall k, l :: 0 <= k < l < |ids| ==> ids[k] != ids[l]
  }

  function Elements(ids: seq<nat>): set<nat> {
    set i | i in ids
  }

  lemma {:induction false} DistinctCardinality(ids: seq<nat>)
    ensures |Elements(ids)| <= |ids|
    ensures |Elements(ids)| == |ids| <==> Distinct(ids)
  {
    if ids != [] {
      var n := |ids| - 1;
      DistinctCardinality(ids[..n]);
      assert Elements(ids) == Elements(ids[..n]) + {ids[n]};
      assert forall k :: 0 <= k < n ==> ids[..n][k] == ids[k];
      if ids[n] in ids[..n] {
        assert Elements(ids) == Elements(ids[..n]);
        assert !Distinct(ids);
      } else {
        assert |Elements(ids)| == |Elements(ids[..n])| + 1;
        assert Distinct(ids) <==> Distinct(ids[..n]);
      }
    }
  }

  lemma {:induction false} LockedElements(limit: nat, ids: seq<nat>)
    ensures forall i :: i in Locked(limit, ids) <==> i in ids && i < limit
  {
    if limit > 0 {
      LockedElements(limit - 1, ids);
    }
  }

  /** The length check of DeclareTransfer refuses exactly the lists that repeat an obligation. */
  lemma LockedAllIff(limit: nat, ids: seq<nat>)
    requires forall k :: 0 <= k < |ids| ==> ids[k] < limit
    ensures |Locked(limit, ids)| == |ids| <==> Distinct(ids)
  {
    var locked := Locked(limit, ids);
    LockedElements(limit, ids);
    assert Elements(locked) == Elements(ids);
    DistinctCardinality(locked);
    DistinctCardinality(ids);
  }

  /** Everything asked for is with the giver, at the giver's stage, in one currency. */
  predicate WithGiver(obligations: seq<Obligation>, ids: seq<nat>, from: Holder)
    requires Custodial(from.kind)
  {
    && (forall i :: i in ids ==>
          && i < |obligations|
          && obligations[i].status == StatusForCustodian(from.kind)
          && obligations[i].custodian == Some(from))
    && (forall i, j :: i in ids && j in ids ==> obligations[i].currency == obligations[j].currency)
  }

  lemma HandOverIff(obligations: seq<Obligation>, locked: seq<nat>, ids: seq<nat>, from: Holder)
    requires Custodial(from.kind) && locked != []
    requires forall k :: 0 <= k < |locked| ==> locked[k] < |obligations|
    requires forall i :: i in locked <==> i in ids
    ensures FirstHandOverError(obligations, locked, from, obligations[locked[0]].currency).None? <==>
            WithGiver(obligations, ids, from)
  {
    var currency := obligations[locked[0]].currency;
    assert locked[0] in ids;
    if FirstHandOverError(obligations, locked, from, currency).None? {
      forall i | i in ids
        ensures i < |obligations| && HandOverError(obligations[i], from, currency).None?
      {
        assert i in locked;
        var k :| 0 <= k < |locked| && locked[k] == i;
      }
    } else {
      var k :| 0 <= k < |locked| && HandOverError(obligations[locked[k]], from, currency).Some?;
      assert locked[k] in ids;
    }
  }

  /** When a hand-over can be declared: among other things, only for cash that was never on a transfer. */
  lemma DeclareSucceedsIff(desk: Desk, from: Holder, to: Holder, ids: seq<nat>)
    ensures DeclareTransfer(desk, from, to, ids).Success? <==>
            && ids != [] && from != to && Custodial(from.kind)
            && Distinct(ids)
            && WithGiver(desk.obligations, ids, from)
            && (forall i :: i in ids ==> !InTransfer(desk.transfers, i))
  {
    if ids == [] || from == to || !Custodial(from.kind) {
    } else if k :| 0 <= k < |ids| && ids[k] >= |desk.obligations| {
      assert ids[k] in ids;
    } else {
      DeclareKnown(desk, from, to, ids);
    }
  }

  lemma DeclareKnown(desk: Desk, from: Holder, to: Holder, ids: seq<nat>)
    requires ids != [] && from != to && Custodial(from.kind)
    requires forall k :: 0 <= k < |ids| ==> ids[k] < |desk.obligations|
    ensures DeclareTransfer(desk, from, to, ids).Success? <==>
            && Distinct(ids)
            && WithGiver(desk.obligations, ids, from)
            && (forall i :: i in ids ==> !InTransfer(desk.transfers, i))
  {
    var locked := Locked(|desk.obligations|, ids);
    LockedAllIff(|desk.obligations|, ids);
    if Distinct(ids) {
      LockedElements(|desk.obligations|, ids);
      DeclareLockedIff(desk, from, to, locked, ids);
    }
  }

  lemma DeclareLockedIff(desk: Desk, from: Holder, to: Holder, locked: seq<nat>, ids: seq<nat>)
    requires Custodial(from.kind) && locked != []
    requires forall k :: 0 <= k < |locked| ==> locked[k] < |desk.obligations|
    requires forall i :: i in locked <==> i in ids
    ensures DeclareLocked(desk, from, to, locked).Success? <==>
            WithGiver(desk.obligations, ids, from) && forall i :: i in ids ==> !InTransfer(desk.transfers, i)
  {
    HandOverIff(desk.obligations, locked, ids, from);
    CarriedIff(desk.transfers, locked, ids);
  }

  lemma CarriedIff(transfers: seq<Transfer>, locked: seq<nat>, ids: seq<nat>)
    requires forall i :: i in locked <==> i in ids
    ensures (exists k :: 0 <= k < |locked| && InTransfer(transfers, locked[k])) <==> exists i :: i in ids && InTransfer(transfers, i)
  {
    if k :| 0 <= k < |locked| && InTransfer(transfers, locked[k]) {
      assert locked[k] in ids;
    }
    if i :| i in ids && InTransfer(transfers, i) {
      assert i in locked;
      var k :| 0 <= k < |locked| && locked[k] == i;
    }
  }

  /** Transfers are never dropped, nor is what they carry. */
  lemma TransferPersists(desk: Desk, event: Event, t: nat)
    requires t < |desk.transfers|
    ensures t < |Step(desk, event).transfers| && Step(desk, event).transfers[t].items == desk.transfers[t].items
  {
    match event
    case Declare(from, to, ids) =>
    case Accept(id, accepted, reason) =>
    case _ =>
  }

  lemma {:induction false} TransfersPersist(desk: Desk, events: seq<Event>, obligation: nat)
    requires InTransfer(desk.transfers, obligation)
    ensures InTransfer(Run(desk, events).transfers, obligation)
  {
    if events != [] {
      var n := |events| - 1;
      TransfersPersist(desk, events[..n], obligation);
      var before := Run(desk, events[..n]);
      var t :| 0 <= t < |before.transfers| && Carries(before.transfers[t].items, obligation);
      TransferPersists(before, events[n], t);
    }
  }

  /** Cash that has been on one transfer is refused on every later one, whoever holds it and whatever has happened since. */
  lemma SecondHopRefused(desk: Desk, events: seq<Event>, obligation: nat, from: Holder, to: Holder, ids: seq<nat>)
    requires InTransfer(desk.transfers, obligation)
    requires obligation in ids
    ensures DeclareTransfer(Run(desk, events), from, to, ids).Failure?
  {
    TransfersPersist(desk, events, obligation);
    DeclareSucceedsIff(Run(desk, events), from, to, ids);
  }

  // ----- Collecting once ----------------------------------------------------

  function RowOfFn(obligation: nat): CollectionRow -> int {
    (row: CollectionRow) => if row.obligation == obligation then 1 else 0
  }

  function KeyFn(key: Key): Journal -> int {
    (journal: Journal) => if journal.key == key then 1 else 0
  }

  /** One collection row and one COLLECTION journal once the obligation has left EXPECTED, none before. */
  predicate CollectedOnce(desk: Desk, obligation: nat) {
    var n := if obligation < |desk.obligations| && desk.obligations[obligation].status != Expected then 1 else 0;
    && Sum(desk.collections, RowOfFn(obligation)) == n
    && Sum(desk.book.journals, KeyFn(Key(FromCod, obligation, Collection))) == n
  }

  lemma PostCounts(book: Book, posting: Posting, key: Key)
    requires Post(book, posting).Success?
    requires Find(book.journals, posting.key).None?
    ensures Sum(Post(book, posting).value.book.journals, KeyFn(key))
            == Sum(book.journals, KeyFn(key)) + (if posting.key == key then 1 else 0)
  {
    PostEffect(book, posting, NetFn());
    SumAppend(book.journals, Journal(posting.key, posting.currency, posting.legs, false), KeyFn(key));
  }

  lemma CollectCounts(desk: Desk, req: CollectRequest, obligation: nat)
    requires Inv(desk) && CollectedOnce(desk, obligation)
    requires CollectWrite(desk, req).Success?
    ensures CollectedOnce(CollectWrite(desk, req).value.desk, obligation)
  {
    var after := CollectWrite(desk, req).value.desk;
    var id := FindByShipment(desk.obligations, req.shipment).value;
    var posting := Posting(Key(FromCod, id, Collection), desk.obligations[id].currency, CollectionLegs(req.amount, req.agent));
    FreshKey(desk, posting.key);
    PostCounts(desk.book, posting, Key(FromCod, obligation, Collection));
    SumAppend(desk.collections, after.collections[|desk.collections|], RowOfFn(obligation));
  }

  /** The posting of any other step is not a COLLECTION journal. */
  lemma OtherPostingCounts(desk: Desk, posting: Posting, after: Desk, obligation: nat)
    requires JournalsValid(desk) && CollectedOnce(desk, obligation)
    requires !Documented(desk, posting.key) && posting.key.purpose != Collection
    requires Post(desk.book, posting).Success? && after.book == Post(desk.book, posting).value.book
    requires after.collections == desk.collections && |after.obligations| == |desk.obligations|
    requires forall i :: 0 <= i < |desk.obligations| ==> (after.obligations[i].status == Expected <==> desk.obligations[i].status == Expected)
    ensures CollectedOnce(after, obligation)
  {
    FreshKey(desk, posting.key);
    PostCounts(desk.book, posting, Key(FromCod, obligation, Collection));
  }

  lemma AcceptCounts(desk: Desk, id: nat, accepted: int, reason: string, obligation: nat)
    requires Inv(desk) && CollectedOnce(desk, obligation)
    requires AcceptTransfer(desk, id, accepted, reason).Success?
    ensures CollectedOnce(AcceptTransfer(desk, id, accepted, reason).value, obligation)
  {
    var t := desk.transfers[id];
    assert TransferValid(desk.obligations, t);
    MovedRows(desk.obligations, t.items, t.from.kind, t.to);
    OtherPostingCounts(desk, Posting(Key(FromCod, id, CustodyTransfer), t.currency, TransferLegs(t, accepted)),
                       AcceptTransfer(desk, id, accepted, reason).value, obligation);
  }

  lemma ConfirmCounts(desk: Desk, id: nat, obligation: nat)
    requires Inv(desk) && CollectedOnce(desk, obligation)
    requires ConfirmRemittance(desk, id).Success?
    ensures CollectedOnce(ConfirmRemittance(desk, id).value, obligation)
  {
    var row := desk.remittances[id];
    RemittedRows(desk.obligations, row.items);
    OtherPostingCounts(desk, Posting(Key(FromCod, id, Remittance), row.currency, RemittanceLegs(row)),
                       ConfirmRemittance(desk, id).value, obligation);
  }

  lemma ApproveCounts(desk: Desk, id: nat, user: int, obligation: nat)
    requires Inv(desk) && CollectedOnce(desk, obligation)
    requires ApproveAdjustment(desk, id, user).Success?
    ensures CollectedOnce(ApproveAdjustment(desk, id, user).value, obligation)
  {
    var a := desk.adjustments[id];
    OtherPostingCounts(desk, Posting(Key(FromAdjustment, id, CodAdjustment), a.currency, AdjustmentLegs(a)),
                       ApproveAdjustment(desk, id, user).value, obligation);
  }

  lemma CompleteCounts(desk: Desk, id: nat, reason: string, obligation: nat)
    requires Inv(desk) && CollectedOnce(desk, obligation)
    requires CompleteReconciliation(desk, id, reason).Success?
    ensures CollectedOnce(CompleteReconciliation(desk, id, reason).value, obligation)
  {
    var c := desk.counts[id];
    var shortage, excess := Sum(c.items, ShortageFn()), Sum(c.items, ExcessFn());
    ReconciledRows(desk.obligations, c.items);
    if shortage != 0 || excess != 0 {
      OtherPostingCounts(desk, Posting(Key(FromCod, id, Reconciliation), c.currency, CountLegs(c.party, shortage, excess)),
                         CompleteReconciliation(desk, id, reason).value, obligation);
    }
  }

  /** Opening an obligation and writing papers bank nothing. */
  lemma OpenCounts(desk: Desk, shipment: int, amount: int, currency: Currency, obligation: nat)
    requires CollectedOnce(desk, obligation) && OpenObligation(desk, shipment, amount, currency).Success?
    ensures CollectedOnce(OpenObligation(desk, shipment, amount, currency).value, obligation)
  {
  }

  lemma PaperCounts(desk: Desk, event: Event, obligation: nat)
    requires CollectedOnce(desk, obligation)
    requires event.Declare? || event.Remit? || event.Request? || event.OpenCount? || event.RecordCount?
    ensures CollectedOnce(Step(desk, event), obligation)
  {
    var after := Step(desk, event);
    assert after.obligations == desk.obligations && after.collections == desk.collections && after.book == desk.book;
  }

  lemma StepCounts(desk: Desk, event: Event, obligation: nat)
    requires Inv(desk) && CollectedOnce(desk, obligation)
    ensures CollectedOnce(Step(desk, event), obligation)
  {
    if Step(desk, event) != desk {
      match event
      case Open(shipment, amount, currency) => OpenCounts(desk, shipment, amount, currency, obligation);
      case Collect(request) => CollectCounts(desk, request, obligation);
      case Accept(id, accepted, reason) => AcceptCounts(desk, id, accepted, reason, obligation);
      case Confirm(id) => ConfirmCounts(desk, id, obligation);
      case Approve(id, user) => ApproveCounts(desk, id, user, obligation);
      case Complete(id, reason) => CompleteCounts(desk, id, reason, obligation);
      case _ => PaperCounts(desk, event, obligation);
    }
  }

  /**
   * However many collection requests interleave their probes and their writes,
   * an obligation is banked once: it leaves EXPECTED with exactly one
   * collection row and exactly one COLLECTION journal.
   */
  lemma {:induction false} BankedOnce(currency: Currency, events: seq<Event>, obligation: nat)
    ensures CollectedOnce(Run(EmptyDesk(currency), events), obligation)
  {
    if events != [] {
      var n := |events| - 1;
      BankedOnce(currency, events[..n], obligation);
      RunKeeps(EmptyDesk(currency), events[..n]);
      StepCounts(Run(EmptyDesk(currency), events[..n]), events[n], obligation);
    }
  }

  lemma CollectionPersists(desk: Desk, event: Event, c: nat)
    requires c < |desk.collections|
    ensures c < |Step(desk, event).collections| && Step(desk, event).collections[c] == desk.collections[c]
  {
    match event
    case Collect(request) =>
    case _ =>
  }

  /** Collections are append-only. */
  lemma {:induction false} CollectionsPersist(desk: Desk, events: seq<Event>, c: nat)
    requires c < |desk.collections|
    ensures c < |Run(desk, events).collections| && Run(desk, events).collections[c] == desk.collections[c]
  {
    if events != [] {
      var n := |events| - 1;
      CollectionsPersist(desk, events[..n], c);
      CollectionPersists(Run(desk, events[..n]), events[n], c);
    }
  }

  /** Which collection answers a replay of row c: the attempt's own, when there is one, and otherwise c. */
  lemma ReplayFinds(desk: Desk, c: nat, req: CollectRequest)
    requires CollectionsValid(desk) && c < |desk.collections|
    requires SameAttempt(desk.collections[c], req.attempt) || SameDevice(desk.collections[c], req.device)
    ensures var found := Replay(desk, req);
            && found.Some? && found.value < |desk.collections|
            && (found == Some(c) <==> SameAttempt(desk.collections[c], req.attempt) || NoAttempt(desk, req.attempt))
            && (found != Some(c) ==> SameAttempt(desk.collections[found.value], req.attempt))
  {
    assert desk.collections[c] in desk.collections;
  }

  /** No collection carries the attempt, or none was given. */
  predicate NoAttempt(desk: Desk, attempt: Option<int>) {
    forall k :: 0 <= k < |desk.collections| ==> !SameAttempt(desk.collections[k], attempt)
  }

  /**
   * A replay of a banked attempt or device event, at any later time, is a
   * duplicate and changes nothing. It is answered with the collection that was
   * banked exactly when that collection is the attempt's own or no collection
   * is; otherwise with the attempt's own.
   */
  lemma ReplayAnswersTheSame(currency: Currency, events: seq<Event>, c: nat, later: seq<Event>, req: CollectRequest)
    requires c < |Run(EmptyDesk(currency), events).collections|
    requires req.amount > 0
    requires var row := Run(EmptyDesk(currency), events).collections[c];
             SameAttempt(row, req.attempt) || SameDevice(row, req.device)
    ensures var desk := Run(Run(EmptyDesk(currency), events), later);
            var answer := RecordCollection(desk, req);
            && c < |desk.collections| && desk.collections[c] == Run(EmptyDesk(currency), events).collections[c]
            && answer.Success? && answer.value.duplicate && answer.value.desk == desk
            && answer.value.collection < |desk.collections|
            && (answer.value.collection == c <==> SameAttempt(desk.collections[c], req.attempt) || NoAttempt(desk, req.attempt))
            && (answer.value.collection != c ==> SameAttempt(desk.collections[answer.value.collection], req.attempt))
  {
    var before := Run(EmptyDesk(currency), events);
    var desk := Run(before, later);
    RunKeeps(EmptyDesk(currency), events);
    RunKeeps(before, later);
    CollectionsPersist(before, later, c);
    ReplayFinds(desk, c, req);
  }

  // ----- Shortages ----------------------------------------------------------

  /**
   * A recorded shortage is reduced by nothing but an adjustment against that
   * party, approved by someone other than the person who asked for it.
   */
  lemma ShortageNeedsChecker(currency: Currency, events: seq<Event>, event: Event, party: Holder)
    requires Custodial(party.kind)
    ensures var desk := Run(EmptyDesk(currency), events);
            Shortage(Step(desk, event), party) < Shortage(desk, party) ==>
              && event.Approve?
              && event.adjustment < |desk.adjustments|
              && desk.adjustments[event.adjustment].requestedBy != event.user
              && desk.adjustments[event.adjustment].liableId == party.id
              && (party.kind.Franchise? || desk.adjustments[event.adjustment].liableKind == Some(party.kind))
              && (party.kind.Franchise? ==> desk.adjustments[event.adjustment].liableKind !in {Some(Agent), Some(Unit)})
  {
    var desk := Run(EmptyDesk(currency), events);
    RunLaw(currency, events, party);
    RunLaw(currency, events + [event], party);
    assert (events + [event])[..|events|] == events;
    if Shortage(Step(desk, event), party) < Shortage(desk, party) {
      ShortageFalls(desk, event, party);
    }
  }

  /** What a party is recorded as short of. */
  function Shortage(desk: Desk, party: Holder): int
    requires Custodial(party.kind)
  {
    Balance(desk.book, SubsidiaryFn(CodShortage, PartyOf(party)))
  }

  lemma ShortageFalls(desk: Desk, event: Event, party: Holder)
    requires Custodial(party.kind) && ShortageLaw(desk, party) && ShortageLaw(Step(desk, event), party)
    requires Shortage(Step(desk, event), party) < Shortage(desk, party)
    ensures event.Approve? && event.adjustment < |desk.adjustments|
    ensures desk.adjustments[event.adjustment].requestedBy != event.user
    ensures Names(desk.adjustments[event.adjustment], PartyOf(party))
  {
    if event.Approve? {
      ApproveElsewhere(desk, event.adjustment, event.user, PartyOf(party));
    } else {
      ShortageGrows(desk, event, party);
    }
  }

  /** An approval that commits is by a second person, and touches the liable party alone. */
  lemma ApproveElsewhere(desk: Desk, id: nat, user: int, party: Party)
    ensures var outcome := ApproveAdjustment(desk, id, user);
            outcome.Success? ==>
              && id < |desk.adjustments|
              && desk.adjustments[id].requestedBy != user
              && outcome.value.transfers == desk.transfers && outcome.value.counts == desk.counts
              && (!Names(desk.adjustments[id], party) ==>
                    && Sum(outcome.value.adjustments, ClearedFn(party)) == Sum(desk.adjustments, ClearedFn(party))
                    && Sum(outcome.value.adjustments, CorrectedFn(party)) == Sum(desk.adjustments, CorrectedFn(party)))
  {
    var outcome := ApproveAdjustment(desk, id, user);
    if outcome.Success? {
      SumUpdate(desk.adjustments, id, outcome.value.adjustments[id], ClearedFn(party));
      SumUpdate(desk.adjustments, id, outcome.value.adjustments[id], CorrectedFn(party));
    }
  }

  lemma ShortageGrows(desk: Desk, event: Event, party: Holder)
    requires Custodial(party.kind) && !event.Approve?
    ensures var after := Step(desk, event);
            && Sum(desk.transfers, GivenShortFn(party)) <= Sum(after.transfers, GivenShortFn(party))
            && Sum(desk.counts, CountShortFn(party)) <= Sum(after.counts, CountShortFn(party))
            && Sum(after.adjustments, ClearedFn(PartyOf(party))) == Sum(desk.adjustments, ClearedFn(PartyOf(party)))
            && Sum(after.adjustments, CorrectedFn(PartyOf(party))) == Sum(desk.adjustments, CorrectedFn(PartyOf(party)))
  {
    GivenGrows(desk, event, party);
    CountedGrows(desk, event, party);
    AdjustedStays(desk, event, PartyOf(party));
  }

  lemma GivenGrows(desk: Desk, event: Event, party: Holder)
    ensures Sum(desk.transfers, GivenShortFn(party)) <= Sum(Step(desk, event).transfers, GivenShortFn(party))
  {
    var after := Step(desk, event);
    if event.Accept? && after != desk {
      AcceptGrows(desk, event.transfer, event.accepted, event.reason, party);
    } else if event.Declare? && after != desk {
      DeclareGrows(desk, event.from, event.to, event.ids, party);
    }
  }

  lemma DeclareGrows(desk: Desk, from: Holder, to: Holder, ids: seq<nat>, party: Holder)
    requires DeclareTransfer(desk, from, to, ids).Success?
    ensures Sum(DeclareTransfer(desk, from, to, ids).value.transfers, GivenShortFn(party)) == Sum(desk.transfers, GivenShortFn(party))
  {
    var after := DeclareTransfer(desk, from, to, ids).value;
    SumAppend(desk.transfers, after.transfers[|desk.transfers|], GivenShortFn(party));
  }

  lemma CountedGrows(desk: Desk, event: Event, party: Holder)
    ensures Sum(desk.counts, CountShortFn(party)) <= Sum(Step(desk, event).counts, CountShortFn(party))
  {
    match event
    case Complete(id, reason) =>
      if CompleteReconciliation(desk, id, reason).Success? { CompleteGrows(desk, id, reason, party); }
    case OpenCount(counted, order) =>
      if ListsHeld(desk.obligations, counted, order) && OpenReconciliation(desk, counted, order).Success? { OpenCountGrows(desk, counted, order, party); }
    case RecordCount(count, line, counted) =>
      if CountWrite(desk, count, line, counted).Success? { RecordCountGrows(desk, count, line, counted, party); }
    case _ =>
  }

  lemma OpenCountGrows(desk: Desk, counted: Holder, order: seq<nat>, party: Holder)
    requires ListsHeld(desk.obligations, counted, order)
    requires OpenReconciliation(desk, counted, order).Success?
    ensures Sum(OpenReconciliation(desk, counted, order).value.counts, CountShortFn(party)) == Sum(desk.counts, CountShortFn(party))
  {
    var after := OpenReconciliation(desk, counted, order).value;
    SumAppend(desk.counts, after.counts[|desk.counts|], CountShortFn(party));
  }

  lemma RecordCountGrows(desk: Desk, count: nat, line: nat, counted: int, party: Holder)
    requires CountWrite(desk, count, line, counted).Success?
    ensures Sum(CountWrite(desk, count, line, counted).value.counts, CountShortFn(party)) == Sum(desk.counts, CountShortFn(party))
  {
    var after := CountWrite(desk, count, line, counted).value;
    SumUpdate(desk.counts, count, after.counts[count], CountShortFn(party));
  }

  lemma AdjustedStays(desk: Desk, event: Event, party: Party)
    requires !event.Approve?
    ensures Sum(Step(desk, event).adjustments, ClearedFn(party)) == Sum(desk.adjustments, ClearedFn(party))
    ensures Sum(Step(desk, event).adjustments, CorrectedFn(party)) == Sum(desk.adjustments, CorrectedFn(party))
  {
    var after := Step(desk, event);
    if event.Request? && after != desk {
      var row := after.adjustments[|desk.adjustments|];
      SumAppend(desk.adjustments, row, ClearedFn(party));
      SumAppend(desk.adjustments, row, CorrectedFn(party));
    }
  }

  lemma AcceptGrows(desk: Desk, id: nat, accepted: int, reason: string, party: Holder)
    requires AcceptTransfer(desk, id, accepted, reason).Success?
    ensures var after := AcceptTransfer(desk, id, accepted, reason).value;
            Sum(desk.transfers, GivenShortFn(party)) <= Sum(after.transfers, GivenShortFn(party))
  {
    var after := AcceptTransfer(desk, id, accepted, reason).value;
    SumUpdate(desk.transfers, id, after.transfers[id], GivenShortFn(party));
  }

  lemma CompleteGrows(desk: Desk, id: nat, reason: string, party: Holder)
    requires CompleteReconciliation(desk, id, reason).Success?
    ensures var after := CompleteReconciliation(desk, id, reason).value;
            Sum(desk.counts, CountShortFn(party)) <= Sum(after.counts, CountShortFn(party))
  {
    var after := CompleteReconciliation(desk, id, reason).value;
    SumNonNegative(desk.counts[id].items, ShortageFn());
    SumUpdate(desk.counts, id, after.counts[id], CountShortFn(party));
  }
}
