/**
 * The two views of COD agree: what the obligation rows say a party holds and
 * what the ledger says it owes differ by exactly the recorded variances, in
 * every run of every COD operation.
 */
module CodLaw {
  import opened Sums
  import opened Ledger
  import opened CodModel
  import opened CodInvariant

  // ----- The terms of the law, each a sum over document rows ------------------

  /** Cash last held by a party, whatever became of it since. */
  function EverHeldFn(party: Holder): Obligation -> int {
    (ob: Obligation) => if ob.lastHolder == Some(party) then ob.collected else 0
  }

  /** Cash that left a party's custody by being reconciled or remitted. */
  function ReleasedFn(party: Holder): Obligation -> int {
    (ob: Obligation) => if ob.lastHolder == Some(party) && ob.status in {Reconciled, Remitted} then ob.collected else 0
  }

  /** Shortfall on transfers a party accepted; negative for an over-count. */
  function TakenShortFn(party: Holder): Transfer -> int {
    (t: Transfer) => if t.status == Accepted && t.to == party then t.declared - t.accepted else 0
  }

  /** Shortfall charged to a party on transfers it gave. */
  function GivenShortFn(party: Holder): Transfer -> int {
    (t: Transfer) => if t.status == Accepted && t.from == party then Max(t.declared - t.accepted, 0) else 0
  }

  function BankedFn(party: Holder): RemittanceRow -> int {
    (r: RemittanceRow) => if r.status == Confirmed && r.beneficiary == ToHeadOffice && r.from == party then r.amount else 0
  }

  function CountShortFn(party: Holder): Count -> int {
    (c: Count) => if c.status != CountOpen && c.party == party then c.shortage else 0
  }

  function CountExcessFn(party: Holder): Count -> int {
    (c: Count) => if c.status != CountOpen && c.party == party then c.excess else 0
  }

  /** Whom the columns of an adjustment name: anything that is neither an agent nor a unit is a franchise. */
  predicate Names(a: Adjustment, party: Party) {
    && party.id == a.liableId
    && match party.kind
       case AgentParty => a.liableKind == Some(Agent)
       case UnitParty => a.liableKind == Some(Unit)
       case FranchiseParty => a.liableKind != Some(Agent) && a.liableKind != Some(Unit)
       case CustomerParty => false
  }

  predicate Clears(kind: AdjustmentKind) {
    kind in {ShortageRecovery, ShortageWriteOff, Waiver}
  }

  /** Shortage of a party cleared by an adjustment: a recovery, a write-off or a waiver. */
  function ClearedBy(a: Adjustment, party: Party): int {
    if Clears(a.kind) && Names(a, party) then Abs(a.amount) else 0
  }

  /** Shortage of a party moved by a correction, signed as requested. */
  function CorrectedBy(a: Adjustment, party: Party): int {
    if a.kind in {Correction, DisputeResolution} && Names(a, party) then a.amount else 0
  }

  function ClearedFn(party: Party): Adjustment -> int {
    (a: Adjustment) => if a.status == AdjustmentPosted then ClearedBy(a, party) else 0
  }

  function CorrectedFn(party: Party): Adjustment -> int {
    (a: Adjustment) => if a.status == AdjustmentPosted then CorrectedBy(a, party) else 0
  }

  function CollectedFn(): CollectionRow -> int {
    (c: CollectionRow) => c.amount
  }

  function ConsignorPaidFn(): RemittanceRow -> int {
    (r: RemittanceRow) => if r.status == Confirmed && r.beneficiary != ToHeadOffice then r.amount else 0
  }

  /** A party's COD receivable, over the three control accounts. */
  function ReceivableFn(party: Party): Leg -> int {
    (leg: Leg) =>
      if leg.party == Some(party) && leg.account in {CodReceivableAgent, CodReceivableBranch, CodReceivableFranchise}
      then Signed(leg) else 0
  }

  // ----- The laws -----------------------------------------------------------

  predicate ReceivableLaw(desk: Desk, party: Holder)
    requires Custodial(party.kind)
  {
    Sum(desk.obligations, EverHeldFn(party)) - Balance(desk.book, ReceivableFn(PartyOf(party)))
    == Sum(desk.transfers, TakenShortFn(party)) + Sum(desk.remittances, BankedFn(party))
       + Sum(desk.counts, CountShortFn(party)) - Sum(desk.counts, CountExcessFn(party))
       + Sum(desk.adjustments, CorrectedFn(PartyOf(party)))
  }

  predicate ShortageLaw(desk: Desk, party: Holder)
    requires Custodial(party.kind)
  {
    Balance(desk.book, SubsidiaryFn(CodShortage, PartyOf(party)))
    == Sum(desk.transfers, GivenShortFn(party)) + Sum(desk.counts, CountShortFn(party))
       - Sum(desk.adjustments, ClearedFn(PartyOf(party))) + Sum(desk.adjustments, CorrectedFn(PartyOf(party)))
  }

  /** The liability to the senders is opened by collections and closed only by paying them. */
  predicate ConsignorLaw(desk: Desk) {
    Balance(desk.book, AccountFn(CodPayableConsignor))
    == Sum(desk.collections, CollectedFn()) - Sum(desk.remittances, ConsignorPaidFn())
  }

  predicate Laws(desk: Desk, party: Holder)
    requires Custodial(party.kind)
  {
    ReceivableLaw(desk, party) && ShortageLaw(desk, party) && ConsignorLaw(desk)
  }

  // ----- One posting --------------------------------------------------------

  /** The three balances of the laws after a posting that is accepted under a fresh key. */
  lemma PostMoves(desk: Desk, posting: Posting, party: Party)
    requires JournalsValid(desk)
    requires !Documented(desk, posting.key)
    requires Post(desk.book, posting).Success?
    ensures var book := Post(desk.book, posting).value.book;
            && Balance(book, ReceivableFn(party)) == Balance(desk.book, ReceivableFn(party)) + Sum(posting.legs, ReceivableFn(party))
            && Balance(book, SubsidiaryFn(CodShortage, party))
               == Balance(desk.book, SubsidiaryFn(CodShortage, party)) + Sum(posting.legs, SubsidiaryFn(CodShortage, party))
            && Balance(book, AccountFn(CodPayableConsignor))
               == Balance(desk.book, AccountFn(CodPayableConsignor)) + Sum(posting.legs, AccountFn(CodPayableConsignor))
  {
    FreshKey(desk, posting.key);
    PostEffect(desk.book, posting, ReceivableFn(party));
    PostEffect(desk.book, posting, SubsidiaryFn(CodShortage, party));
    PostEffect(desk.book, posting, AccountFn(CodPayableConsignor));
  }

  // ----- Each operation -----------------------------------------------------

  lemma OpenLaw(desk: Desk, shipment: int, amount: int, currency: Currency, party: Holder)
    requires Custodial(party.kind) && Laws(desk, party)
    requires OpenObligation(desk, shipment, amount, currency).Success?
    ensures Laws(OpenObligation(desk, shipment, amount, currency).value, party)
  {
    var after := OpenObligation(desk, shipment, amount, currency).value;
    if after != desk {
      SumAppend(desk.obligations, after.obligations[|desk.obligations|], EverHeldFn(party));
    }
  }

  lemma CollectionLegEffect(amount: int, agent: int, party: Party)
    ensures var legs := CollectionLegs(amount, agent);
            && Sum(legs, ReceivableFn(party)) == (if party == Party(AgentParty, agent) then amount else 0)
            && Sum(legs, SubsidiaryFn(CodShortage, party)) == 0
            && Sum(legs, AccountFn(CodPayableConsignor)) == amount
  {
    var legs := CollectionLegs(amount, agent);
    Sum2(legs[0], legs[1], ReceivableFn(party));
    Sum2(legs[0], legs[1], SubsidiaryFn(CodShortage, party));
    Sum2(legs[0], legs[1], AccountFn(CodPayableConsignor));
  }

  /** The tables after a collection is banked: one row marked, one row added, one journal posted. */
  lemma CollectedTables(desk: Desk, req: CollectRequest)
    requires CollectWrite(desk, req).Success?
    ensures var id := FindByShipment(desk.obligations, req.shipment).value;
            var ob := desk.obligations[id];
            var posted := Post(desk.book, Posting(Key(FromCod, id, Collection), ob.currency, CollectionLegs(req.amount, req.agent)));
            && FindByShipment(desk.obligations, req.shipment).Some? && ob.status == Expected && posted.Success?
            && var row := CollectionRow(id, req.amount, req.agent, req.attempt, req.device, posted.value.journal);
               CollectWrite(desk, req).value
               == CollectedRow(desk.(obligations := desk.obligations[id := MarkCollected(ob, req.amount, req.agent)],
                                     collections := desk.collections + [row], book := posted.value.book),
                               |desk.collections|, false)
  {
  }

  lemma CollectedBook(desk: Desk, id: nat, req: CollectRequest, party: Holder)
    requires JournalsValid(desk) && Custodial(party.kind)
    requires id < |desk.obligations| && desk.obligations[id].status == Expected
    requires Post(desk.book, Posting(Key(FromCod, id, Collection), desk.obligations[id].currency, CollectionLegs(req.amount, req.agent))).Success?
    ensures var book := Post(desk.book, Posting(Key(FromCod, id, Collection), desk.obligations[id].currency, CollectionLegs(req.amount, req.agent))).value.book;
            && Balance(book, ReceivableFn(PartyOf(party)))
               == Balance(desk.book, ReceivableFn(PartyOf(party))) + (if party == Holder(Agent, req.agent) then req.amount else 0)
            && Balance(book, SubsidiaryFn(CodShortage, PartyOf(party))) == Balance(desk.book, SubsidiaryFn(CodShortage, PartyOf(party)))
            && Balance(book, AccountFn(CodPayableConsignor)) == Balance(desk.book, AccountFn(CodPayableConsignor)) + req.amount
  {
    PostMoves(desk, Posting(Key(FromCod, id, Collection), desk.obligations[id].currency, CollectionLegs(req.amount, req.agent)), PartyOf(party));
    CollectionLegEffect(req.amount, req.agent, PartyOf(party));
  }

  lemma CollectLaw(desk: Desk, req: CollectRequest, party: Holder)
    requires Inv(desk) && Custodial(party.kind) && Laws(desk, party)
    requires CollectWrite(desk, req).Success?
    ensures Laws(CollectWrite(desk, req).value.desk, party)
  {
    CollectedTables(desk, req);
    var after := CollectWrite(desk, req).value.desk;
    var id := FindByShipment(desk.obligations, req.shipment).value;
    CollectedBook(desk, id, req, party);
    assert ValidRow(desk.obligations[id]);
    SumUpdate(desk.obligations, id, MarkCollected(desk.obligations[id], req.amount, req.agent), EverHeldFn(party));
    SumAppend(desk.collections, after.collections[|desk.collections|], CollectedFn());
  }

  lemma DeclareLaw(desk: Desk, from: Holder, to: Holder, ids: seq<nat>, party: Holder)
    requires Custodial(party.kind) && Laws(desk, party)
    requires DeclareTransfer(desk, from, to, ids).Success?
    ensures Laws(DeclareTransfer(desk, from, to, ids).value, party)
  {
    var after := DeclareTransfer(desk, from, to, ids).value;
    SumAppend(desk.transfers, after.transfers[|desk.transfers|], TakenShortFn(party));
    SumAppend(desk.transfers, after.transfers[|desk.transfers|], GivenShortFn(party));
  }

  /** Moving custody carries the declared cash from the giver's view to the receiver's. */
  lemma {:induction false} MovedCash(obligations: seq<Obligation>, items: seq<Item>, from: Holder, to: Holder, party: Holder)
    requires Custodial(from.kind) && Custodial(to.kind) && from != to
    requires DistinctItems(items)
    requires Moved(obligations, items, from.kind, to).Some?
    requires forall k :: 0 <= k < |items| && items[k].obligation < |obligations| ==>
               && obligations[items[k].obligation].lastHolder == Some(from)
               && obligations[items[k].obligation].collected == items[k].amount
    ensures Sum(Moved(obligations, items, from.kind, to).value, EverHeldFn(party))
            == Sum(obligations, EverHeldFn(party))
               + (if party == to then Sum(items, AmountFn()) else 0)
               - (if party == from then Sum(items, AmountFn()) else 0)
  {
    if items != [] {
      var n := |items| - 1;
      MovedCash(obligations, items[..n], from, to, party);
      MovedRows(obligations, items[..n], from.kind, to);
      var earlier := Moved(obligations, items[..n], from.kind, to).value;
      var id := items[n].obligation;
      assert !Carries(items[..n], id);
      SumUpdate(earlier, id, MoveCustody(earlier[id], to), EverHeldFn(party));
    }
  }

  lemma TransferLegSums(transfer: Transfer, accepted: int, f: Leg -> int)
    requires Custodial(transfer.from.kind) && Custodial(transfer.to.kind)
    ensures var legs := TransferLegs(transfer, accepted);
            Sum(legs, f) == f(legs[0]) + f(legs[1]) + (if |legs| == 3 then f(legs[2]) else 0)
  {
    var legs := TransferLegs(transfer, accepted);
    if |legs| == 3 {
      Sum3(legs[0], legs[1], legs[2], f);
      assert legs == [legs[0], legs[1], legs[2]];
    } else {
      Sum2(legs[0], legs[1], f);
      assert legs == [legs[0], legs[1]];
    }
  }

  lemma TransferLegEffect(transfer: Transfer, accepted: int, party: Party)
    requires Custodial(transfer.from.kind) && Custodial(transfer.to.kind)
    ensures var legs := TransferLegs(transfer, accepted);
            && Sum(legs, ReceivableFn(party))
               == (if party == PartyOf(transfer.to) then accepted else 0) - (if party == PartyOf(transfer.from) then transfer.declared else 0)
            && Sum(legs, SubsidiaryFn(CodShortage, party))
               == (if party == PartyOf(transfer.from) then Max(transfer.declared - accepted, 0) else 0)
            && Sum(legs, AccountFn(CodPayableConsignor)) == 0
  {
    TransferLegSums(transfer, accepted, ReceivableFn(party));
    TransferLegSums(transfer, accepted, SubsidiaryFn(CodShortage, party));
    TransferLegSums(transfer, accepted, AccountFn(CodPayableConsignor));
  }

  lemma AcceptedCash(desk: Desk, id: nat, accepted: int, reason: string, party: Holder)
    requires Inv(desk)
    requires AcceptTransfer(desk, id, accepted, reason).Success?
    ensures var transfer := desk.transfers[id];
            && transfer.from != transfer.to
            && Sum(AcceptTransfer(desk, id, accepted, reason).value.obligations, EverHeldFn(party))
               == Sum(desk.obligations, EverHeldFn(party))
                  + (if party == transfer.to then transfer.declared else 0)
                  - (if party == transfer.from then transfer.declared else 0)
  {
    var transfer := desk.transfers[id];
    assert TransferValid(desk.obligations, transfer);
    MovedRows(desk.obligations, transfer.items, transfer.from.kind, transfer.to);
    forall k | 0 <= k < |transfer.items|
      ensures desk.obligations[transfer.items[k].obligation].lastHolder == Some(transfer.from)
      ensures desk.obligations[transfer.items[k].obligation].collected == transfer.items[k].amount
    {
      assert ValidRow(desk.obligations[transfer.items[k].obligation]);
      assert CarriedAsDeclared(desk.obligations[transfer.items[k].obligation], transfer.from, transfer.items[k].amount);
    }
    MovedCash(desk.obligations, transfer.items, transfer.from, transfer.to, party);
  }

  /** The tables after an acceptance, but for the rows that moved. */
  lemma AcceptedTables(desk: Desk, id: nat, accepted: int, reason: string)
    requires AcceptTransfer(desk, id, accepted, reason).Success?
    ensures id < |desk.transfers|
    ensures var after, t := AcceptTransfer(desk, id, accepted, reason).value, desk.transfers[id];
            && t.status == Declared && Custodial(t.from.kind) && Custodial(t.to.kind)
            && Post(desk.book, Posting(Key(FromCod, id, CustodyTransfer), t.currency, TransferLegs(t, accepted))).Success?
            && after == desk.(obligations := after.obligations,
                              transfers := desk.transfers[id := t.(status := Accepted, accepted := accepted)],
                              book := Post(desk.book, Posting(Key(FromCod, id, CustodyTransfer), t.currency, TransferLegs(t, accepted))).value.book)
  {
  }

  lemma AcceptedBook(desk: Desk, id: nat, accepted: int, party: Holder)
    requires JournalsValid(desk) && Custodial(party.kind)
    requires id < |desk.transfers| && desk.transfers[id].status == Declared
    requires Custodial(desk.transfers[id].from.kind) && Custodial(desk.transfers[id].to.kind)
    requires var t := desk.transfers[id];
             Post(desk.book, Posting(Key(FromCod, id, CustodyTransfer), t.currency, TransferLegs(t, accepted))).Success?
    ensures var t := desk.transfers[id];
            var book := Post(desk.book, Posting(Key(FromCod, id, CustodyTransfer), t.currency, TransferLegs(t, accepted))).value.book;
            && Balance(book, ReceivableFn(PartyOf(party)))
               == Balance(desk.book, ReceivableFn(PartyOf(party))) + (if t.to == party then accepted else 0) - (if t.from == party then t.declared else 0)
            && Balance(book, SubsidiaryFn(CodShortage, PartyOf(party)))
               == Balance(desk.book, SubsidiaryFn(CodShortage, PartyOf(party))) + (if t.from == party then Max(t.declared - accepted, 0) else 0)
            && Balance(book, AccountFn(CodPayableConsignor)) == Balance(desk.book, AccountFn(CodPayableConsignor))
  {
    var t := desk.transfers[id];
    PostMoves(desk, Posting(Key(FromCod, id, CustodyTransfer), t.currency, TransferLegs(t, accepted)), PartyOf(party));
    TransferLegEffect(t, accepted, PartyOf(party));
  }

  /** An acceptance changes the two sums over transfers by its own row. */
  lemma AcceptedRow(transfers: seq<Transfer>, id: nat, accepted: int, party: Holder)
    requires id < |transfers| && transfers[id].status == Declared
    ensures var t := transfers[id];
            var after := transfers[id := t.(status := Accepted, accepted := accepted)];
            && Sum(after, TakenShortFn(party)) == Sum(transfers, TakenShortFn(party)) + (if t.to == party then t.declared - accepted else 0)
            && Sum(after, GivenShortFn(party)) == Sum(transfers, GivenShortFn(party)) + (if t.from == party then Max(t.declared - accepted, 0) else 0)
  {
    var row := transfers[id].(status := Accepted, accepted := accepted);
    SumUpdate(transfers, id, row, TakenShortFn(party));
    SumUpdate(transfers, id, row, GivenShortFn(party));
  }

  lemma AcceptLaw(desk: Desk, id: nat, accepted: int, reason: string, party: Holder)
    requires Inv(desk) && Custodial(party.kind) && Laws(desk, party)
    requires AcceptTransfer(desk, id, accepted, reason).Success?
    ensures Laws(AcceptTransfer(desk, id, accepted, reason).value, party)
  {
    AcceptedTables(desk, id, accepted, reason);
    AcceptedCash(desk, id, accepted, reason, party);
    AcceptedLaw(desk, AcceptTransfer(desk, id, accepted, reason).value, id, accepted, party);
  }

  lemma AcceptedLaw(desk: Desk, after: Desk, id: nat, accepted: int, party: Holder)
    requires JournalsValid(desk) && Custodial(party.kind) && Laws(desk, party)
    requires id < |desk.transfers| && desk.transfers[id].status == Declared
    requires Custodial(desk.transfers[id].from.kind) && Custodial(desk.transfers[id].to.kind) && desk.transfers[id].from != desk.transfers[id].to
    requires var t := desk.transfers[id];
             var posted := Post(desk.book, Posting(Key(FromCod, id, CustodyTransfer), t.currency, TransferLegs(t, accepted)));
             && posted.Success?
             && after == desk.(obligations := after.obligations, transfers := desk.transfers[id := t.(status := Accepted, accepted := accepted)],
                               book := posted.value.book)
             && Sum(after.obligations, EverHeldFn(party))
                == Sum(desk.obligations, EverHeldFn(party)) + (if party == t.to then t.declared else 0) - (if party == t.from then t.declared else 0)
    ensures Laws(after, party)
  {
    AcceptedBook(desk, id, accepted, party);
    AcceptedRow(desk.transfers, id, accepted, party);
  }

  lemma RemitLaw(desk: Desk, from: Holder, beneficiary: Beneficiary, ids: seq<nat>, party: Holder)
    requires Custodial(party.kind) && Laws(desk, party)
    requires CreateRemittance(desk, from, beneficiary, ids).Success?
    ensures Laws(CreateRemittance(desk, from, beneficiary, ids).value, party)
  {
    var after := CreateRemittance(desk, from, beneficiary, ids).value;
    SumAppend(desk.remittances, after.remittances[|desk.remittances|], BankedFn(party));
    SumAppend(desk.remittances, after.remittances[|desk.remittances|], ConsignorPaidFn());
  }

  lemma RemittanceLegEffect(row: RemittanceRow, party: Party)
    requires Custodial(row.from.kind)
    ensures var legs := RemittanceLegs(row);
            && Sum(legs, ReceivableFn(party))
               == (if row.beneficiary == ToHeadOffice && party == PartyOf(row.from) then -row.amount else 0)
            && Sum(legs, SubsidiaryFn(CodShortage, party)) == 0
            && Sum(legs, AccountFn(CodPayableConsignor)) == (if row.beneficiary != ToHeadOffice then -row.amount else 0)
  {
    var legs := RemittanceLegs(row);
    Sum2(legs[0], legs[1], ReceivableFn(party));
    Sum2(legs[0], legs[1], SubsidiaryFn(CodShortage, party));
    Sum2(legs[0], legs[1], AccountFn(CodPayableConsignor));
  }

  /** A confirmation closes the rows of its items, marks one remittance and posts its journal. */
  lemma ConfirmedTables(desk: Desk, id: nat)
    requires ConfirmRemittance(desk, id).Success?
    ensures id < |desk.remittances| && desk.remittances[id].status == Initiated && Custodial(desk.remittances[id].from.kind)
    ensures var row := desk.remittances[id];
            var posted := Post(desk.book, Posting(Key(FromCod, id, Remittance), row.currency, RemittanceLegs(row)));
            && posted.Success?
            && ConfirmRemittance(desk, id).value
               == desk.(obligations := MarkAllRemitted(desk.obligations, row.items),
                        remittances := desk.remittances[id := row.(status := Confirmed)], book := posted.value.book)
  {
  }

  lemma ConfirmLaw(desk: Desk, id: nat, party: Holder)
    requires Inv(desk) && Custodial(party.kind) && Laws(desk, party)
    requires ConfirmRemittance(desk, id).Success?
    ensures Laws(ConfirmRemittance(desk, id).value, party)
  {
    ConfirmedTables(desk, id);
    var after := ConfirmRemittance(desk, id).value;
    RemittedRows(desk.obligations, desk.remittances[id].items);
    SumPointwise(desk.obligations, after.obligations, EverHeldFn(party), EverHeldFn(party));
    ConfirmedLaw(desk, after, id, party);
  }

  lemma ConfirmedBook(desk: Desk, id: nat, party: Holder)
    requires JournalsValid(desk) && Custodial(party.kind)
    requires id < |desk.remittances| && desk.remittances[id].status == Initiated && Custodial(desk.remittances[id].from.kind)
    requires var row := desk.remittances[id]; Post(desk.book, Posting(Key(FromCod, id, Remittance), row.currency, RemittanceLegs(row))).Success?
    ensures var row := desk.remittances[id];
            var book := Post(desk.book, Posting(Key(FromCod, id, Remittance), row.currency, RemittanceLegs(row))).value.book;
            && Balance(book, ReceivableFn(PartyOf(party)))
               == Balance(desk.book, ReceivableFn(PartyOf(party))) - (if row.beneficiary == ToHeadOffice && row.from == party then row.amount else 0)
            && Balance(book, SubsidiaryFn(CodShortage, PartyOf(party))) == Balance(desk.book, SubsidiaryFn(CodShortage, PartyOf(party)))
            && Balance(book, AccountFn(CodPayableConsignor))
               == Balance(desk.book, AccountFn(CodPayableConsignor)) - (if row.beneficiary != ToHeadOffice then row.amount else 0)
  {
    var row := desk.remittances[id];
    PostMoves(desk, Posting(Key(FromCod, id, Remittance), row.currency, RemittanceLegs(row)), PartyOf(party));
    RemittanceLegEffect(row, PartyOf(party));
  }

  lemma ConfirmedLaw(desk: Desk, after: Desk, id: nat, party: Holder)
    requires JournalsValid(desk) && Custodial(party.kind) && Laws(desk, party)
    requires id < |desk.remittances| && desk.remittances[id].status == Initiated && Custodial(desk.remittances[id].from.kind)
    requires var row := desk.remittances[id];
             var posted := Post(desk.book, Posting(Key(FromCod, id, Remittance), row.currency, RemittanceLegs(row)));
             && posted.Success?
             && after == desk.(obligations := after.obligations, remittances := desk.remittances[id := row.(status := Confirmed)],
                               book := posted.value.book)
             && Sum(after.obligations, EverHeldFn(party)) == Sum(desk.obligations, EverHeldFn(party))
    ensures Laws(after, party)
  {
    ConfirmedBook(desk, id, party);
    SumUpdate(desk.remittances, id, after.remittances[id], BankedFn(party));
    SumUpdate(desk.remittances, id, after.remittances[id], ConsignorPaidFn());
  }

  lemma RequestLaw(
    desk: Desk, obligation: Option<nat>, kind: AdjustmentKind, amount: int,
    liableKind: Option<HolderKind>, liableId: int, reason: string, user: int, party: Holder)
    requires Custodial(party.kind) && Laws(desk, party)
    requires RequestAdjustment(desk, obligation, kind, amount, liableKind, liableId, reason, user).Success?
    ensures Laws(RequestAdjustment(desk, obligation, kind, amount, liableKind, liableId, reason, user).value, party)
  {
    var after := RequestAdjustment(desk, obligation, kind, amount, liableKind, liableId, reason, user).value;
    SumAppend(desk.adjustments, after.adjustments[|desk.adjustments|], ClearedFn(PartyOf(party)));
    SumAppend(desk.adjustments, after.adjustments[|desk.adjustments|], CorrectedFn(PartyOf(party)));
  }

  lemma LiableIsNamed(a: Adjustment, party: Party)
    ensures LiableParty(a) == party <==> Names(a, party)
  {
  }

  lemma AdjustmentReceivable(a: Adjustment, party: Party)
    requires a.amount != 0
    ensures Sum(AdjustmentLegs(a), ReceivableFn(party)) == -CorrectedBy(a, party)
  {
    LiableIsNamed(a, party);
    var legs := AdjustmentLegs(a);
    Sum2(legs[0], legs[1], ReceivableFn(party));
  }

  lemma AdjustmentShortage(a: Adjustment, party: Party)
    requires a.amount != 0
    ensures Sum(AdjustmentLegs(a), SubsidiaryFn(CodShortage, party)) == CorrectedBy(a, party) - ClearedBy(a, party)
  {
    LiableIsNamed(a, party);
    var legs := AdjustmentLegs(a);
    Sum2(legs[0], legs[1], SubsidiaryFn(CodShortage, party));
  }

  lemma AdjustmentLegEffect(a: Adjustment, party: Party)
    requires a.amount != 0
    ensures var legs := AdjustmentLegs(a);
            && Sum(legs, ReceivableFn(party)) == -CorrectedBy(a, party)
            && Sum(legs, SubsidiaryFn(CodShortage, party)) == CorrectedBy(a, party) - ClearedBy(a, party)
            && Sum(legs, AccountFn(CodPayableConsignor)) == 0
  {
    AdjustmentReceivable(a, party);
    AdjustmentShortage(a, party);
    var legs := AdjustmentLegs(a);
    Sum2(legs[0], legs[1], AccountFn(CodPayableConsignor));
  }

  /** An approval changes one row and posts its journal. */
  lemma ApprovedTables(desk: Desk, id: nat, user: int)
    requires ApproveAdjustment(desk, id, user).Success?
    ensures id < |desk.adjustments| && desk.adjustments[id].status == PendingApproval
    ensures var a := desk.adjustments[id];
            var posted := Post(desk.book, Posting(Key(FromAdjustment, id, CodAdjustment), a.currency, AdjustmentLegs(a)));
            && posted.Success?
            && ApproveAdjustment(desk, id, user).value
               == desk.(adjustments := desk.adjustments[id := a.(status := AdjustmentPosted, approvedBy := Some(user))], book := posted.value.book)
  {
  }

  lemma ApproveLaw(desk: Desk, id: nat, user: int, party: Holder)
    requires Inv(desk) && Custodial(party.kind) && Laws(desk, party)
    requires ApproveAdjustment(desk, id, user).Success?
    ensures Laws(ApproveAdjustment(desk, id, user).value, party)
  {
    ApprovedTables(desk, id, user);
    var a := desk.adjustments[id];
    assert AdjustmentValid(a);
    ApprovedLaw(desk, id, a.(status := AdjustmentPosted, approvedBy := Some(user)), ApproveAdjustment(desk, id, user).value.book, party);
  }

  /** Approval changes none of the columns the law reads. */
  lemma ApprovalKeepsColumns(a: Adjustment, row: Adjustment, party: Party)
    requires row == a.(status := AdjustmentPosted, approvedBy := row.approvedBy)
    ensures ClearedBy(row, party) == ClearedBy(a, party) && CorrectedBy(row, party) == CorrectedBy(a, party)
  {
  }

  lemma ApprovedLaw(desk: Desk, id: nat, row: Adjustment, book: Book, party: Holder)
    requires JournalsValid(desk) && Custodial(party.kind) && Laws(desk, party)
    requires id < |desk.adjustments| && desk.adjustments[id].status == PendingApproval && desk.adjustments[id].amount != 0
    requires row == desk.adjustments[id].(status := AdjustmentPosted, approvedBy := row.approvedBy)
    requires var a := desk.adjustments[id];
             var posted := Post(desk.book, Posting(Key(FromAdjustment, id, CodAdjustment), a.currency, AdjustmentLegs(a)));
             posted.Success? && book == posted.value.book
    ensures Laws(desk.(adjustments := desk.adjustments[id := row], book := book), party)
  {
    var a := desk.adjustments[id];
    PostMoves(desk, Posting(Key(FromAdjustment, id, CodAdjustment), a.currency, AdjustmentLegs(a)), PartyOf(party));
    AdjustmentLegEffect(a, PartyOf(party));
    ApprovalKeepsColumns(a, row, PartyOf(party));
    SumUpdate(desk.adjustments, id, row, ClearedFn(PartyOf(party)));
    SumUpdate(desk.adjustments, id, row, CorrectedFn(PartyOf(party)));
  }

  lemma OpenCountLaw(desk: Desk, counted: Holder, order: seq<nat>, party: Holder)
    requires Custodial(party.kind) && Laws(desk, party)
    requires ListsHeld(desk.obligations, counted, order)
    requires OpenReconciliation(desk, counted, order).Success?
    ensures Laws(OpenReconciliation(desk, counted, order).value, party)
  {
    var after := OpenReconciliation(desk, counted, order).value;
    SumAppend(desk.counts, after.counts[|desk.counts|], CountShortFn(party));
    SumAppend(desk.counts, after.counts[|desk.counts|], CountExcessFn(party));
  }

  lemma RecordCountLaw(desk: Desk, count: nat, obligation: nat, counted: int, party: Holder)
    requires Custodial(party.kind) && Laws(desk, party)
    requires CountWrite(desk, count, obligation, counted).Success?
    ensures Laws(CountWrite(desk, count, obligation, counted).value, party)
  {
    var after := CountWrite(desk, count, obligation, counted).value;
    SumUpdate(desk.counts, count, after.counts[count], CountShortFn(party));
    SumUpdate(desk.counts, count, after.counts[count], CountExcessFn(party));
  }

  lemma CountLegSums(party: Holder, shortage: int, excess: int, f: Leg -> int)
    requires Custodial(party.kind)
    ensures var account := ReceivableAccountFor(party.kind);
            Sum(CountLegs(party, shortage, excess), f)
            == (if shortage > 0
                then f(DrParty(CodShortage, shortage, PartyOf(party))) + f(CrParty(account, shortage, PartyOf(party))) else 0)
               + (if excess > 0 then f(DrParty(account, excess, PartyOf(party))) + f(Cr(CodExcessPayable, excess)) else 0)
  {
    var account := ReceivableAccountFor(party.kind);
    var short := [DrParty(CodShortage, shortage, PartyOf(party)), CrParty(account, shortage, PartyOf(party))];
    var over := [DrParty(account, excess, PartyOf(party)), Cr(CodExcessPayable, excess)];
    Sum2(short[0], short[1], f);
    Sum2(over[0], over[1], f);
    SumConcat(if shortage > 0 then short else [], if excess > 0 then over else [], f);
  }

  lemma CountLegEffect(counted: Holder, shortage: int, excess: int, party: Party)
    requires Custodial(counted.kind) && shortage >= 0 && excess >= 0
    ensures var legs := CountLegs(counted, shortage, excess);
            && Sum(legs, ReceivableFn(party)) == (if party == PartyOf(counted) then excess - shortage else 0)
            && Sum(legs, SubsidiaryFn(CodShortage, party)) == (if party == PartyOf(counted) then shortage else 0)
            && Sum(legs, AccountFn(CodPayableConsignor)) == 0
  {
    CountLegSums(counted, shortage, excess, ReceivableFn(party));
    CountLegSums(counted, shortage, excess, SubsidiaryFn(CodShortage, party));
    CountLegSums(counted, shortage, excess, AccountFn(CodPayableConsignor));
  }

  /** Completing a count posts its variance, when it found one. */
  lemma CompletedPosting(desk: Desk, id: nat, reason: string)
    requires CompleteReconciliation(desk, id, reason).Success?
    ensures id < |desk.counts| && desk.counts[id].status == CountOpen
    ensures var c := desk.counts[id];
            var shortage, excess := Sum(c.items, ShortageFn()), Sum(c.items, ExcessFn());
            var book := CompleteReconciliation(desk, id, reason).value.book;
            && shortage >= 0 && excess >= 0
            && if shortage == 0 && excess == 0 then book == desk.book
               else
                 && Custodial(c.party.kind)
                 && var posted := Post(desk.book, Posting(Key(FromCod, id, Reconciliation), c.currency, CountLegs(c.party, shortage, excess)));
                    posted.Success? && book == posted.value.book
  {
    SumNonNegative(desk.counts[id].items, ShortageFn());
    SumNonNegative(desk.counts[id].items, ExcessFn());
  }

  /** Completing a count moves the balances by the variance it found, or not at all. */
  lemma CompletedBook(desk: Desk, id: nat, book: Book, shortage: int, excess: int, party: Holder)
    requires JournalsValid(desk) && Custodial(party.kind)
    requires id < |desk.counts| && desk.counts[id].status == CountOpen && shortage >= 0 && excess >= 0
    requires var c := desk.counts[id];
             if shortage == 0 && excess == 0 then book == desk.book
             else
               && Custodial(c.party.kind)
               && var posted := Post(desk.book, Posting(Key(FromCod, id, Reconciliation), c.currency, CountLegs(c.party, shortage, excess)));
                  posted.Success? && book == posted.value.book
    ensures var c := desk.counts[id];
            && Balance(book, ReceivableFn(PartyOf(party)))
               == Balance(desk.book, ReceivableFn(PartyOf(party))) + (if c.party == party then excess - shortage else 0)
            && Balance(book, SubsidiaryFn(CodShortage, PartyOf(party)))
               == Balance(desk.book, SubsidiaryFn(CodShortage, PartyOf(party))) + (if c.party == party then shortage else 0)
            && Balance(book, AccountFn(CodPayableConsignor)) == Balance(desk.book, AccountFn(CodPayableConsignor))
  {
    var c := desk.counts[id];
    if shortage != 0 || excess != 0 {
      PostMoves(desk, Posting(Key(FromCod, id, Reconciliation), c.currency, CountLegs(c.party, shortage, excess)), PartyOf(party));
      CountLegEffect(c.party, shortage, excess, PartyOf(party));
    }
  }

  /** Counting moves no cash, and closes one header. */
  lemma CompletedTables(desk: Desk, id: nat, reason: string, party: Holder)
    requires RowsValid(desk.obligations) && CompleteReconciliation(desk, id, reason).Success?
    ensures id < |desk.counts| && desk.counts[id].status == CountOpen
    ensures var after, c := CompleteReconciliation(desk, id, reason).value, desk.counts[id];
            && Sum(after.obligations, EverHeldFn(party)) == Sum(desk.obligations, EverHeldFn(party))
            && after == desk.(obligations := after.obligations, counts := after.counts, book := after.book)
            && (exists status :: status != CountOpen
                 && after.counts == desk.counts[id := c.(status := status, shortage := Sum(c.items, ShortageFn()), excess := Sum(c.items, ExcessFn()))])
  {
    var after, c := CompleteReconciliation(desk, id, reason).value, desk.counts[id];
    ReconciledRows(desk.obligations, c.items);
    SumPointwise(desk.obligations, after.obligations, EverHeldFn(party), EverHeldFn(party));
    var shortage, excess := Sum(c.items, ShortageFn()), Sum(c.items, ExcessFn());
    var status := if shortage != 0 || excess != 0 then CountCompletedWithVariance else CountCompleted;
    assert after.counts == desk.counts[id := c.(status := status, shortage := shortage, excess := excess)];
  }

  lemma CompleteLaw(desk: Desk, id: nat, reason: string, party: Holder)
    requires Inv(desk) && Custodial(party.kind) && Laws(desk, party)
    requires CompleteReconciliation(desk, id, reason).Success?
    ensures Laws(CompleteReconciliation(desk, id, reason).value, party)
  {
    CompletedTables(desk, id, reason, party);
    CompletedPosting(desk, id, reason);
    var after, c := CompleteReconciliation(desk, id, reason).value, desk.counts[id];
    CompletedBook(desk, id, after.book, Sum(c.items, ShortageFn()), Sum(c.items, ExcessFn()), party);
    SumUpdate(desk.counts, id, after.counts[id], CountShortFn(party));
    SumUpdate(desk.counts, id, after.counts[id], CountExcessFn(party));
  }

  // ----- Every run ----------------------------------------------------------

  /** Opening an obligation and writing papers post nothing. */
  lemma PaperLaw(desk: Desk, event: Event, party: Holder)
    requires Custodial(party.kind) && Laws(desk, party)
    requires event.Open? || event.Declare? || event.Remit? || event.Request? || event.OpenCount? || event.RecordCount?
    ensures Laws(Step(desk, event), party)
  {
    if Step(desk, event) != desk {
      match event
      case Open(shipment, amount, currency) => OpenLaw(desk, shipment, amount, currency, party);
      case Declare(from, to, ids) => DeclareLaw(desk, from, to, ids, party);
      case Remit(from, beneficiary, ids) => RemitLaw(desk, from, beneficiary, ids, party);
      case Request(obligation, kind, amount, liableKind, liableId, reason, user) =>
        RequestLaw(desk, obligation, kind, amount, liableKind, liableId, reason, user, party);
      case OpenCount(counted, order) => OpenCountLaw(desk, counted, order, party);
      case RecordCount(count, obligation, counted) => RecordCountLaw(desk, count, obligation, counted, party);
    }
  }

  lemma StepLaw(desk: Desk, event: Event, party: Holder)
    requires Inv(desk) && Custodial(party.kind) && Laws(desk, party)
    ensures Laws(Step(desk, event), party)
  {
    if Step(desk, event) != desk {
      match event
      case Collect(request) => CollectLaw(desk, request, party);
      case Accept(transfer, accepted, reason) => AcceptLaw(desk, transfer, accepted, reason, party);
      case Confirm(remittance) => ConfirmLaw(desk, remittance, party);
      case Approve(adjustment, user) => ApproveLaw(desk, adjustment, user, party);
      case Complete(count, reason) => CompleteLaw(desk, count, reason, party);
      case _ => PaperLaw(desk, event, party);
    }
  }

  /** In every run of every COD operation, for every party. */
  lemma {:induction false} RunLaw(currency: Currency, events: seq<Event>, party: Holder)
    requires Custodial(party.kind)
    ensures Inv(Run(EmptyDesk(currency), events))
    ensures Laws(Run(EmptyDesk(currency), events), party)
  {
    RunKeeps(EmptyDesk(currency), events);
    if events != [] {
      var n := |events| - 1;
      RunLaw(currency, events[..n], party);
      StepLaw(Run(EmptyDesk(currency), events[..n]), events[n], party);
    }
  }
}
