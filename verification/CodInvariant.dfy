/** What every COD transaction keeps about the rows it writes. */
module CodInvariant {
  import opened Sums
  import opened Ledger
  import opened CodModel

  // ----- The invariant ------------------------------------------------------

  predicate ValidRow(ob: Obligation) {
    match ob.status
    case Expected =>
      ob.custodian.None? && ob.lastHolder.None? && ob.collected == 0 && ob.remitted == 0
    case AgentCollected | BranchReceived | FranchiseConfirmed =>
      && ob.custodian.Some? && ob.lastHolder == ob.custodian
      && Custodial(ob.custodian.value.kind) && StatusForCustodian(ob.custodian.value.kind) == ob.status
      && ob.collected > 0 && ob.remitted == 0
    case Reconciled =>
      ob.custodian.Some? && ob.lastHolder == ob.custodian && ob.collected > 0 && ob.remitted == 0
    case Remitted =>
      ob.custodian.None? && ob.lastHolder.Some? && ob.collected > 0
    case _ => false
  }

  ghost predicate RowsValid(obligations: seq<Obligation>) {
    && (forall i :: 0 <= i < |obligations| ==> ValidRow(obligations[i]))
    && (forall i, j :: 0 <= i < j < |obligations| ==> obligations[i].shipment != obligations[j].shipment)
  }

  predicate DistinctItems(items: seq<Item>) {
    forall k, l :: 0 <= k < l < |items| ==> items[k].obligation != items[l].obligation
  }

  /** While a transfer is open, whatever it carries and is still with the giver is carried at its full amount. */
  predicate CarriedAsDeclared(ob: Obligation, from: Holder, amount: int) {
    Custodial(from.kind) && (ob.status == StatusForCustodian(from.kind) ==> ob.custodian == Some(from) && ob.collected == amount)
  }

  predicate TransferValid(obligations: seq<Obligation>, transfer: Transfer) {
    && Custodial(transfer.from.kind)
    && transfer.from != transfer.to
    && transfer.declared == Sum(transfer.items, AmountFn())
    && transfer.declared > 0
    && DistinctItems(transfer.items)
    && (forall k :: 0 <= k < |transfer.items| ==>
          && transfer.items[k].obligation < |obligations|
          && obligations[transfer.items[k].obligation].status != Expected)
    && (transfer.status == Accepted ==> Custodial(transfer.to.kind))
    && (transfer.status == Declared ==>
          forall k :: 0 <= k < |transfer.items| ==>
            CarriedAsDeclared(obligations[transfer.items[k].obligation], transfer.from, transfer.items[k].amount))
  }

  ghost predicate TransfersValid(obligations: seq<Obligation>, transfers: seq<Transfer>) {
    && (forall t :: 0 <= t < |transfers| ==> TransferValid(obligations, transfers[t]))
    && (forall t, u, i :: 0 <= t < u < |transfers| && Carries(transfers[t].items, i) ==> !Carries(transfers[u].items, i))
  }

  /**
   * Which parties an account is kept for. An agent's cash is receivable on one
   * account, a unit's on another, a franchise's on the third; only an adjustment
   * books another kind of party on that one.
   */
  predicate LegFits(leg: Leg, purpose: Purpose) {
    leg.party.Some? ==>
      match leg.account
      case CodReceivableAgent => leg.party.value.kind == AgentParty
      case CodReceivableBranch => leg.party.value.kind == UnitParty
      case CodReceivableFranchise => leg.party.value.kind == FranchiseParty || purpose == CodAdjustment
      case CodShortage => leg.party.value.kind != CustomerParty
      case _ => false
  }

  /** The document behind a journal has reached the state that posts it. */
  predicate Documented(desk: Desk, key: Key) {
    match key.purpose
    case Collection => key.source == FromCod && key.id < |desk.obligations| && desk.obligations[key.id].status != Expected
    case CustodyTransfer => key.source == FromCod && key.id < |desk.transfers| && desk.transfers[key.id].status == Accepted
    case Remittance => key.source == FromCod && key.id < |desk.remittances| && desk.remittances[key.id].status == Confirmed
    case Reconciliation => key.source == FromCod && key.id < |desk.counts| && desk.counts[key.id].status != CountOpen
    case CodAdjustment => key.source == FromAdjustment && key.id < |desk.adjustments| && desk.adjustments[key.id].status == AdjustmentPosted
    case _ => false
  }

  ghost predicate JournalsValid(desk: Desk) {
    && Sound(desk.book)
    && (forall j :: 0 <= j < |desk.book.journals| ==> Documented(desk, desk.book.journals[j].key))
    && (forall j, l :: 0 <= j < |desk.book.journals| && 0 <= l < |desk.book.journals[j].legs| ==>
                         LegFits(desk.book.journals[j].legs[l], desk.book.journals[j].key.purpose))
  }

  ghost predicate CollectionsValid(desk: Desk) {
    && (forall c :: 0 <= c < |desk.collections| ==>
          && desk.collections[c].obligation < |desk.obligations|
          && desk.obligations[desk.collections[c].obligation].status != Expected
          && desk.obligations[desk.collections[c].obligation].collected == desk.collections[c].amount)
    && (forall c, d :: 0 <= c < d < |desk.collections| ==>
          && !SameAttempt(desk.collections[c], desk.collections[d].attempt)
          && !SameDevice(desk.collections[c], desk.collections[d].device))
  }

  predicate AdjustmentValid(a: Adjustment) {
    && a.amount != 0
    && (if a.status == AdjustmentPosted then a.approvedBy.Some? && a.approvedBy.value != a.requestedBy else a.approvedBy.None?)
  }

  ghost predicate AdjustmentsValid(adjustments: seq<Adjustment>) {
    forall a :: 0 <= a < |adjustments| ==> AdjustmentValid(adjustments[a])
  }

  /** A remittance names each of its obligations once, and comes to something. */
  predicate RemittanceValid(row: RemittanceRow, limit: nat) {
    && Custodial(row.from.kind)
    && row.amount > 0
    && DistinctItems(row.items)
    && forall k :: 0 <= k < |row.items| ==> row.items[k].obligation < limit
  }

  predicate DistinctLines(items: seq<CountItem>) {
    forall k, l :: 0 <= k < l < |items| ==> items[k].obligation != items[l].obligation
  }

  /** A count has one line per obligation, and a line is MISSING exactly when nothing was counted. */
  predicate CountValid(c: Count, limit: nat) {
    && Custodial(c.party.kind)
    && DistinctLines(c.items)
    && forall k :: 0 <= k < |c.items| ==> c.items[k].obligation < limit && (c.items[k].outcome == Missing <==> c.items[k].counted == 0)
  }

  ghost predicate PapersValid(desk: Desk) {
    && (forall r :: 0 <= r < |desk.remittances| ==> RemittanceValid(desk.remittances[r], |desk.obligations|))
    && (forall c :: 0 <= c < |desk.counts| ==> CountValid(desk.counts[c], |desk.obligations|))
  }

  ghost predicate Inv(desk: Desk) {
    && RowsValid(desk.obligations)
    && TransfersValid(desk.obligations, desk.transfers)
    && JournalsValid(desk)
    && CollectionsValid(desk)
    && AdjustmentsValid(desk.adjustments)
    && PapersValid(desk)
  }

  // ----- Helpers ------------------------------------------------------------

  /** What may happen to a row without disturbing the transfers and journals that mention it. */
  predicate RowAdvances(before: Obligation, after: Obligation) {
    && after.shipment == before.shipment
    && (before.status != Expected ==> after.status != Expected && after.collected == before.collected)
    && (InCustody(after.status) ==> after == before)
  }

  lemma FreshKey(desk: Desk, key: Key)
    requires JournalsValid(desk)
    requires !Documented(desk, key)
    ensures Find(desk.book.journals, key).None?
  {
  }

  /** Posting under a fresh key leaves the journals valid, given that the document has advanced. */
  lemma PostKeepsJournals(desk: Desk, posting: Posting, after: Desk)
    requires JournalsValid(desk)
    requires Find(desk.book.journals, posting.key).None?
    requires Post(desk.book, posting).Success?
    requires after.book == Post(desk.book, posting).value.book
    requires forall key :: Documented(desk, key) ==> Documented(after, key)
    requires Documented(after, posting.key)
    requires forall l :: 0 <= l < |posting.legs| ==> LegFits(posting.legs[l], posting.key.purpose)
    ensures JournalsValid(after)
  {
    PostEffect(desk.book, posting, NetFn());
    JournalAppended(desk, Journal(posting.key, posting.currency, posting.legs, false), after);
  }

  lemma JournalAppended(desk: Desk, journal: Journal, after: Desk)
    requires JournalsValid(desk)
    requires after.book.journals == desk.book.journals + [journal] && Sound(after.book)
    requires forall key :: Documented(desk, key) ==> Documented(after, key)
    requires Documented(after, journal.key)
    requires forall l :: 0 <= l < |journal.legs| ==> LegFits(journal.legs[l], journal.key.purpose)
    ensures JournalsValid(after)
  {
    forall j | 0 <= j < |after.book.journals|
      ensures Documented(after, after.book.journals[j].key)
      ensures forall l :: 0 <= l < |after.book.journals[j].legs| ==> LegFits(after.book.journals[j].legs[l], after.book.journals[j].key.purpose)
    {
      if j < |desk.book.journals| {
        assert after.book.journals[j] == desk.book.journals[j];
        assert Documented(desk, desk.book.journals[j].key);
      }
    }
  }

  /** No document goes back to a state in which it has not posted. */
  lemma DocumentsStay(desk: Desk, after: Desk)
    requires |desk.obligations| <= |after.obligations| && |desk.transfers| <= |after.transfers| && |desk.remittances| <= |after.remittances|
    requires |desk.counts| <= |after.counts| && |desk.adjustments| <= |after.adjustments|
    requires forall i :: 0 <= i < |desk.obligations| && desk.obligations[i].status != Expected ==> after.obligations[i].status != Expected
    requires forall t :: 0 <= t < |desk.transfers| && desk.transfers[t].status == Accepted ==> after.transfers[t].status == Accepted
    requires forall r :: 0 <= r < |desk.remittances| && desk.remittances[r].status == Confirmed ==> after.remittances[r].status == Confirmed
    requires forall c :: 0 <= c < |desk.counts| && desk.counts[c].status != CountOpen ==> after.counts[c].status != CountOpen
    requires forall a :: 0 <= a < |desk.adjustments| && desk.adjustments[a].status == AdjustmentPosted ==> after.adjustments[a].status == AdjustmentPosted
    ensures forall key :: Documented(desk, key) ==> Documented(after, key)
  {
  }

  lemma RowsAdvanceKeepsTransfers(before: seq<Obligation>, after: seq<Obligation>, transfers: seq<Transfer>)
    requires TransfersValid(before, transfers)
    requires |before| <= |after|
    requires forall i :: 0 <= i < |before| ==> RowAdvances(before[i], after[i])
    ensures TransfersValid(after, transfers)
  {
    forall t | 0 <= t < |transfers|
      ensures TransferValid(after, transfers[t])
    {
      assert TransferValid(before, transfers[t]);
    }
  }

  // ----- Opening and collecting ---------------------------------------------

  lemma OpenKeeps(desk: Desk, shipment: int, amount: int, currency: Currency)
    requires Inv(desk)
    requires OpenObligation(desk, shipment, amount, currency).Success?
    ensures Inv(OpenObligation(desk, shipment, amount, currency).value)
  {
    var after := OpenObligation(desk, shipment, amount, currency).value;
    if after != desk {
      RowsAdvanceKeepsTransfers(desk.obligations, after.obligations, desk.transfers);
    }
  }

  /** A row that leaves EXPECTED is on no transfer. */
  lemma CollectKeepsTransfers(desk: Desk, id: nat, row: Obligation)
    requires TransfersValid(desk.obligations, desk.transfers)
    requires id < |desk.obligations| && desk.obligations[id].status == Expected && row.status != Expected
    ensures TransfersValid(desk.obligations[id := row], desk.transfers)
  {
    forall t | 0 <= t < |desk.transfers|
      ensures TransferValid(desk.obligations[id := row], desk.transfers[t])
    {
      assert TransferValid(desk.obligations, desk.transfers[t]);
    }
  }

  lemma CollectKeeps(desk: Desk, req: CollectRequest)
    requires Inv(desk)
    requires req.amount > 0
    requires CollectWrite(desk, req).Success?
    ensures Inv(CollectWrite(desk, req).value.desk)
  {
    var after := CollectWrite(desk, req).value.desk;
    var id := FindByShipment(desk.obligations, req.shipment).value;
    var key := Key(FromCod, id, Collection);
    FreshKey(desk, key);
    PostKeepsJournals(desk, Posting(key, desk.obligations[id].currency, CollectionLegs(req.amount, req.agent)), after);
    CollectKeepsTransfers(desk, id, after.obligations[id]);
  }

  // ----- Transfers ----------------------------------------------------------

  lemma {:induction false} SumPositive(items: seq<Item>)
    requires items != [] && forall k :: 0 <= k < |items| ==> items[k].amount > 0
    ensures Sum(items, AmountFn()) > 0
  {
    if |items| > 1 {
      SumPositive(items[..|items| - 1]);
    }
  }

  /** What a declaration writes: one valid transfer of cash that is on no other. */
  lemma DeclaredRow(desk: Desk, from: Holder, to: Holder, locked: seq<nat>)
    requires RowsValid(desk.obligations)
    requires Custodial(from.kind) && from != to && locked != []
    requires forall k :: 0 <= k < |locked| ==> locked[k] < |desk.obligations|
    requires forall k, l :: 0 <= k < l < |locked| ==> locked[k] != locked[l]
    requires DeclareLocked(desk, from, to, locked).Success?
    ensures var items := OutstandingItems(desk.obligations, locked);
            var transfer := Transfer(from, to, Sum(items, AmountFn()), desk.obligations[locked[0]].currency, items, Declared, 0);
            && DeclareLocked(desk, from, to, locked).value == desk.(transfers := desk.transfers + [transfer])
            && TransferValid(desk.obligations, transfer)
            && forall k :: 0 <= k < |items| ==> !InTransfer(desk.transfers, items[k].obligation)
  {
    var currency := desk.obligations[locked[0]].currency;
    var items := OutstandingItems(desk.obligations, locked);
    assert FirstHandOverError(desk.obligations, locked, from, currency).None?;
    forall k | 0 <= k < |items|
      ensures CarriedAsDeclared(desk.obligations[items[k].obligation], from, items[k].amount)
      ensures desk.obligations[items[k].obligation].status != Expected
      ensures items[k].amount > 0
    {
      assert HandOverError(desk.obligations[locked[k]], from, currency).None?;
      assert ValidRow(desk.obligations[locked[k]]);
    }
    SumPositive(items);
  }

  lemma AddTransferKeeps(desk: Desk, transfer: Transfer)
    requires Inv(desk) && TransferValid(desk.obligations, transfer)
    requires forall k :: 0 <= k < |transfer.items| ==> !InTransfer(desk.transfers, transfer.items[k].obligation)
    ensures Inv(desk.(transfers := desk.transfers + [transfer]))
  {
    var after := desk.(transfers := desk.transfers + [transfer]);
    forall t, i | 0 <= t < |desk.transfers| && Carries(desk.transfers[t].items, i)
      ensures !Carries(transfer.items, i)
    {
      assert InTransfer(desk.transfers, i);
    }
    DocumentsStay(desk, after);
  }

  lemma DeclareKeeps(desk: Desk, from: Holder, to: Holder, ids: seq<nat>)
    requires Inv(desk)
    requires DeclareTransfer(desk, from, to, ids).Success?
    ensures Inv(DeclareTransfer(desk, from, to, ids).value)
  {
    var locked := Locked(|desk.obligations|, ids);
    DeclaredRow(desk, from, to, locked);
    var items := OutstandingItems(desk.obligations, locked);
    AddTransferKeeps(desk, Transfer(from, to, Sum(items, AmountFn()), desk.obligations[locked[0]].currency, items, Declared, 0));
  }

  /** Moving custody touches exactly the carried rows, each of which was with the giver's kind. */
  lemma {:induction false} MovedRows(obligations: seq<Obligation>, items: seq<Item>, from: HolderKind, to: Holder)
    requires Custodial(from) && Custodial(to.kind)
    requires DistinctItems(items)
    requires Moved(obligations, items, from, to).Some?
    ensures forall k :: 0 <= k < |items| ==>
              && items[k].obligation < |obligations|
              && obligations[items[k].obligation].status == StatusForCustodian(from)
    ensures var after := Moved(obligations, items, from, to).value;
            forall i :: 0 <= i < |obligations| ==>
              after[i] == if Carries(items, i) then MoveCustody(obligations[i], to) else obligations[i]
  {
    if items != [] {
      var n := |items| - 1;
      MovedRows(obligations, items[..n], from, to);
      var earlier := Moved(obligations, items[..n], from, to).value;
      var id := items[n].obligation;
      assert !Carries(items[..n], id);
      var after := Moved(obligations, items, from, to).value;
      forall i | 0 <= i < |obligations|
        ensures after[i] == if Carries(items, i) then MoveCustody(obligations[i], to) else obligations[i]
      {
        if Carries(items[..n], i) {
          var k :| 0 <= k < n && items[..n][k].obligation == i;
          assert items[k].obligation == i;
        } else if i != id {
          assert forall k :: 0 <= k < n ==> items[..n][k] == items[k];
          assert !Carries(items, i);
        }
      }
    }
  }

  lemma AcceptKeepsTransfers(desk: Desk, id: nat, accepted: int, reason: string)
    requires Inv(desk)
    requires AcceptTransfer(desk, id, accepted, reason).Success?
    ensures var after := AcceptTransfer(desk, id, accepted, reason).value;
            RowsValid(after.obligations) && TransfersValid(after.obligations, after.transfers)
  {
    var after := AcceptTransfer(desk, id, accepted, reason).value;
    var transfer := desk.transfers[id];
    assert TransferValid(desk.obligations, transfer);
    MovedRows(desk.obligations, transfer.items, transfer.from.kind, transfer.to);
    forall i | 0 <= i < |desk.obligations|
      ensures ValidRow(after.obligations[i])
    {
      assert ValidRow(desk.obligations[i]);
      if Carries(transfer.items, i) {
        var k :| 0 <= k < |transfer.items| && transfer.items[k].obligation == i;
        assert desk.obligations[transfer.items[k].obligation].status == StatusForCustodian(transfer.from.kind);
      }
    }
    forall t | 0 <= t < |after.transfers|
      ensures TransferValid(after.obligations, after.transfers[t])
    {
      var other := desk.transfers[t];
      assert TransferValid(desk.obligations, other);
      if t != id {
        forall k | 0 <= k < |other.items|
          ensures after.obligations[other.items[k].obligation] == desk.obligations[other.items[k].obligation]
        {
          assert Carries(other.items, other.items[k].obligation);
          assert !Carries(transfer.items, other.items[k].obligation);
        }
      }
    }
  }

  lemma AcceptKeepsJournals(desk: Desk, id: nat, accepted: int, reason: string)
    requires JournalsValid(desk)
    requires AcceptTransfer(desk, id, accepted, reason).Success?
    requires forall i :: 0 <= i < |desk.obligations| && desk.obligations[i].status != Expected ==>
               AcceptTransfer(desk, id, accepted, reason).value.obligations[i].status != Expected
    ensures JournalsValid(AcceptTransfer(desk, id, accepted, reason).value)
  {
    var after := AcceptTransfer(desk, id, accepted, reason).value;
    var transfer := desk.transfers[id];
    var key := Key(FromCod, id, CustodyTransfer);
    FreshKey(desk, key);
    DocumentsStay(desk, after);
    PostKeepsJournals(desk, Posting(key, transfer.currency, TransferLegs(transfer, accepted)), after);
  }

  lemma AcceptKeeps(desk: Desk, id: nat, accepted: int, reason: string)
    requires Inv(desk)
    requires AcceptTransfer(desk, id, accepted, reason).Success?
    ensures Inv(AcceptTransfer(desk, id, accepted, reason).value)
  {
    var transfer := desk.transfers[id];
    assert TransferValid(desk.obligations, transfer);
    MovedRows(desk.obligations, transfer.items, transfer.from.kind, transfer.to);
    AcceptKeepsTransfers(desk, id, accepted, reason);
    AcceptKeepsJournals(desk, id, accepted, reason);
  }

  // ----- Remittances --------------------------------------------------------

  lemma {:induction false} RemittedRows(obligations: seq<Obligation>, items: seq<Item>)
    requires forall i :: 0 <= i < |obligations| ==> ValidRow(obligations[i])
    ensures var after := MarkAllRemitted(obligations, items);
            forall i :: 0 <= i < |obligations| ==>
              && ValidRow(after[i])
              && RowAdvances(obligations[i], after[i])
              && after[i].collected == obligations[i].collected
              && after[i].lastHolder == obligations[i].lastHolder
              && (obligations[i].status == Expected ==> after[i] == obligations[i])
  {
    if items != [] {
      RemittedRows(obligations, items[..|items| - 1]);
    }
  }

  lemma ConfirmKeeps(desk: Desk, id: nat)
    requires Inv(desk)
    requires ConfirmRemittance(desk, id).Success?
    ensures Inv(ConfirmRemittance(desk, id).value)
  {
    var after := ConfirmRemittance(desk, id).value;
    var row := desk.remittances[id];
    RemittedRows(desk.obligations, row.items);
    RowsAdvanceKeepsTransfers(desk.obligations, after.obligations, desk.transfers);
    var key := Key(FromCod, id, Remittance);
    FreshKey(desk, key);
    DocumentsStay(desk, after);
    PostKeepsJournals(desk, Posting(key, row.currency, RemittanceLegs(row)), after);
  }

  // ----- Adjustments --------------------------------------------------------

  lemma ApproveKeeps(desk: Desk, id: nat, user: int)
    requires Inv(desk)
    requires ApproveAdjustment(desk, id, user).Success?
    ensures Inv(ApproveAdjustment(desk, id, user).value)
  {
    var after := ApproveAdjustment(desk, id, user).value;
    var a := desk.adjustments[id];
    var key := Key(FromAdjustment, id, CodAdjustment);
    FreshKey(desk, key);
    PostKeepsJournals(desk, Posting(key, a.currency, AdjustmentLegs(a)), after);
  }

  // ----- Reconciliations ----------------------------------------------------

  lemma {:induction false} ReconciledRows(obligations: seq<Obligation>, items: seq<CountItem>)
    requires forall i :: 0 <= i < |obligations| ==> ValidRow(obligations[i])
    ensures var after := MarkAllReconciled(obligations, items);
            forall i :: 0 <= i < |obligations| ==>
              && ValidRow(after[i])
              && RowAdvances(obligations[i], after[i])
              && after[i].collected == obligations[i].collected
              && after[i].lastHolder == obligations[i].lastHolder
              && (obligations[i].status == Expected ==> after[i] == obligations[i])
  {
    if items != [] {
      ReconciledRows(obligations, items[..|items| - 1]);
    }
  }

  lemma CompleteKeepsJournals(desk: Desk, id: nat, reason: string)
    requires JournalsValid(desk) && RowsValid(desk.obligations)
    requires CompleteReconciliation(desk, id, reason).Success?
    ensures JournalsValid(CompleteReconciliation(desk, id, reason).value)
  {
    var after := CompleteReconciliation(desk, id, reason).value;
    var c := desk.counts[id];
    ReconciledRows(desk.obligations, c.items);
    var shortage, excess := Sum(c.items, ShortageFn()), Sum(c.items, ExcessFn());
    var key := Key(FromCod, id, Reconciliation);
    DocumentsStay(desk, after);
    if shortage != 0 || excess != 0 {
      FreshKey(desk, key);
      PostKeepsJournals(desk, Posting(key, c.currency, CountLegs(c.party, shortage, excess)), after);
    }
  }

  lemma CompleteKeeps(desk: Desk, id: nat, reason: string)
    requires Inv(desk)
    requires CompleteReconciliation(desk, id, reason).Success?
    ensures Inv(CompleteReconciliation(desk, id, reason).value)
  {
    var after := CompleteReconciliation(desk, id, reason).value;
    ReconciledRows(desk.obligations, desk.counts[id].items);
    RowsAdvanceKeepsTransfers(desk.obligations, after.obligations, desk.transfers);
    CompleteKeepsJournals(desk, id, reason);
    assert CountValid(desk.counts[id], |desk.obligations|);
  }

  // ----- Documents that post nothing ----------------------------------------

  /** Rows appended or recounted in a table that no journal depends on yet. */
  lemma PaperKeeps(desk: Desk, after: Desk)
    requires Inv(desk)
    requires after.obligations == desk.obligations && after.collections == desk.collections
    requires after.transfers == desk.transfers && after.book == desk.book
    requires |desk.remittances| <= |after.remittances| && |desk.adjustments| <= |after.adjustments| && |desk.counts| <= |after.counts|
    requires forall r :: 0 <= r < |desk.remittances| ==> after.remittances[r] == desk.remittances[r]
    requires forall a :: 0 <= a < |desk.adjustments| ==> after.adjustments[a] == desk.adjustments[a]
    requires forall c :: 0 <= c < |desk.counts| ==> after.counts[c].status == desk.counts[c].status
    requires AdjustmentsValid(after.adjustments) && PapersValid(after)
    ensures Inv(after)
  {
    DocumentsStay(desk, after);
  }

  lemma RemitKeeps(desk: Desk, from: Holder, beneficiary: Beneficiary, ids: seq<nat>)
    requires Inv(desk) && CreateRemittance(desk, from, beneficiary, ids).Success?
    ensures Inv(CreateRemittance(desk, from, beneficiary, ids).value)
  {
    var after := CreateRemittance(desk, from, beneficiary, ids).value;
    assert RemittanceValid(after.remittances[|desk.remittances|], |desk.obligations|);
    PaperKeeps(desk, CreateRemittance(desk, from, beneficiary, ids).value);
  }

  lemma RequestKeeps(desk: Desk, obligation: Option<nat>, kind: AdjustmentKind, amount: int,
                     liableKind: Option<HolderKind>, liableId: int, reason: string, user: int)
    requires Inv(desk) && RequestAdjustment(desk, obligation, kind, amount, liableKind, liableId, reason, user).Success?
    ensures Inv(RequestAdjustment(desk, obligation, kind, amount, liableKind, liableId, reason, user).value)
  {
    PaperKeeps(desk, RequestAdjustment(desk, obligation, kind, amount, liableKind, liableId, reason, user).value);
  }

  /** What opening a count writes: one header, with a line per held obligation up to the limit of the query. */
  lemma OpenedCount(desk: Desk, party: Holder, order: seq<nat>)
    requires ListsHeld(desk.obligations, party, order) && OpenReconciliation(desk, party, order).Success?
    ensures var held := if |order| > HELD_LIMIT then order[..HELD_LIMIT] else order;
            var currency := if held == [] then desk.book.currency else desk.obligations[held[|held| - 1]].currency;
            var row := Count(party, currency, SeedItems(desk.obligations, held), CountOpen, 0, 0);
            && OpenReconciliation(desk, party, order).value == desk.(counts := desk.counts + [row])
            && CountValid(row, |desk.obligations|)
  {
  }

  lemma OpenCountKeeps(desk: Desk, party: Holder, order: seq<nat>)
    requires Inv(desk) && ListsHeld(desk.obligations, party, order) && OpenReconciliation(desk, party, order).Success?
    ensures Inv(OpenReconciliation(desk, party, order).value)
  {
    OpenedCount(desk, party, order);
    var after := OpenReconciliation(desk, party, order).value;
    AddCountKeeps(desk, after.counts[|desk.counts|]);
  }

  lemma AddCountKeeps(desk: Desk, row: Count)
    requires Inv(desk) && CountValid(row, |desk.obligations|)
    ensures Inv(desk.(counts := desk.counts + [row]))
  {
    PaperKeeps(desk, desk.(counts := desk.counts + [row]));
  }

  /** The upsert rewrites the line of its obligation, or adds one. */
  lemma {:induction false} UpsertKeeps(items: seq<CountItem>, item: CountItem)
    requires DistinctLines(items)
    ensures DistinctLines(UpsertItem(items, item))
    ensures forall line :: line in UpsertItem(items, item) ==>
              line in items || (line.obligation == item.obligation && line.counted == item.counted && line.outcome == item.outcome)
  {
    if items != [] && items[0].obligation != item.obligation {
      UpsertKeeps(items[1..], item);
      var rest := UpsertItem(items[1..], item);
      forall k | 0 <= k < |rest|
        ensures rest[k].obligation != items[0].obligation
      {
        assert rest[k] in rest;
      }
    }
  }

  lemma RecordCountKeeps(desk: Desk, count: nat, obligation: nat, counted: int)
    requires Inv(desk) && CountWrite(desk, count, obligation, counted).Success?
    ensures Inv(CountWrite(desk, count, obligation, counted).value)
  {
    var c := desk.counts[count];
    var expected := Outstanding(desk.obligations[obligation]);
    var item := CountItem(obligation, expected, counted, OutcomeOf(counted, expected));
    assert CountValid(c, |desk.obligations|);
    UpsertKeeps(c.items, item);
    assert CountValid(c.(items := UpsertItem(c.items, item)), |desk.obligations|);
    PaperKeeps(desk, CountWrite(desk, count, obligation, counted).value);
  }

  // ----- Every step, every run ----------------------------------------------

  lemma StepKeeps(desk: Desk, event: Event)
    requires Inv(desk)
    ensures Inv(Step(desk, event))
  {
    if Step(desk, event) != desk {
      match event
      case Open(shipment, amount, currency) => OpenKeeps(desk, shipment, amount, currency);
      case Collect(request) => CollectKeeps(desk, request);
      case Declare(from, to, ids) => DeclareKeeps(desk, from, to, ids);
      case Accept(transfer, accepted, reason) => AcceptKeeps(desk, transfer, accepted, reason);
      case Remit(from, beneficiary, ids) => RemitKeeps(desk, from, beneficiary, ids);
      case Confirm(remittance) => ConfirmKeeps(desk, remittance);
      case Request(obligation, kind, amount, liableKind, liableId, reason, user) =>
        RequestKeeps(desk, obligation, kind, amount, liableKind, liableId, reason, user);
      case Approve(adjustment, user) => ApproveKeeps(desk, adjustment, user);
      case OpenCount(party, order) => OpenCountKeeps(desk, party, order);
      case RecordCount(count, obligation, counted) => RecordCountKeeps(desk, count, obligation, counted);
      case Complete(count, reason) => CompleteKeeps(desk, count, reason);
    }
  }

  lemma {:induction false} RunKeeps(desk: Desk, events: seq<Event>)
    requires Inv(desk)
    ensures Inv(Run(desk, events))
  {
    if events != [] {
      var n := |events| - 1;
      RunKeeps(desk, events[..n]);
      StepKeeps(Run(desk, events[..n]), events[n]);
    }
  }
}
