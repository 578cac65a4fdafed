/**
 * What each COD transaction writes, column by column, and exactly when it
 * commits. Nothing here is said through the functions that do the writing.
 */
module CodEffects {
  import opened Sums
  import opened Ledger
  import opened CodModel
  import opened CodInvariant
  import opened CodLaw
  import opened CodTheorems

  // ----- Opening and collecting ---------------------------------------------

  predicate Known(obligations: seq<Obligation>, shipment: int) {
    exists i :: 0 <= i < |obligations| && obligations[i].shipment == shipment
  }

  /** Opening is idempotent: the first call for a shipment adds its row, and any further one changes nothing. */
  lemma OpenEffect(desk: Desk, shipment: int, amount: int, currency: Currency)
    ensures OpenObligation(desk, shipment, amount, currency).Success? <==> amount > 0
    ensures amount > 0 ==>
              var after := OpenObligation(desk, shipment, amount, currency).value;
              if Known(desk.obligations, shipment) then after == desk
              else
                && |after.obligations| == |desk.obligations| + 1
                && after == desk.(obligations := desk.obligations + [after.obligations[|desk.obligations|]])
                && var row := after.obligations[|desk.obligations|];
                   && row.shipment == shipment && row.expected == amount && row.currency == currency
                   && row.status == Expected && row.custodian.None? && row.collected == row.remitted == row.adjusted == 0
  {
    if FindByShipment(desk.obligations, shipment).None? {
      forall i | 0 <= i < |desk.obligations|
        ensures desk.obligations[i].shipment != shipment
      {
        assert desk.obligations[i] in desk.obligations;
      }
    }
  }

  /** `obligations` with one row in the agent's hands. */
  predicate PutInHand(before: seq<Obligation>, i: nat, amount: int, agent: int, after: seq<Obligation>) {
    && i < |before|
    && before[i].status == Expected
    && after == before[i := before[i].(status := AgentCollected, custodian := Some(Holder(Agent, agent)), collected := amount,
                                       lastHolder := Some(Holder(Agent, agent)))]
  }

  /** A collection marks the shipment's own row and adds one row with the request's columns, pointing to its journal. */
  lemma CollectEffect(desk: Desk, req: CollectRequest)
    requires Inv(desk) && CollectWrite(desk, req).Success?
    ensures var written := CollectWrite(desk, req).value;
            var after, i, j := written.desk, FindByShipment(desk.obligations, req.shipment).value, |desk.book.journals|;
            && PutInHand(desk.obligations, i, req.amount, req.agent, after.obligations)
            && desk.obligations[i].shipment == req.shipment
            && after.collections == desk.collections + [CollectionRow(i, req.amount, req.agent, req.attempt, req.device, j)]
            && j < |after.book.journals| && after.book.journals[j].key == Key(FromCod, i, Collection)
            && written.collection == |desk.collections| && !written.duplicate
  {
    CollectedTables(desk, req);
    var i := FindByShipment(desk.obligations, req.shipment).value;
    assert ValidRow(desk.obligations[i]);
    var key := Key(FromCod, i, Collection);
    FreshKey(desk, key);
    PostEffect(desk.book, Posting(key, desk.obligations[i].currency, CollectionLegs(req.amount, req.agent)), NetFn());
  }

  lemma CollectionPostsIff(book: Book, posting: Posting, amount: int, agent: int)
    requires Find(book.journals, posting.key).None? && posting.legs == CollectionLegs(amount, agent)
    ensures Post(book, posting).Success? <==>
            amount > 0 && agent != 0 && !posting.currency.Unsupported? && posting.currency == book.currency
  {
    PostAcceptedIff(book, posting);
    Sum2(posting.legs[0], posting.legs[1], DebitFn());
    Sum2(posting.legs[0], posting.legs[1], CreditFn());
    assert posting.legs[0] in posting.legs && posting.legs[1] in posting.legs;
  }

  /** When a collection is banked: once per obligation, attempt and device event, in the currency of the books. */
  lemma CollectSucceedsIff(desk: Desk, req: CollectRequest)
    requires Inv(desk)
    ensures var found := FindByShipment(desk.obligations, req.shipment);
            CollectWrite(desk, req).Success? <==>
            && found.Some? && desk.obligations[found.value].status == Expected
            && req.amount > 0 && req.agent != 0
            && !desk.book.currency.Unsupported? && desk.obligations[found.value].currency == desk.book.currency
            && forall c :: 0 <= c < |desk.collections| ==>
                 && (req.attempt.Some? ==> desk.collections[c].attempt != req.attempt)
                 && (req.device.Some? ==> desk.collections[c].device != req.device)
  {
    var found := FindByShipment(desk.obligations, req.shipment);
    if found.Some? && desk.obligations[found.value].status == Expected {
      var key := Key(FromCod, found.value, Collection);
      FreshKey(desk, key);
      CollectionPostsIff(desk.book, Posting(key, desk.obligations[found.value].currency, CollectionLegs(req.amount, req.agent)), req.amount, req.agent);
      NoReplayIff(desk, req);
    }
  }

  lemma NoReplayIff(desk: Desk, req: CollectRequest)
    ensures Replay(desk, req).None? <==>
            forall c :: 0 <= c < |desk.collections| ==>
              && (req.attempt.Some? ==> desk.collections[c].attempt != req.attempt)
              && (req.device.Some? ==> desk.collections[c].device != req.device)
  {
    if Replay(desk, req).None? {
      forall c | 0 <= c < |desk.collections|
        ensures !SameAttempt(desk.collections[c], req.attempt) && !SameDevice(desk.collections[c], req.device)
      {
        assert desk.collections[c] in desk.collections;
      }
    }
  }

  // ----- Handing over -------------------------------------------------------

  /** The locked rows become the items of one new transfer, in the currency of the first. */
  lemma DeclaredTables(desk: Desk, from: Holder, to: Holder, ids: seq<nat>)
    requires DeclareTransfer(desk, from, to, ids).Success?
    ensures var locked := Locked(|desk.obligations|, ids);
            && locked != []
            && var items := OutstandingItems(desk.obligations, locked);
               var t := Transfer(from, to, Sum(items, AmountFn()), desk.obligations[locked[0]].currency, items, Declared, 0);
               DeclareTransfer(desk, from, to, ids).value == desk.(transfers := desk.transfers + [t])
  {
  }

  /** The row that is added: the parties of the request, and each obligation once at what is left on it. */
  lemma DeclareEffect(desk: Desk, from: Holder, to: Holder, ids: seq<nat>)
    requires DeclareTransfer(desk, from, to, ids).Success?
    ensures var after := DeclareTransfer(desk, from, to, ids).value;
            && |after.transfers| == |desk.transfers| + 1
            && var t := after.transfers[|desk.transfers|];
               && after == desk.(transfers := desk.transfers + [t])
               && t.from == from && t.to == to && t.status == Declared && t.accepted == 0
               && t.declared == Sum(t.items, AmountFn())
               && ListsOnce(desk.obligations, ids, t.items)
               && forall i :: i in ids ==> i < |desk.obligations| && desk.obligations[i].currency == t.currency
  {
    var locked := Locked(|desk.obligations|, ids);
    DeclaredTables(desk, from, to, ids);
    LockedElements(|desk.obligations|, ids);
    DeclareSucceedsIff(desk, from, to, ids);
    LockedListsOnce(desk.obligations, locked, ids);
    assert locked[0] in ids;
  }

  lemma LockedListsOnce(obligations: seq<Obligation>, locked: seq<nat>, ids: seq<nat>)
    requires forall k :: 0 <= k < |locked| ==> locked[k] < |obligations|
    requires forall k, l :: 0 <= k < l < |locked| ==> locked[k] < locked[l]
    requires forall i :: i in locked <==> i in ids
    ensures ListsOnce(obligations, ids, OutstandingItems(obligations, locked))
  {
    var items := OutstandingItems(obligations, locked);
    forall i | i in ids
      ensures Carries(items, i)
    {
      assert i in locked;
      var k :| 0 <= k < |locked| && locked[k] == i;
      assert items[k].obligation == i;
    }
  }

  /** Everything carried is now with the receiver, at the receiver's stage, and nothing else has changed. */
  predicate HandedOver(before: seq<Obligation>, items: seq<Item>, to: Holder, after: seq<Obligation>) {
    && |after| == |before|
    && forall i :: 0 <= i < |before| ==>
         after[i] == if !Carries(items, i) then before[i]
                     else
                       var stage := if to.kind.Agent? then AgentCollected else if to.kind.Unit? then BranchReceived else FranchiseConfirmed;
                       before[i].(status := stage, custodian := Some(to), lastHolder := Some(to))
  }

  lemma AcceptEffect(desk: Desk, id: nat, accepted: int, reason: string)
    requires Inv(desk) && AcceptTransfer(desk, id, accepted, reason).Success?
    ensures id < |desk.transfers|
    ensures var after, t := AcceptTransfer(desk, id, accepted, reason).value, desk.transfers[id];
            && after.transfers == desk.transfers[id := t.(status := Accepted, accepted := accepted)]
            && HandedOver(desk.obligations, t.items, t.to, after.obligations)
  {
    AcceptedTables(desk, id, accepted, reason);
    var t := desk.transfers[id];
    assert TransferValid(desk.obligations, t);
    MovedRows(desk.obligations, t.items, t.from.kind, t.to);
  }

  // ----- Remitting ----------------------------------------------------------

  /** At the custodian's own stage, or counted. Whose cash it is is not asked. */
  predicate CanRemit(obligations: seq<Obligation>, ids: seq<nat>, from: HolderKind) {
    forall i :: i in ids ==>
      && i < |obligations|
      && (obligations[i].status == Reconciled || obligations[i].status == (if from.Unit? then BranchReceived else FranchiseConfirmed))
  }

  /** What a remittance lists: each obligation asked for once, at what is left on it. */
  predicate ListsOnce(obligations: seq<Obligation>, ids: seq<nat>, items: seq<Item>) {
    && DistinctItems(items)
    && (forall k :: 0 <= k < |items| ==> items[k].obligation in ids && items[k].obligation < |obligations|
                                         && items[k].amount == obligations[items[k].obligation].collected - obligations[items[k].obligation].remitted)
    && forall i :: i in ids ==> Carries(items, i)
  }

  lemma RemittableIff(obligations: seq<Obligation>, locked: seq<nat>, ids: seq<nat>, from: HolderKind)
    requires Custodial(from) && !from.Agent?
    requires forall k :: 0 <= k < |locked| ==> locked[k] < |obligations|
    requires forall i :: i in locked <==> i in ids
    ensures (forall k :: 0 <= k < |locked| ==> Remittable(obligations[locked[k]].status, from)) <==> CanRemit(obligations, ids, from)
  {
    if forall k :: 0 <= k < |locked| ==> Remittable(obligations[locked[k]].status, from) {
      forall i | i in ids
        ensures i < |obligations| && Remittable(obligations[i].status, from)
      {
        assert i in locked;
        var k :| 0 <= k < |locked| && locked[k] == i;
      }
    } else {
      var k :| 0 <= k < |locked| && !Remittable(obligations[locked[k]].status, from);
      assert locked[k] in ids;
    }
  }

  /** Whatever can be remitted has cash left on it. */
  lemma SomethingLeft(obligations: seq<Obligation>, locked: seq<nat>, from: HolderKind)
    requires RowsValid(obligations) && Custodial(from) && locked != []
    requires forall k :: 0 <= k < |locked| ==> locked[k] < |obligations| && Remittable(obligations[locked[k]].status, from)
    ensures Sum(OutstandingItems(obligations, locked), AmountFn()) > 0
  {
    var items := OutstandingItems(obligations, locked);
    forall k | 0 <= k < |items|
      ensures items[k].amount > 0
    {
      assert ValidRow(obligations[locked[k]]);
    }
    SumPositive(items);
  }

  /** What is checked of the locked rows. */
  lemma RemitLocked(desk: Desk, from: Holder, beneficiary: Beneficiary, ids: seq<nat>)
    requires ids != [] && from.kind in {Unit, Franchise}
    requires forall k :: 0 <= k < |ids| ==> ids[k] < |desk.obligations|
    ensures var locked := Locked(|desk.obligations|, ids);
            CreateRemittance(desk, from, beneficiary, ids).Success? <==>
            && (forall k :: 0 <= k < |locked| ==> Remittable(desk.obligations[locked[k]].status, from.kind))
            && Sum(OutstandingItems(desk.obligations, locked), AmountFn()) > 0 && locked != []
  {
  }

  lemma RemitKnown(desk: Desk, from: Holder, beneficiary: Beneficiary, ids: seq<nat>)
    requires RowsValid(desk.obligations) && ids != [] && from.kind in {Unit, Franchise}
    requires forall k :: 0 <= k < |ids| ==> ids[k] < |desk.obligations|
    ensures CreateRemittance(desk, from, beneficiary, ids).Success? <==> CanRemit(desk.obligations, ids, from.kind)
  {
    var locked := Locked(|desk.obligations|, ids);
    RemitLocked(desk, from, beneficiary, ids);
    LockedElements(|desk.obligations|, ids);
    RemittableIff(desk.obligations, locked, ids, from.kind);
    assert ids[0] in locked;
    if CanRemit(desk.obligations, ids, from.kind) {
      SomethingLeft(desk.obligations, locked, from.kind);
    }
  }

  /** When a remittance is created: by a unit or a franchise, for known obligations at its stage or counted. */
  lemma RemitSucceedsIff(desk: Desk, from: Holder, beneficiary: Beneficiary, ids: seq<nat>)
    requires Inv(desk)
    ensures CreateRemittance(desk, from, beneficiary, ids).Success? <==>
            ids != [] && from.kind in {Unit, Franchise} && CanRemit(desk.obligations, ids, from.kind)
  {
    if ids == [] || from.kind !in {Unit, Franchise} {
    } else if k :| 0 <= k < |ids| && ids[k] >= |desk.obligations| {
      assert ids[k] in ids;
    } else {
      RemitKnown(desk, from, beneficiary, ids);
    }
  }

  /** The row that is added: the request's custodian and beneficiary, and each obligation once at what is left on it. */
  lemma RemitEffect(desk: Desk, from: Holder, beneficiary: Beneficiary, ids: seq<nat>)
    requires CreateRemittance(desk, from, beneficiary, ids).Success?
    ensures var after := CreateRemittance(desk, from, beneficiary, ids).value;
            && |after.remittances| == |desk.remittances| + 1
            && var row := after.remittances[|desk.remittances|];
               && after == desk.(remittances := desk.remittances + [row])
               && row.from == from && row.beneficiary == beneficiary && row.status == Initiated
               && row.amount == Sum(row.items, AmountFn())
               && ListsOnce(desk.obligations, ids, row.items)
  {
    var locked := Locked(|desk.obligations|, ids);
    LockedElements(|desk.obligations|, ids);
    RemitKnownIds(desk, from, beneficiary, ids);
    LockedListsOnce(desk.obligations, locked, ids);
  }

  lemma RemitKnownIds(desk: Desk, from: Holder, beneficiary: Beneficiary, ids: seq<nat>)
    requires CreateRemittance(desk, from, beneficiary, ids).Success?
    ensures forall i :: i in ids ==> i < |desk.obligations|
  {
    forall i | i in ids
      ensures i < |desk.obligations|
    {
      var k :| 0 <= k < |ids| && ids[k] == i;
    }
  }

  /** Every listed row that was still out is closed at its item's amount, and nothing else has changed. */
  predicate PaidIn(before: seq<Obligation>, items: seq<Item>, after: seq<Obligation>) {
    && |after| == |before|
    && (forall k :: 0 <= k < |items| && items[k].obligation < |before| ==>
          var ob := before[items[k].obligation];
          after[items[k].obligation]
          == if ob.status in {BranchReceived, FranchiseConfirmed, Reconciled}
             then ob.(status := Remitted, custodian := None, remitted := ob.remitted + items[k].amount) else ob)
    && forall i :: 0 <= i < |before| && !Carries(items, i) ==> after[i] == before[i]
  }

  lemma {:induction false} NotPaidIn(obligations: seq<Obligation>, items: seq<Item>, i: nat)
    requires i < |obligations| && forall k :: 0 <= k < |items| ==> items[k].obligation != i
    ensures MarkAllRemitted(obligations, items)[i] == obligations[i]
  {
    if items != [] {
      NotPaidIn(obligations, items[..|items| - 1], i);
    }
  }

  lemma {:induction false} PaidInAt(obligations: seq<Obligation>, items: seq<Item>, k: nat)
    requires DistinctItems(items) && k < |items| && items[k].obligation < |obligations|
    ensures MarkAllRemitted(obligations, items)[items[k].obligation] == MarkRemitted(obligations[items[k].obligation], items[k].amount)
  {
    var n := |items| - 1;
    if k == n {
      NotPaidIn(obligations, items[..n], items[k].obligation);
    } else {
      PaidInAt(obligations, items[..n], k);
    }
  }

  lemma PaidInRows(obligations: seq<Obligation>, items: seq<Item>)
    requires DistinctItems(items)
    ensures PaidIn(obligations, items, MarkAllRemitted(obligations, items))
  {
    forall k | 0 <= k < |items| && items[k].obligation < |obligations|
      ensures MarkAllRemitted(obligations, items)[items[k].obligation] == MarkRemitted(obligations[items[k].obligation], items[k].amount)
    {
      PaidInAt(obligations, items, k);
    }
    forall i | 0 <= i < |obligations| && !Carries(items, i)
      ensures MarkAllRemitted(obligations, items)[i] == obligations[i]
    {
      NotPaidIn(obligations, items, i);
    }
  }

  lemma ConfirmEffect(desk: Desk, id: nat)
    requires Inv(desk) && ConfirmRemittance(desk, id).Success?
    ensures id < |desk.remittances|
    ensures var after, row := ConfirmRemittance(desk, id).value, desk.remittances[id];
            && row.status == Initiated
            && after.remittances == desk.remittances[id := row.(status := Confirmed)]
            && PaidIn(desk.obligations, row.items, after.obligations)
  {
    ConfirmedTables(desk, id);
    assert RemittanceValid(desk.remittances[id], |desk.obligations|);
    PaidInRows(desk.obligations, desk.remittances[id].items);
  }

  /** When a remittance is confirmed: once, in the currency of the books. */
  lemma ConfirmSucceedsIff(desk: Desk, id: nat)
    requires Inv(desk) && id < |desk.remittances|
    ensures var row := desk.remittances[id];
            ConfirmRemittance(desk, id).Success? <==>
            && row.status == Initiated
            && row.currency == desk.book.currency && !row.currency.Unsupported?
            && (row.beneficiary == ToHeadOffice ==> row.from.id != 0)
  {
    var row := desk.remittances[id];
    assert RemittanceValid(row, |desk.obligations|);
    if row.status == Initiated {
      var posting := Posting(Key(FromCod, id, Remittance), row.currency, RemittanceLegs(row));
      FreshKey(desk, posting.key);
      PostAcceptedIff(desk.book, posting);
      Sum2(posting.legs[0], posting.legs[1], DebitFn());
      Sum2(posting.legs[0], posting.legs[1], CreditFn());
      assert posting.legs[0] in posting.legs && posting.legs[1] in posting.legs;
    }
  }

  // ----- Adjusting ----------------------------------------------------------

  /** When an adjustment is asked for, and the row that is added: the request's own columns, waiting for a second person. */
  lemma RequestEffect(desk: Desk, obligation: Option<nat>, kind: AdjustmentKind, amount: int,
                      liableKind: Option<HolderKind>, liableId: int, reason: string, user: int)
    ensures var outcome := RequestAdjustment(desk, obligation, kind, amount, liableKind, liableId, reason, user);
            && (outcome.Success? <==> |reason| >= 10 && amount != 0 && obligation.Some? && obligation.value < |desk.obligations|)
            && (outcome.Success? ==>
                  && |outcome.value.adjustments| == |desk.adjustments| + 1
                  && var row := outcome.value.adjustments[|desk.adjustments|];
                     && outcome.value == desk.(adjustments := desk.adjustments + [row])
                     && row.obligation == obligation.value && row.currency == desk.obligations[obligation.value].currency
                     && row.kind == kind && row.amount == amount && row.liableKind == liableKind && row.liableId == liableId
                     && row.requestedBy == user && row.approvedBy.None? && row.status == PendingApproval)
  {
  }

  lemma AdjustmentPostsIff(book: Book, posting: Posting, a: Adjustment)
    requires Find(book.journals, posting.key).None? && a.amount != 0
    requires posting.legs == AdjustmentLegs(a) && posting.currency == a.currency
    ensures Post(book, posting).Success? <==>
            && !a.currency.Unsupported?
            && (a.kind in {Correction, DisputeResolution} || a.currency == book.currency)
            && (a.kind in {ExcessRefund, ExcessRetained} || a.liableId != 0)
  {
    PostAcceptedIff(book, posting);
    AdjustmentBalances(a);
    assert posting.legs[0] in posting.legs && posting.legs[1] in posting.legs;
  }

  /** When an adjustment is approved. A party account takes any currency, the others only that of the books. */
  lemma ApproveSucceedsIff(desk: Desk, id: nat, user: int)
    requires Inv(desk) && id < |desk.adjustments|
    ensures var a := desk.adjustments[id];
            ApproveAdjustment(desk, id, user).Success? <==>
            && a.requestedBy != user && a.status == PendingApproval
            && !a.currency.Unsupported?
            && (a.kind in {Correction, DisputeResolution} || a.currency == desk.book.currency)
            && (a.kind in {ExcessRefund, ExcessRetained} || a.liableId != 0)
  {
    var a := desk.adjustments[id];
    assert AdjustmentValid(a);
    if a.status == PendingApproval {
      var posting := Posting(Key(FromAdjustment, id, CodAdjustment), a.currency, AdjustmentLegs(a));
      FreshKey(desk, posting.key);
      AdjustmentPostsIff(desk.book, posting, a);
    }
  }

  // ----- Counting -----------------------------------------------------------

  predicate HasLine(items: seq<CountItem>, obligation: nat) {
    exists k :: 0 <= k < |items| && items[k].obligation == obligation
  }

  /** A count starts with one MISSING line for each of the oldest 5000 obligations held, at what is left on it. */
  predicate Seeded(obligations: seq<Obligation>, party: Holder, order: seq<nat>, items: seq<CountItem>) {
    && |items| == (if |order| <= 5000 then |order| else 5000)
    && (forall k :: 0 <= k < |items| ==>
          && order[k] < |obligations|
          && items[k] == CountItem(order[k], obligations[order[k]].collected - obligations[order[k]].remitted, 0, Missing))
    && (|order| <= 5000 ==>
          forall i :: 0 <= i < |obligations| ==>
            (HasLine(items, i) <==>
             obligations[i].status in {AgentCollected, BranchReceived, FranchiseConfirmed} && obligations[i].custodian == Some(party)))
  }

  predicate BeingCounted(counts: seq<Count>, party: Holder) {
    exists c :: 0 <= c < |counts| && counts[c].party == party && counts[c].status == CountOpen
  }

  lemma SeededLines(obligations: seq<Obligation>, party: Holder, order: seq<nat>)
    requires ListsHeld(obligations, party, order)
    ensures Seeded(obligations, party, order, SeedItems(obligations, if |order| > HELD_LIMIT then order[..HELD_LIMIT] else order))
  {
    var items := SeedItems(obligations, if |order| > HELD_LIMIT then order[..HELD_LIMIT] else order);
    if |order| <= 5000 {
      forall i | 0 <= i < |obligations|
        ensures HasLine(items, i) <==> HeldBy(obligations[i], party)
      {
        if HeldBy(obligations[i], party) {
          assert i in order;
          var k :| 0 <= k < |order| && order[k] == i;
          assert items[k].obligation == i;
        }
      }
    }
  }

  lemma OpenCountEffect(desk: Desk, party: Holder, order: seq<nat>)
    requires ListsHeld(desk.obligations, party, order) && OpenReconciliation(desk, party, order).Success?
    ensures var after := OpenReconciliation(desk, party, order).value;
            && |after.counts| == |desk.counts| + 1
            && var c := after.counts[|desk.counts|];
               && after == desk.(counts := desk.counts + [c])
               && c.party == party && c.status == CountOpen && c.shortage == c.excess == 0
               && Seeded(desk.obligations, party, order, c.items)
  {
    OpenedCount(desk, party, order);
    SeededLines(desk.obligations, party, order);
  }

  /** A party's cash is counted once at a time. */
  lemma OpenCountSucceedsIff(desk: Desk, party: Holder, order: seq<nat>)
    requires ListsHeld(desk.obligations, party, order)
    ensures OpenReconciliation(desk, party, order).Success? <==> !party.kind.HeadOffice? && !BeingCounted(desk.counts, party)
  {
  }

  /** What is recorded on a line: the count, and how it compares with what is left on the obligation at that moment. */
  predicate Recorded(before: seq<CountItem>, obligation: nat, left: int, counted: int, after: seq<CountItem>) {
    && (|after| == if HasLine(before, obligation) then |before| else |before| + 1)
    && HasLine(after, obligation)
    && (forall k :: 0 <= k < |before| ==>
          after[k].obligation == before[k].obligation && after[k].expected == before[k].expected
          && (before[k].obligation != obligation ==> after[k] == before[k]))
    && (forall k :: 0 <= k < |after| && after[k].obligation == obligation ==>
          && after[k].counted == counted
          && (k == |before| ==> after[k].expected == left)
          && (after[k].outcome == Missing <==> counted == 0)
          && (after[k].outcome == Short <==> counted != 0 && counted < left)
          && (after[k].outcome == Excess <==> counted != 0 && counted > left)
          && (after[k].outcome == Matched <==> counted != 0 && counted == left))
  }

  /** The upsert rewrites the first line of its obligation, or appends one. */
  lemma {:induction false} UpsertAt(items: seq<CountItem>, item: CountItem) returns (k: nat)
    ensures k <= |items| && forall l :: 0 <= l < k ==> items[l].obligation != item.obligation
    ensures if k == |items| then UpsertItem(items, item) == items + [item]
            else items[k].obligation == item.obligation
                 && UpsertItem(items, item) == items[k := items[k].(counted := item.counted, outcome := item.outcome)]
  {
    if items == [] || items[0].obligation == item.obligation {
      k := 0;
    } else {
      k := UpsertAt(items[1..], item);
      k := k + 1;
      assert forall l :: 1 <= l < k ==> items[l] == items[1..][l - 1];
    }
  }

  lemma RecordedLine(items: seq<CountItem>, item: CountItem, left: int)
    requires DistinctLines(items) && item.expected == left && item.outcome == OutcomeOf(item.counted, left)
    ensures Recorded(items, item.obligation, left, item.counted, UpsertItem(items, item))
  {
    var k := UpsertAt(items, item);
    assert UpsertItem(items, item)[k].obligation == item.obligation;
  }

  lemma RecordCountEffect(desk: Desk, count: nat, obligation: nat, counted: int)
    requires Inv(desk)
    ensures var outcome := CountWrite(desk, count, obligation, counted);
            && (outcome.Success? <==> count < |desk.counts| && obligation < |desk.obligations|)
            && (outcome.Success? ==>
                  && |outcome.value.counts| == |desk.counts|
                  && var c, ob := outcome.value.counts[count], desk.obligations[obligation];
                     && outcome.value == desk.(counts := desk.counts[count := c])
                     && c == desk.counts[count].(items := c.items)
                     && Recorded(desk.counts[count].items, obligation, ob.collected - ob.remitted, counted, c.items))
  {
    if CountWrite(desk, count, obligation, counted).Success? {
      var left := Outstanding(desk.obligations[obligation]);
      assert CountValid(desk.counts[count], |desk.obligations|);
      RecordedLine(desk.counts[count].items, CountItem(obligation, left, counted, OutcomeOf(counted, left)), left);
    }
  }

  // ----- Completing a count -------------------------------------------------

  /** The obligation was found by the count: a line names it that is not MISSING. */
  predicate Found(items: seq<CountItem>, obligation: nat) {
    exists k :: 0 <= k < |items| && items[k].obligation == obligation && items[k].outcome != Missing
  }

  /**
   * Every row in custody that was found is RECONCILED, with the custodian and
   * the cash it had and adjusted by what was counted above or below what was
   * expected; nothing else has changed.
   */
  predicate Releases(before: seq<Obligation>, items: seq<CountItem>, after: seq<Obligation>) {
    && |after| == |before|
    && (forall k :: 0 <= k < |items| && items[k].obligation < |before| && items[k].outcome != Missing ==>
          var ob := before[items[k].obligation];
          after[items[k].obligation]
          == if ob.status in {AgentCollected, BranchReceived, FranchiseConfirmed}
             then ob.(status := Reconciled, adjusted := ob.adjusted + items[k].counted - items[k].expected) else ob)
    && forall i :: 0 <= i < |before| && !Found(items, i) ==> after[i] == before[i]
  }

  lemma {:induction false} NotReleased(obligations: seq<Obligation>, items: seq<CountItem>, i: nat)
    requires i < |obligations| && forall k :: 0 <= k < |items| && items[k].outcome != Missing ==> items[k].obligation != i
    ensures MarkAllReconciled(obligations, items)[i] == obligations[i]
  {
    if items != [] {
      NotReleased(obligations, items[..|items| - 1], i);
    }
  }

  lemma {:induction false} ReleasedAt(obligations: seq<Obligation>, items: seq<CountItem>, k: nat)
    requires DistinctLines(items) && k < |items| && items[k].obligation < |obligations| && items[k].outcome != Missing
    ensures MarkAllReconciled(obligations, items)[items[k].obligation]
            == MarkReconciled(obligations[items[k].obligation], items[k].counted - items[k].expected)
  {
    var n := |items| - 1;
    if k == n {
      NotReleased(obligations, items[..n], items[k].obligation);
    } else {
      ReleasedAt(obligations, items[..n], k);
    }
  }

  lemma ReleasedRows(obligations: seq<Obligation>, items: seq<CountItem>)
    requires DistinctLines(items)
    ensures Releases(obligations, items, MarkAllReconciled(obligations, items))
  {
    forall k | 0 <= k < |items| && items[k].obligation < |obligations| && items[k].outcome != Missing
      ensures MarkAllReconciled(obligations, items)[items[k].obligation]
              == MarkReconciled(obligations[items[k].obligation], items[k].counted - items[k].expected)
    {
      ReleasedAt(obligations, items, k);
    }
    forall i | 0 <= i < |obligations| && !Found(items, i)
      ensures MarkAllReconciled(obligations, items)[i] == obligations[i]
    {
      NotReleased(obligations, items, i);
    }
  }

  /** What a line takes out of a party's custody. */
  function ReleasedFn(obligations: seq<Obligation>, party: Holder): CountItem -> int {
    (line: CountItem) =>
      if line.outcome != Missing && line.obligation < |obligations| && HeldBy(obligations[line.obligation], party)
      then obligations[line.obligation].collected - obligations[line.obligation].remitted else 0
  }

  lemma {:induction false} ReleasedCash(obligations: seq<Obligation>, items: seq<CountItem>, party: Holder)
    requires DistinctLines(items)
    ensures Sum(MarkAllReconciled(obligations, items), HeldFn(party))
            == Sum(obligations, HeldFn(party)) - Sum(items, ReleasedFn(obligations, party))
  {
    if items != [] {
      var n := |items| - 1;
      var line, earlier := items[n], MarkAllReconciled(obligations, items[..n]);
      ReleasedCash(obligations, items[..n], party);
      if line.outcome != Missing && line.obligation < |obligations| {
        NotReleased(obligations, items[..n], line.obligation);
        SumUpdate(earlier, line.obligation, MarkReconciled(earlier[line.obligation], line.counted - line.expected), HeldFn(party));
      }
    }
  }

  function ExpectedFn(): CountItem -> int {
    (line: CountItem) => line.expected
  }

  function CountedFn(): CountItem -> int {
    (line: CountItem) => line.counted
  }

  /** What was counted is what was expected less the shortage and plus the excess; either is zero only when no line has it. */
  predicate Reckons(items: seq<CountItem>, shortage: int, excess: int) {
    && shortage >= 0 && excess >= 0
    && Sum(items, CountedFn()) == Sum(items, ExpectedFn()) - shortage + excess
    && (shortage == 0 <==> forall k :: 0 <= k < |items| ==> items[k].counted >= items[k].expected)
    && (excess == 0 <==> forall k :: 0 <= k < |items| ==> items[k].counted <= items[k].expected)
  }

  lemma {:induction false} Reckoned(items: seq<CountItem>)
    ensures Reckons(items, Sum(items, ShortageFn()), Sum(items, ExcessFn()))
  {
    if items != [] {
      var n := |items| - 1;
      Reckoned(items[..n]);
      assert forall k :: 0 <= k < n ==> items[..n][k] == items[k];
    }
  }

  /** The header takes the totals of its lines, which need a reason unless both are zero. */
  predicate ClosesCount(before: seq<Count>, id: nat, reason: string, after: seq<Count>) {
    && id < |before| == |after|
    && var row := after[id];
       && after == before[id := row]
       && row == before[id].(status := row.status, shortage := row.shortage, excess := row.excess)
       && Reckons(before[id].items, row.shortage, row.excess)
       && row.status == (if row.shortage == row.excess == 0 then CountCompleted else CountCompletedWithVariance)
       && (row.status == CountCompletedWithVariance ==> |reason| >= 3)
  }

  lemma CompleteEffect(desk: Desk, id: nat, reason: string)
    requires Inv(desk) && CompleteReconciliation(desk, id, reason).Success?
    ensures id < |desk.counts|
    ensures var after, c := CompleteReconciliation(desk, id, reason).value, desk.counts[id];
            && c.status == CountOpen
            && ClosesCount(desk.counts, id, reason, after.counts)
            && Releases(desk.obligations, c.items, after.obligations)
            && forall party: Holder :: Held(after, party) == Held(desk, party) - Sum(c.items, ReleasedFn(desk.obligations, party))
  {
    var after, c := CompleteReconciliation(desk, id, reason).value, desk.counts[id];
    assert CountValid(c, |desk.obligations|);
    ReleasedRows(desk.obligations, c.items);
    Reckoned(c.items);
    forall party: Holder
      ensures Held(after, party) == Held(desk, party) - Sum(c.items, ReleasedFn(desk.obligations, party))
    {
      ReleasedCash(desk.obligations, c.items, party);
    }
  }

  predicate SomeShort(items: seq<CountItem>) {
    exists k :: 0 <= k < |items| && items[k].counted < items[k].expected
  }

  predicate SomeOver(items: seq<CountItem>) {
    exists k :: 0 <= k < |items| && items[k].counted > items[k].expected
  }

  lemma CountPostsIff(book: Book, posting: Posting, counted: Holder, shortage: int, excess: int)
    requires Find(book.journals, posting.key).None? && Custodial(counted.kind)
    requires shortage >= 0 && excess >= 0 && (shortage != 0 || excess != 0) && posting.legs == CountLegs(counted, shortage, excess)
    ensures Post(book, posting).Success? <==>
            && counted.id != 0 && !posting.currency.Unsupported?
            && (excess > 0 ==> posting.currency == book.currency)
  {
    PostAcceptedIff(book, posting);
    CountLegSums(counted, shortage, excess, DebitFn());
    CountLegSums(counted, shortage, excess, CreditFn());
    var legs := posting.legs;
    assert legs[0] in legs && legs[1] in legs;
    assert excess > 0 ==> legs[|legs| - 1] in legs && legs[|legs| - 1] == Cr(CodExcessPayable, excess);
  }

  /** When a count is completed: once, and with a reason and a posting that is accepted when any line is out. */
  lemma CompleteSucceedsIff(desk: Desk, id: nat, reason: string)
    requires Inv(desk) && id < |desk.counts|
    ensures var c := desk.counts[id];
            CompleteReconciliation(desk, id, reason).Success? <==>
            && c.status == CountOpen
            && (SomeShort(c.items) || SomeOver(c.items) ==>
                  && |reason| >= 3 && c.party.id != 0 && !c.currency.Unsupported?
                  && (SomeOver(c.items) ==> c.currency == desk.book.currency))
  {
    var c := desk.counts[id];
    assert CountValid(c, |desk.obligations|);
    Reckoned(c.items);
    var shortage, excess := Sum(c.items, ShortageFn()), Sum(c.items, ExcessFn());
    if c.status == CountOpen && (shortage != 0 || excess != 0) {
      var posting := Posting(Key(FromCod, id, Reconciliation), c.currency, CountLegs(c.party, shortage, excess));
      FreshKey(desk, posting.key);
      CountPostsIff(desk.book, posting, c.party, shortage, excess);
    }
  }
}
