/**
 * The COD service as it runs: tables updated in place, rows checked and totals
 * accumulated in loops. Every method commits exactly the transaction of
 * CodModel, or leaves every table as it was and reports the same error.
 */
module CodService {
  import opened Sums
  import opened Ledger
  import M = CodModel
  import opened CodModel
  import opened CodInvariant
  import CodLaw
  import opened CodBooks
  import opened CodEffects

  /** A failed check on a prefix of the locked rows is the error of the whole list. */
  lemma {:induction false} ErrorSticks(obligations: seq<Obligation>, locked: seq<nat>, k: nat, from: Holder, currency: Currency)
    requires Custodial(from.kind) && k <= |locked|
    requires forall i :: 0 <= i < |locked| ==> locked[i] < |obligations|
    requires FirstHandOverError(obligations, locked[..k], from, currency).Some?
    ensures FirstHandOverError(obligations, locked, from, currency) == FirstHandOverError(obligations, locked[..k], from, currency)
  {
    if k == |locked| {
      assert locked[..k] == locked;
    } else {
      assert locked[..|locked| - 1][..k] == locked[..k];
      ErrorSticks(obligations, locked[..|locked| - 1], k, from, currency);
    }
  }

  /** One more locked row: the scan goes on past it exactly when it can be handed over. */
  lemma HandOverPrefix(obligations: seq<Obligation>, locked: seq<nat>, k: nat, from: Holder, currency: Currency)
    requires Custodial(from.kind) && k < |locked|
    requires forall i :: 0 <= i < |locked| ==> locked[i] < |obligations|
    requires FirstHandOverError(obligations, locked[..k], from, currency).None?
    ensures var error := HandOverError(obligations[locked[k]], from, currency);
            if error.None? then FirstHandOverError(obligations, locked[..k + 1], from, currency).None?
            else FirstHandOverError(obligations, locked, from, currency) == error
  {
    assert locked[..k + 1][..k] == locked[..k];
    if HandOverError(obligations[locked[k]], from, currency).Some? {
      ErrorSticks(obligations, locked, k + 1, from, currency);
    }
  }

  /** A row that refuses to move stops the whole hand-over. */
  lemma {:induction false} RefusalSticks(obligations: seq<Obligation>, items: seq<Item>, k: nat, from: HolderKind, to: Holder)
    requires Custodial(from) && Custodial(to.kind) && k <= |items|
    requires Moved(obligations, items[..k], from, to).None?
    ensures Moved(obligations, items, from, to).None?
  {
    if k == |items| {
      assert items[..k] == items;
    } else {
      assert items[..|items| - 1][..k] == items[..k];
      RefusalSticks(obligations, items[..|items| - 1], k, from, to);
    }
  }

  /** A transaction commits its outcome, or changes nothing and reports why. */
  predicate Commits(before: Desk, outcome: Result<Desk, CodError>, after: Desk, error: Option<CodError>) {
    && after == Committed(before, outcome)
    && error == if outcome.Failure? then Some(outcome.error) else None
  }

  class Service {
    var obligations: seq<Obligation>
    var collections: seq<CollectionRow>
    var transfers: seq<Transfer>
    var remittances: seq<RemittanceRow>
    var adjustments: seq<Adjustment>
    var counts: seq<Count>
    var book: Book

    constructor (currency: Currency)
      ensures Valid() && Snapshot() == EmptyDesk(currency)
    {
      obligations, collections, transfers, remittances, adjustments, counts := [], [], [], [], [], [];
      book := Book(currency, []);
    }

    function Snapshot(): Desk
      reads this
    {
      Desk(obligations, collections, transfers, remittances, adjustments, counts, book)
    }

    ghost predicate Valid()
      reads this
    {
      Inv(Snapshot())
    }

    /** The writing half of a collection: the compare-and-swap on the row, the posting and the insert. */
    method WriteCollection(req: CollectRequest) returns (r: Result<(nat, bool), CodError>)
      modifies this
      ensures var outcome := CollectWrite(old(Snapshot()), req);
              if outcome.Success? then Snapshot() == outcome.value.desk && r == Success((outcome.value.collection, outcome.value.duplicate))
              else Snapshot() == old(Snapshot()) && r == Failure(outcome.error)
    {
      var found := FindByShipment(obligations, req.shipment);
      if found.None? { return Failure(NotCod); }
      var ob := obligations[found.value];
      if ob.status != Expected { return Failure(AlreadyCollected); }
      var posted := Post(book, Posting(Key(FromCod, found.value, Collection), ob.currency, CollectionLegs(req.amount, req.agent)));
      if posted.Failure? { return Failure(LedgerRefused(posted.error)); }
      // The unique indexes on the attempt and on the device event.
      if FindByAttempt(collections, req.attempt).Some? || FindByDevice(collections, req.device).Some? { return Failure(AlreadyCollected); }
      r := Success((|collections|, false));
      obligations := obligations[found.value := MarkCollected(ob, req.amount, req.agent)];
      collections := collections + [CollectionRow(found.value, req.amount, req.agent, req.attempt, req.device, posted.value.journal)];
      book := posted.value.book;
    }

    /**
     * A new collection puts the cash in the agent's hands, in the rows and in
     * the books; a replay answers with a collection of the same attempt or
     * device event and changes nothing.
     */
    method RecordCollection(req: CollectRequest) returns (r: Result<(nat, bool), CodError>)
      requires Valid()
      modifies this
      ensures Valid()
      ensures var outcome := M.RecordCollection(old(Snapshot()), req);
              if outcome.Success?
              then Snapshot() == outcome.value.desk && r == Success((outcome.value.collection, outcome.value.duplicate))
              else Snapshot() == old(Snapshot()) && r == Failure(outcome.error)
      ensures r.Success? && r.value.1 ==>
                && Snapshot() == old(Snapshot()) && r.value.0 < |collections|
                && (SameAttempt(collections[r.value.0], req.attempt) || SameDevice(collections[r.value.0], req.device))
      ensures r.Success? && !r.value.1 ==>
                var found, journal := FindByShipment(old(obligations), req.shipment), |old(book.journals)|;
                && r.value.0 == |old(collections)| && found.Some?
                && PutInHand(old(obligations), found.value, req.amount, req.agent, obligations)
                && collections == old(collections) + [CollectionRow(found.value, req.amount, req.agent, req.attempt, req.device, journal)]
                && CollectionBooks(old(book), book, req.amount, req.agent)
    {
      if req.amount > 0 && CollectWrite(Snapshot(), req).Success? {
        CollectKeeps(Snapshot(), req);
        CollectEffect(Snapshot(), req);
        CollectBooks(Snapshot(), req);
      }
      if req.amount <= 0 { return Failure(Invalid); }
      var attempt := FindByAttempt(collections, req.attempt);
      if attempt.Some? { return Success((attempt.value, true)); }
      var device := FindByDevice(collections, req.device);
      if device.Some? { return Success((device.value, true)); }
      r := WriteCollection(req);
    }

    /** Checks the locked rows one by one and accumulates what they are worth. */
    method CheckHandOver(from: Holder, locked: seq<nat>) returns (error: Option<CodError>, declared: int)
      requires Custodial(from.kind) && locked != []
      requires forall k :: 0 <= k < |locked| ==> locked[k] < |obligations|
      ensures error == FirstHandOverError(obligations, locked, from, obligations[locked[0]].currency)
      ensures error.None? ==> declared == Sum(OutstandingItems(obligations, locked), AmountFn())
    {
      ghost var first := obligations[locked[0]].currency;
      var currency: Option<Currency> := None;
      declared := 0;
      for k := 0 to |locked|
        invariant currency == if k == 0 then None else Some(first)
        invariant FirstHandOverError(obligations, locked[..k], from, first).None?
        invariant declared == Sum(OutstandingItems(obligations, locked[..k]), AmountFn())
      {
        var ob := obligations[locked[k]];
        HandOverPrefix(obligations, locked, k, from, first);
        ItemsPrefix(obligations, locked, k);
        if ob.status != StatusForCustodian(from.kind) { return Some(InvalidState), 0; }
        if ob.custodian != Some(from) { return Some(WrongCustodian), 0; }
        if currency.None? {
          currency := Some(ob.currency);
        } else if currency.value != ob.currency {
          return Some(MixedCurrency), 0;
        }
        declared := declared + ob.collected - ob.remitted;
      }
      assert locked[..|locked|] == locked;
      error := None;
    }

    /** Inserts one item per locked row, until the index of active items refuses one. */
    method ListItems(locked: seq<nat>) returns (items: seq<Item>, clash: bool)
      requires forall k :: 0 <= k < |locked| ==> locked[k] < |obligations|
      ensures clash <==> exists k :: 0 <= k < |locked| && InTransfer(transfers, locked[k])
      ensures !clash ==> items == OutstandingItems(obligations, locked)
    {
      items := [];
      for k := 0 to |locked|
        invariant items == OutstandingItems(obligations, locked)[..k]
        invariant forall l :: 0 <= l < k ==> !InTransfer(transfers, locked[l])
      {
        if InTransfer(transfers, locked[k]) { return [], true; }
        items := items + [Item(locked[k], Outstanding(obligations[locked[k]]))];
      }
      clash := false;
    }

    method DeclareLocked(from: Holder, to: Holder, locked: seq<nat>) returns (error: Option<CodError>)
      requires Custodial(from.kind) && locked != []
      requires forall k :: 0 <= k < |locked| ==> locked[k] < |obligations|
      modifies this
      ensures Commits(old(Snapshot()), M.DeclareLocked(old(Snapshot()), from, to, locked), Snapshot(), error)
    {
      var declared;
      error, declared := CheckHandOver(from, locked);
      if error.Some? { return; }
      var items, clash := ListItems(locked);
      if clash { return Some(InvalidState); }
      transfers := transfers + [Transfer(from, to, declared, obligations[locked[0]].currency, items, Declared, 0)];
    }

    method DeclareTransfer(from: Holder, to: Holder, ids: seq<nat>) returns (error: Option<CodError>)
      requires Valid()
      modifies this
      ensures Valid()
      ensures Commits(old(Snapshot()), M.DeclareTransfer(old(Snapshot()), from, to, ids), Snapshot(), error)
    {
      if M.DeclareTransfer(Snapshot(), from, to, ids).Success? {
        DeclareKeeps(Snapshot(), from, to, ids);
      }
      if ids == [] || from == to || !Custodial(from.kind) { return Some(Invalid); }
      if exists k :: 0 <= k < |ids| && ids[k] >= |obligations| { return Some(Unknown); }
      var locked := Locked(|obligations|, ids);
      if |locked| != |ids| { return Some(Unknown); }
      error := DeclareLocked(from, to, locked);
    }

    /** Posts the hand-over, moves every custody pointer and closes the header, or does none of it. */
    method WriteAcceptance(id: nat, accepted: int, reason: string) returns (error: Option<CodError>)
      modifies this
      ensures Commits(old(Snapshot()), M.AcceptTransfer(old(Snapshot()), id, accepted, reason), Snapshot(), error)
    {
      if id >= |transfers| { return Some(Unknown); }
      var t := transfers[id];
      if t.status != Declared { return Some(TransferClosed); }
      if accepted != t.declared && |reason| < 3 { return Some(Invalid); }
      if !Custodial(t.from.kind) || !Custodial(t.to.kind) { return Some(Invalid); }
      var posted := Post(book, Posting(Key(FromCod, id, CustodyTransfer), t.currency, TransferLegs(t, accepted)));
      if posted.Failure? { return Some(LedgerRefused(posted.error)); }
      var rows := obligations;
      for k := 0 to |t.items|
        invariant Moved(obligations, t.items[..k], t.from.kind, t.to) == Some(rows)
      {
        var row := t.items[k].obligation;
        assert t.items[..k + 1][..k] == t.items[..k];
        if row >= |rows| || rows[row].status != StatusForCustodian(t.from.kind) {
          RefusalSticks(obligations, t.items, k + 1, t.from.kind, t.to);
          return Some(InvalidState);
        }
        rows := rows[row := MoveCustody(rows[row], t.to)];
      }
      assert t.items[..|t.items|] == t.items;
      obligations := rows;
      transfers := transfers[id := t.(status := Accepted, accepted := accepted)];
      book := posted.value.book;
      error := None;
    }

    method AcceptTransfer(id: nat, accepted: int, reason: string) returns (error: Option<CodError>)
      requires Valid()
      modifies this
      ensures Valid()
      ensures Commits(old(Snapshot()), M.AcceptTransfer(old(Snapshot()), id, accepted, reason), Snapshot(), error)
      ensures error.None? ==>
                && id < |old(transfers)|
                && var t := old(transfers)[id];
                   && Custodial(t.from.kind) && Custodial(t.to.kind)
                   && transfers == old(transfers)[id := t.(status := Accepted, accepted := accepted)]
                   && HandedOver(old(obligations), t.items, t.to, obligations)
                   && TransferBooks(old(book), book, t, accepted)
    {
      if M.AcceptTransfer(Snapshot(), id, accepted, reason).Success? {
        AcceptKeeps(Snapshot(), id, accepted, reason);
        AcceptEffect(Snapshot(), id, accepted, reason);
        AcceptBooks(Snapshot(), id, accepted, reason);
      }
      error := WriteAcceptance(id, accepted, reason);
    }

    /** The locked rows must all be remittable; the total is what is left on them. */
    method CheckRemittable(from: HolderKind, locked: seq<nat>) returns (ok: bool, total: int)
      requires Custodial(from)
      requires forall k :: 0 <= k < |locked| ==> locked[k] < |obligations|
      ensures ok <==> forall k :: 0 <= k < |locked| ==> Remittable(obligations[locked[k]].status, from)
      ensures ok ==> total == Sum(OutstandingItems(obligations, locked), AmountFn())
    {
      total := 0;
      for k := 0 to |locked|
        invariant forall l :: 0 <= l < k ==> Remittable(obligations[locked[l]].status, from)
        invariant total == Sum(OutstandingItems(obligations, locked[..k]), AmountFn())
      {
        var ob := obligations[locked[k]];
        if ob.status != StatusForCustodian(from) && ob.status != Reconciled { return false, 0; }
        ItemsPrefix(obligations, locked, k);
        total := total + ob.collected - ob.remitted;
      }
      assert locked[..|locked|] == locked;
      ok := true;
    }

    /** Locks the rows, checks and totals them, and inserts the remittance. */
    method WriteRemittance(from: Holder, beneficiary: Beneficiary, ids: seq<nat>) returns (error: Option<CodError>)
      modifies this
      ensures Commits(old(Snapshot()), M.CreateRemittance(old(Snapshot()), from, beneficiary, ids), Snapshot(), error)
    {
      if ids == [] || !Custodial(from.kind) { return Some(Invalid); }
      if exists k :: 0 <= k < |ids| && ids[k] >= |obligations| { return Some(Unknown); }
      var locked := Locked(|obligations|, ids);
      var ok, total := CheckRemittable(from.kind, locked);
      if !ok { return Some(InvalidState); }
      if total <= 0 || locked == [] { return Some(NothingToRemit); }
      if from.kind.Agent? { return Some(ConstraintViolated); }
      var items := OutstandingItems(obligations, locked);
      remittances := remittances + [RemittanceRow(from, beneficiary, total, obligations[locked[0]].currency, items, Initiated)];
      error := None;
    }

    method CreateRemittance(from: Holder, beneficiary: Beneficiary, ids: seq<nat>) returns (error: Option<CodError>)
      requires Valid()
      modifies this
      ensures Valid()
      ensures Commits(old(Snapshot()), M.CreateRemittance(old(Snapshot()), from, beneficiary, ids), Snapshot(), error)
      ensures error.None? <==> ids != [] && from.kind in {Unit, Franchise} && CanRemit(old(obligations), ids, from.kind)
      ensures error.None? ==>
                && |remittances| == |old(remittances)| + 1
                && var row := remittances[|old(remittances)|];
                   && remittances == old(remittances) + [row] && obligations == old(obligations) && book == old(book)
                   && row.from == from && row.beneficiary == beneficiary && row.status == Initiated
                   && row.amount == Sum(row.items, AmountFn())
                   && ListsOnce(obligations, ids, row.items)
    {
      RemitSucceedsIff(Snapshot(), from, beneficiary, ids);
      if M.CreateRemittance(Snapshot(), from, beneficiary, ids).Success? {
        RemitKeeps(Snapshot(), from, beneficiary, ids);
        RemitEffect(Snapshot(), from, beneficiary, ids);
      }
      error := WriteRemittance(from, beneficiary, ids);
    }

    /** Posts the remittance, closes its rows and its header. */
    method WriteConfirmation(id: nat) returns (error: Option<CodError>)
      modifies this
      ensures Commits(old(Snapshot()), M.ConfirmRemittance(old(Snapshot()), id), Snapshot(), error)
    {
      if id >= |remittances| { return Some(Unknown); }
      var row := remittances[id];
      if row.status != Initiated { return Some(InvalidState); }
      if !Custodial(row.from.kind) { return Some(Invalid); }
      var posted := Post(book, Posting(Key(FromCod, id, Remittance), row.currency, RemittanceLegs(row)));
      if posted.Failure? { return Some(LedgerRefused(posted.error)); }
      var rows := obligations;
      for k := 0 to |row.items|
        invariant rows == MarkAllRemitted(obligations, row.items[..k])
      {
        var item := row.items[k];
        assert row.items[..k + 1][..k] == row.items[..k];
        if item.obligation < |rows| {
          rows := rows[item.obligation := MarkRemitted(rows[item.obligation], item.amount)];
        }
      }
      assert row.items[..|row.items|] == row.items;
      obligations := rows;
      remittances := remittances[id := row.(status := Confirmed)];
      book := posted.value.book;
      error := None;
    }

    method ConfirmRemittance(id: nat) returns (error: Option<CodError>)
      requires Valid()
      modifies this
      ensures Valid()
      ensures Commits(old(Snapshot()), M.ConfirmRemittance(old(Snapshot()), id), Snapshot(), error)
      ensures error.None? ==>
                && id < |old(remittances)|
                && var row := old(remittances)[id];
                   && row.status == Initiated && Custodial(row.from.kind)
                   && remittances == old(remittances)[id := row.(status := Confirmed)]
                   && PaidIn(old(obligations), row.items, obligations)
                   && RemittanceBooks(old(book), book, row)
    {
      if M.ConfirmRemittance(Snapshot(), id).Success? {
        ConfirmKeeps(Snapshot(), id);
        ConfirmEffect(Snapshot(), id);
        ConfirmBooks(Snapshot(), id);
      }
      error := WriteConfirmation(id);
    }

    /** A second person's approval posts the adjustment against the party that is liable. */
    method ApproveAdjustment(id: nat, user: int) returns (error: Option<CodError>)
      requires Valid()
      modifies this
      ensures Valid()
      ensures Commits(old(Snapshot()), M.ApproveAdjustment(old(Snapshot()), id, user), Snapshot(), error)
      ensures error.None? ==>
                && id < |old(adjustments)|
                && var a := old(adjustments)[id];
                   && a.requestedBy != user && a.status == PendingApproval
                   && adjustments == old(adjustments)[id := a.(status := AdjustmentPosted, approvedBy := Some(user))]
                   && obligations == old(obligations) && transfers == old(transfers)
                   && AdjustmentBooks(old(book), book, a)
    {
      if M.ApproveAdjustment(Snapshot(), id, user).Success? {
        ApproveKeeps(Snapshot(), id, user);
        CodLaw.ApprovedTables(Snapshot(), id, user);
        ApproveBooks(Snapshot(), id, user);
      }
      if id >= |adjustments| { return Some(Unknown); }
      var a := adjustments[id];
      if a.requestedBy == user { return Some(SelfApproval); }
      if a.status != PendingApproval { return Some(NotApproved); }
      var posted := Post(book, Posting(Key(FromAdjustment, id, CodAdjustment), a.currency, AdjustmentLegs(a)));
      if posted.Failure? { return Some(LedgerRefused(posted.error)); }
      adjustments := adjustments[id := a.(status := AdjustmentPosted, approvedBy := Some(user))];
      book := posted.value.book;
      error := None;
    }

    /** One MISSING line per held obligation, and the currency of the last one. */
    method SeedCount(held: seq<nat>) returns (items: seq<CountItem>, currency: Currency)
      requires forall k :: 0 <= k < |held| ==> held[k] < |obligations|
      ensures items == SeedItems(obligations, held)
      ensures currency == if held == [] then book.currency else obligations[held[|held| - 1]].currency
    {
      currency := book.currency;
      items := [];
      for k := 0 to |held|
        invariant currency == if k == 0 then book.currency else obligations[held[k - 1]].currency
        invariant items == SeedItems(obligations, held)[..k]
      {
        currency := obligations[held[k]].currency;
        items := items + [CountItem(held[k], Outstanding(obligations[held[k]]), 0, Missing)];
      }
    }

    method OpenHeld(party: Holder, held: seq<nat>) returns (error: Option<CodError>)
      requires forall k :: 0 <= k < |held| ==> held[k] < |obligations|
      modifies this
      ensures Commits(old(Snapshot()), M.OpenHeld(old(Snapshot()), party, held), Snapshot(), error)
    {
      if exists c :: 0 <= c < |counts| && counts[c].party == party && counts[c].status == CountOpen { return Some(InvalidState); }
      var items, currency := SeedCount(held);
      counts := counts + [Count(party, currency, items, CountOpen, 0, 0)];
      error := None;
    }

    method OpenReconciliation(party: Holder, order: seq<nat>) returns (error: Option<CodError>)
      requires ListsHeld(obligations, party, order)
      requires Valid()
      modifies this
      ensures Valid()
      ensures Commits(old(Snapshot()), M.OpenReconciliation(old(Snapshot()), party, order), Snapshot(), error)
      ensures error.None? <==> !party.kind.HeadOffice? && !BeingCounted(old(counts), party)
      ensures error.None? ==>
                && |counts| == |old(counts)| + 1
                && var c := counts[|old(counts)|];
                   && counts == old(counts) + [c] && obligations == old(obligations)
                   && c.party == party && c.status == CountOpen && c.shortage == c.excess == 0
                   && Seeded(obligations, party, order, c.items)
    {
      OpenCountSucceedsIff(Snapshot(), party, order);
      if M.OpenReconciliation(Snapshot(), party, order).Success? {
        OpenCountKeeps(Snapshot(), party, order);
        OpenCountEffect(Snapshot(), party, order);
      }
      if !Custodial(party.kind) { return Some(Invalid); }
      error := OpenHeld(party, if |order| > HELD_LIMIT then order[..HELD_LIMIT] else order);
    }

    /** Releases every line that was found, one by one; a MISSING line stays in custody. */
    method ReleaseCounted(items: seq<CountItem>) returns (rows: seq<Obligation>)
      ensures rows == MarkAllReconciled(obligations, items)
      ensures DistinctLines(items) ==> Releases(obligations, items, rows)
    {
      if DistinctLines(items) {
        ReleasedRows(obligations, items);
      }
      rows := obligations;
      for k := 0 to |items|
        invariant rows == MarkAllReconciled(obligations, items[..k])
      {
        var item := items[k];
        assert items[..k + 1][..k] == items[..k];
        if item.outcome != Missing && item.obligation < |rows| {
          rows := rows[item.obligation := MarkReconciled(rows[item.obligation], item.counted - item.expected)];
        }
      }
      assert items[..|items|] == items;
    }

    /** Totals the lines, posts the variance, releases the rows that were found and closes the header. */
    method WriteCompletion(id: nat, reason: string) returns (error: Option<CodError>)
      modifies this
      ensures Commits(old(Snapshot()), M.CompleteReconciliation(old(Snapshot()), id, reason), Snapshot(), error)
    {
      if id >= |counts| { return Some(Unknown); }
      var c := counts[id];
      if c.status != CountOpen { return Some(InvalidState); }
      var shortage, excess := Sum(c.items, ShortageFn()), Sum(c.items, ExcessFn());
      var hasVariance := shortage != 0 || excess != 0;
      if hasVariance && |reason| < 3 { return Some(Invalid); }
      var newBook := book;
      if hasVariance {
        if !Custodial(c.party.kind) { return Some(Invalid); }
        var posted := Post(book, Posting(Key(FromCod, id, Reconciliation), c.currency, CountLegs(c.party, shortage, excess)));
        if posted.Failure? { return Some(LedgerRefused(posted.error)); }
        newBook := posted.value.book;
      }
      var rows := ReleaseCounted(c.items);
      var status := if hasVariance then CountCompletedWithVariance else CountCompleted;
      counts := counts[id := c.(status := status, shortage := shortage, excess := excess)];
      obligations := rows;
      book := newBook;
      error := None;
    }

    method CompleteReconciliation(id: nat, reason: string) returns (error: Option<CodError>)
      requires Valid()
      modifies this
      ensures Valid()
      ensures Commits(old(Snapshot()), M.CompleteReconciliation(old(Snapshot()), id, reason), Snapshot(), error)
      ensures error.None? ==>
                && id < |old(counts)|
                && var c := old(counts)[id];
                   && c.status == CountOpen && Custodial(c.party.kind)
                   && ClosesCount(old(counts), id, reason, counts)
                   && Releases(old(obligations), c.items, obligations)
                   && (forall party: Holder :: Held(Snapshot(), party) == old(Held(Snapshot(), party)) - Sum(c.items, ReleasedFn(old(obligations), party)))
                   && CountBooks(old(book), book, c.party, counts[id].shortage, counts[id].excess)
    {
      if M.CompleteReconciliation(Snapshot(), id, reason).Success? {
        CompleteKeeps(Snapshot(), id, reason);
        CompleteEffect(Snapshot(), id, reason);
        CompleteBooks(Snapshot(), id, reason);
      }
      error := WriteCompletion(id, reason);
    }
  }
}
