/**
 * Cash-on-delivery custody: internal/cod/cod.go and internal/cod/reconciliation.go
 * over the statements of db/queries/cod.sql and the constraints of
 * db/migrations/0022_cod.up.sql.
 *
 * Each function is one database transaction: it returns the tables it commits,
 * or the error with which it rolls back.
 */
module CodModel {
  import opened Sums
  import opened Ledger

  datatype HolderKind = Agent | Unit | Franchise | HeadOffice

  datatype Holder = Holder(kind: HolderKind, id: int)

  datatype Status =
    | Expected | AgentCollected | BranchReceived | FranchiseConfirmed
    | Reconciled | Remitted | Closed | Cancelled | WrittenOff

  /**
   * One COD shipment. `custodian` is the custody pointer. `lastHolder` is a
   * history variable that is not a column: it remembers the pointer after a
   * remittance has cleared it.
   */
  datatype Obligation = Obligation(
    shipment: int, expected: int, currency: Currency, status: Status,
    custodian: Option<Holder>, collected: int, remitted: int, adjusted: int,
    lastHolder: Option<Holder>)

  datatype DeviceEvent = DeviceEvent(device: string, event: string)

  datatype CollectionRow = CollectionRow(
    obligation: nat, amount: int, agent: int, attempt: Option<int>, device: Option<DeviceEvent>, journal: nat)

  datatype Item = Item(obligation: nat, amount: int)

  datatype TransferStatus = Declared | Accepted

  datatype Transfer = Transfer(
    from: Holder, to: Holder, declared: int, currency: Currency, items: seq<Item>,
    status: TransferStatus, accepted: int)

  datatype Beneficiary = ToHeadOffice | ToConsignor | ToCustomer

  datatype RemittanceStatus = Initiated | Confirmed

  datatype RemittanceRow = RemittanceRow(
    from: Holder, beneficiary: Beneficiary, amount: int, currency: Currency, items: seq<Item>,
    status: RemittanceStatus)

  datatype AdjustmentKind =
    | ShortageRecovery | ShortageWriteOff | ExcessRefund | ExcessRetained
    | Waiver | Correction | DisputeResolution

  datatype AdjustmentStatus = PendingApproval | AdjustmentPosted

  datatype Adjustment = Adjustment(
    obligation: nat, kind: AdjustmentKind, amount: int, currency: Currency,
    liableKind: Option<HolderKind>, liableId: int,
    requestedBy: int, approvedBy: Option<int>, status: AdjustmentStatus)

  datatype CountOutcome = Matched | Short | Excess | Missing

  datatype CountItem = CountItem(obligation: nat, expected: int, counted: int, outcome: CountOutcome)

  datatype CountStatus = CountOpen | CountCompleted | CountCompletedWithVariance

  datatype Count = Count(
    party: Holder, currency: Currency, items: seq<CountItem>, status: CountStatus, shortage: int, excess: int)

  /** The COD tables of one organization, with its ledger. */
  datatype Desk = Desk(
    obligations: seq<Obligation>, collections: seq<CollectionRow>, transfers: seq<Transfer>,
    remittances: seq<RemittanceRow>, adjustments: seq<Adjustment>, counts: seq<Count>, book: Book)

  datatype CodError =
    | Invalid | NotCod | AlreadyCollected | WrongCustodian | InvalidState | MixedCurrency
    | TransferClosed | SelfApproval | NotApproved | NothingToRemit | Unknown
    | ConstraintViolated | LedgerRefused(error: LedgerError)

  // ----- Custodians ---------------------------------------------------------

  predicate Custodial(kind: HolderKind) {
    !kind.HeadOffice?
  }

  function ReceivableAccountFor(kind: HolderKind): AccountCode
    requires Custodial(kind)
  {
    match kind
    case Agent => CodReceivableAgent
    case Unit => CodReceivableBranch
    case Franchise => CodReceivableFranchise
  }

  function PartyOf(holder: Holder): Party
    requires Custodial(holder.kind)
  {
    match holder.kind
    case Agent => Party(AgentParty, holder.id)
    case Unit => Party(UnitParty, holder.id)
    case Franchise => Party(FranchiseParty, holder.id)
  }

  function StatusForCustodian(kind: HolderKind): Status
    requires Custodial(kind)
  {
    match kind
    case Agent => AgentCollected
    case Unit => BranchReceived
    case Franchise => FranchiseConfirmed
  }

  predicate InCustody(status: Status) {
    status in {AgentCollected, BranchReceived, FranchiseConfirmed}
  }

  function Outstanding(ob: Obligation): int {
    ob.collected - ob.remitted
  }

  // ----- Obligations --------------------------------------------------------

  function FindByShipment(obligations: seq<Obligation>, shipment: int): (found: Option<nat>)
    ensures found.Some? ==> found.value < |obligations| && obligations[found.value].shipment == shipment
    ensures found.None? ==> forall ob :: ob in obligations ==> ob.shipment != shipment
  {
    if obligations == [] then None
    else
      var last := |obligations| - 1;
      if obligations[last].shipment == shipment then Some(last)
      else FindByShipment(obligations[..last], shipment)
  }

  function OpenObligation(desk: Desk, shipment: int, amount: int, currency: Currency): Result<Desk, CodError> {
    if amount <= 0 then Failure(NotCod)
    else if FindByShipment(desk.obligations, shipment).Some? then Success(desk)
    else
      var ob := Obligation(shipment, amount, currency, Expected, None, 0, 0, 0, None);
      Success(desk.(obligations := desk.obligations + [ob]))
  }

  // ----- Collection ---------------------------------------------------------

  datatype CollectRequest = CollectRequest(
    shipment: int, amount: int, agent: int, attempt: Option<int>, device: Option<DeviceEvent>)

  datatype Collected = CollectedRow(desk: Desk, collection: nat, duplicate: bool)

  /** The two replay probes: one collection per delivery attempt, one per device event. */
  predicate SameAttempt(row: CollectionRow, attempt: Option<int>) {
    attempt.Some? && row.attempt == attempt
  }

  predicate SameDevice(row: CollectionRow, device: Option<DeviceEvent>) {
    device.Some? && row.device == device
  }

  function FindByAttempt(rows: seq<CollectionRow>, attempt: Option<int>): (found: Option<nat>)
    ensures found.Some? ==> found.value < |rows| && SameAttempt(rows[found.value], attempt)
    ensures found.None? ==> forall row :: row in rows ==> !SameAttempt(row, attempt)
  {
    if rows == [] then None
    else
      var last := |rows| - 1;
      if SameAttempt(rows[last], attempt) then Some(last) else FindByAttempt(rows[..last], attempt)
  }

  function FindByDevice(rows: seq<CollectionRow>, device: Option<DeviceEvent>): (found: Option<nat>)
    ensures found.Some? ==> found.value < |rows| && SameDevice(rows[found.value], device)
    ensures found.None? ==> forall row :: row in rows ==> !SameDevice(row, device)
  {
    if rows == [] then None
    else
      var last := |rows| - 1;
      if SameDevice(rows[last], device) then Some(last) else FindByDevice(rows[..last], device)
  }

  function Replay(desk: Desk, req: CollectRequest): Option<nat> {
    var byAttempt := FindByAttempt(desk.collections, req.attempt);
    if byAttempt.Some? then byAttempt else FindByDevice(desk.collections, req.device)
  }

  function CollectionLegs(amount: int, agent: int): seq<Leg> {
    [DrParty(CodReceivableAgent, amount, Party(AgentParty, agent)), Cr(CodPayableConsignor, amount)]
  }

  function MarkCollected(ob: Obligation, amount: int, agent: int): Obligation {
    var holder := Holder(Agent, agent);
    ob.(status := AgentCollected, collected := ob.collected + amount,
        custodian := Some(holder), lastHolder := Some(holder))
  }

  /**
   * The writing half of RecordCollection. It runs after the probes and does not
   * repeat them: what it relies on is the compare-and-swap on EXPECTED and the
   * two unique indexes, so it may be scheduled arbitrarily later than the probes.
   */
  function CollectWrite(desk: Desk, req: CollectRequest): Result<Collected, CodError> {
    var found := FindByShipment(desk.obligations, req.shipment);
    if found.None? then Failure(NotCod)
    else
      var ob := desk.obligations[found.value];
      if ob.status != Expected then Failure(AlreadyCollected)
      else
        var posting := Posting(Key(FromCod, found.value, Collection), ob.currency, CollectionLegs(req.amount, req.agent));
        match Post(desk.book, posting)
        case Failure(error) => Failure(LedgerRefused(error))
        case Success(posted) =>
          if Replay(desk, req).Some? then Failure(AlreadyCollected)
          else
            var row := CollectionRow(found.value, req.amount, req.agent, req.attempt, req.device, posted.journal);
            Success(CollectedRow(
                      desk.(obligations := desk.obligations[found.value := MarkCollected(ob, req.amount, req.agent)],
                            collections := desk.collections + [row], book := posted.book),
                      |desk.collections|, false))
  }

  function RecordCollection(desk: Desk, req: CollectRequest): Result<Collected, CodError> {
    if req.amount <= 0 then Failure(Invalid)
    else
      var replay := Replay(desk, req);
      if replay.Some? then Success(CollectedRow(desk, replay.value, true)) else CollectWrite(desk, req)
  }

  // ----- Custody transfer ---------------------------------------------------

  /** LockObligationsByIDs: the rows below `limit` whose id is asked for, in id order. */
  function Locked(limit: nat, ids: seq<nat>): (locked: seq<nat>)
    ensures forall k :: 0 <= k < |locked| ==> locked[k] < limit && locked[k] in ids
    ensures forall k, l :: 0 <= k < l < |locked| ==> locked[k] < locked[l]
  {
    if limit == 0 then []
    else Locked(limit - 1, ids) + (if limit - 1 in ids then [limit - 1] else [])
  }

  /** Why one obligation cannot be handed over by `from`, when it cannot. */
  function HandOverError(ob: Obligation, from: Holder, currency: Currency): Option<CodError>
    requires Custodial(from.kind)
  {
    if ob.status != StatusForCustodian(from.kind) then Some(InvalidState)
    else if ob.custodian != Some(from) then Some(WrongCustodian)
    else if ob.currency != currency then Some(MixedCurrency)
    else None
  }

  function FirstHandOverError(obligations: seq<Obligation>, locked: seq<nat>, from: Holder, currency: Currency): (error: Option<CodError>)
    requires Custodial(from.kind)
    requires forall k :: 0 <= k < |locked| ==> locked[k] < |obligations|
    ensures error.None? <==> forall k :: 0 <= k < |locked| ==> HandOverError(obligations[locked[k]], from, currency).None?
  {
    if locked == [] then None
    else
      var n := |locked| - 1;
      var earlier := FirstHandOverError(obligations, locked[..n], from, currency);
      if earlier.Some? then earlier else HandOverError(obligations[locked[n]], from, currency)
  }

  function OutstandingItems(obligations: seq<Obligation>, locked: seq<nat>): (items: seq<Item>)
    requires forall k :: 0 <= k < |locked| ==> locked[k] < |obligations|
    ensures |items| == |locked|
    ensures forall k :: 0 <= k < |items| ==> items[k] == Item(locked[k], Outstanding(obligations[locked[k]]))
  {
    seq(|locked|, k requires 0 <= k < |locked| => Item(locked[k], Outstanding(obligations[locked[k]])))
  }

  lemma ItemsPrefix(obligations: seq<Obligation>, locked: seq<nat>, k: nat)
    requires k < |locked| && forall i :: 0 <= i < |locked| ==> locked[i] < |obligations|
    ensures Sum(OutstandingItems(obligations, locked[..k + 1]), AmountFn())
            == Sum(OutstandingItems(obligations, locked[..k]), AmountFn()) + Outstanding(obligations[locked[k]])
  {
    var before, item := OutstandingItems(obligations, locked[..k]), Item(locked[k], Outstanding(obligations[locked[k]]));
    SumAppend(before, item, AmountFn());
    assert OutstandingItems(obligations, locked[..k + 1]) == before + [item];
  }

  function AmountFn(): Item -> int {
    (item: Item) => item.amount
  }

  predicate Carries(items: seq<Item>, obligation: nat) {
    exists k :: 0 <= k < |items| && items[k].obligation == obligation
  }

  /**
   * cod_custody_transfer_items_active_idx. An item is active while INCLUDED or
   * DISPUTED, and no operation moves an item away from INCLUDED.
   */
  predicate InTransfer(transfers: seq<Transfer>, obligation: nat) {
    exists t :: 0 <= t < |transfers| && Carries(transfers[t].items, obligation)
  }

  /** The part of DeclareTransfer that runs under the row locks. */
  function DeclareLocked(desk: Desk, from: Holder, to: Holder, locked: seq<nat>): Result<Desk, CodError>
    requires Custodial(from.kind) && locked != []
    requires forall k :: 0 <= k < |locked| ==> locked[k] < |desk.obligations|
  {
    var currency := desk.obligations[locked[0]].currency;
    var error := FirstHandOverError(desk.obligations, locked, from, currency);
    if error.Some? then Failure(error.value)
    else if exists k :: 0 <= k < |locked| && InTransfer(desk.transfers, locked[k]) then Failure(InvalidState)
    else
      var items := OutstandingItems(desk.obligations, locked);
      var transfer := Transfer(from, to, Sum(items, AmountFn()), currency, items, Declared, 0);
      Success(desk.(transfers := desk.transfers + [transfer]))
  }

  function DeclareTransfer(desk: Desk, from: Holder, to: Holder, ids: seq<nat>): Result<Desk, CodError> {
    if ids == [] || from == to || !Custodial(from.kind) then Failure(Invalid)
    else if exists k :: 0 <= k < |ids| && ids[k] >= |desk.obligations| then Failure(Unknown)
    else
      var locked := Locked(|desk.obligations|, ids);
      if |locked| != |ids| then Failure(Unknown) else DeclareLocked(desk, from, to, locked)
  }

  function TransferLegs(transfer: Transfer, accepted: int): seq<Leg>
    requires Custodial(transfer.from.kind) && Custodial(transfer.to.kind)
  {
    var variance := accepted - transfer.declared;
    var giver := PartyOf(transfer.from);
    [DrParty(ReceivableAccountFor(transfer.to.kind), accepted, PartyOf(transfer.to)),
     CrParty(ReceivableAccountFor(transfer.from.kind), transfer.declared, giver)]
    + (if variance < 0 then [DrParty(CodShortage, -variance, giver)]
       else if variance > 0 then [Cr(CodExcessPayable, variance)]
       else [])
  }

  /** MoveObligationCustody: guarded on the status alone. */
  function MoveCustody(ob: Obligation, to: Holder): Obligation
    requires Custodial(to.kind)
  {
    ob.(status := StatusForCustodian(to.kind), custodian := Some(to), lastHolder := Some(to))
  }

  function Moved(obligations: seq<Obligation>, items: seq<Item>, from: HolderKind, to: Holder): (moved: Option<seq<Obligation>>)
    requires Custodial(from) && Custodial(to.kind)
    ensures moved.Some? ==> |moved.value| == |obligations|
  {
    if items == [] then Some(obligations)
    else
      var n := |items| - 1;
      var earlier := Moved(obligations, items[..n], from, to);
      var id := items[n].obligation;
      if earlier.None? || id >= |obligations| || earlier.value[id].status != StatusForCustodian(from) then None
      else Some(earlier.value[id := MoveCustody(earlier.value[id], to)])
  }

  function AcceptTransfer(desk: Desk, id: nat, accepted: int, reason: string): Result<Desk, CodError> {
    if id >= |desk.transfers| then Failure(Unknown)
    else
      var transfer := desk.transfers[id];
      if transfer.status != Declared then Failure(TransferClosed)
      else if accepted != transfer.declared && |reason| < 3 then Failure(Invalid)
      else if !Custodial(transfer.from.kind) || !Custodial(transfer.to.kind) then Failure(Invalid)
      else
        match Post(desk.book, Posting(Key(FromCod, id, CustodyTransfer), transfer.currency, TransferLegs(transfer, accepted)))
        case Failure(error) => Failure(LedgerRefused(error))
        case Success(posted) =>
          var moved := Moved(desk.obligations, transfer.items, transfer.from.kind, transfer.to);
          if moved.None? then Failure(InvalidState)
          else Success(desk.(obligations := moved.value,
                             transfers := desk.transfers[id := transfer.(status := Accepted, accepted := accepted)],
                             book := posted.book))
  }

  // ----- Remittance ---------------------------------------------------------

  predicate Remittable(status: Status, from: HolderKind)
    requires Custodial(from)
  {
    status == StatusForCustodian(from) || status == Reconciled
  }

  function CreateRemittance(desk: Desk, from: Holder, beneficiary: Beneficiary, ids: seq<nat>): Result<Desk, CodError> {
    if ids == [] || !Custodial(from.kind) then Failure(Invalid)
    else if exists k :: 0 <= k < |ids| && ids[k] >= |desk.obligations| then Failure(Unknown)
    else
      var locked := Locked(|desk.obligations|, ids);
      if exists k :: 0 <= k < |locked| && !Remittable(desk.obligations[locked[k]].status, from.kind) then Failure(InvalidState)
      else
        var items := OutstandingItems(desk.obligations, locked);
        if Sum(items, AmountFn()) <= 0 || locked == [] then Failure(NothingToRemit)
        // cod_remittances.from_type does not admit an agent.
        else if from.kind.Agent? then Failure(ConstraintViolated)
        else
          var row := RemittanceRow(from, beneficiary, Sum(items, AmountFn()), desk.obligations[locked[0]].currency, items, Initiated);
          Success(desk.(remittances := desk.remittances + [row]))
  }

  function RemittanceLegs(row: RemittanceRow): seq<Leg>
    requires Custodial(row.from.kind)
  {
    match row.beneficiary
    case ToHeadOffice =>
      [Dr(Cash, row.amount), CrParty(ReceivableAccountFor(row.from.kind), row.amount, PartyOf(row.from))]
    case _ =>
      [Dr(CodPayableConsignor, row.amount), Cr(Cash, row.amount)]
  }

  /** MarkObligationRemitted: a row in any other status is left alone. */
  function MarkRemitted(ob: Obligation, amount: int): Obligation {
    if ob.status in {BranchReceived, FranchiseConfirmed, Reconciled}
    then ob.(status := Remitted, remitted := ob.remitted + amount, custodian := None)
    else ob
  }

  function MarkAllRemitted(obligations: seq<Obligation>, items: seq<Item>): (after: seq<Obligation>)
    ensures |after| == |obligations|
  {
    if items == [] then obligations
    else
      var n := |items| - 1;
      var earlier := MarkAllRemitted(obligations, items[..n]);
      var id := items[n].obligation;
      if id < |obligations| then earlier[id := MarkRemitted(earlier[id], items[n].amount)] else earlier
  }

  function ConfirmRemittance(desk: Desk, id: nat): Result<Desk, CodError> {
    if id >= |desk.remittances| then Failure(Unknown)
    else
      var row := desk.remittances[id];
      if row.status != Initiated then Failure(InvalidState)
      else if !Custodial(row.from.kind) then Failure(Invalid)
      else
        match Post(desk.book, Posting(Key(FromCod, id, Remittance), row.currency, RemittanceLegs(row)))
        case Failure(error) => Failure(LedgerRefused(error))
        case Success(posted) =>
          Success(desk.(obligations := MarkAllRemitted(desk.obligations, row.items),
                        remittances := desk.remittances[id := row.(status := Confirmed)],
                        book := posted.book))
  }

  // ----- Adjustments --------------------------------------------------------

  function RequestAdjustment(
    desk: Desk, obligation: Option<nat>, kind: AdjustmentKind, amount: int,
    liableKind: Option<HolderKind>, liableId: int, reason: string, user: int): Result<Desk, CodError>
  {
    if |reason| < 10 || amount == 0 then Failure(Invalid)
    // cod_adjustments_target: the service never fills reconciliation_id.
    else if obligation.None? then Failure(ConstraintViolated)
    else if obligation.value >= |desk.obligations| then Failure(Unknown)
    else
      var currency := desk.obligations[obligation.value].currency;
      var row := Adjustment(obligation.value, kind, amount, currency, liableKind, liableId, user, None, PendingApproval);
      Success(desk.(adjustments := desk.adjustments + [row]))
  }

  /** Anything that is neither an agent nor a unit is booked as a franchise. */
  function LiableParty(a: Adjustment): Party {
    Party(if a.liableKind == Some(Agent) then AgentParty else if a.liableKind == Some(Unit) then UnitParty else FranchiseParty,
          a.liableId)
  }

  function AdjustmentLegs(a: Adjustment): seq<Leg> {
    var amount := Abs(a.amount);
    var party := LiableParty(a);
    match a.kind
    case ShortageWriteOff | Waiver => [Dr(CodShortageWrittenOff, amount), CrParty(CodShortage, amount, party)]
    case ShortageRecovery => [Dr(Cash, amount), CrParty(CodShortage, amount, party)]
    case ExcessRefund => [Dr(CodExcessPayable, amount), Cr(Cash, amount)]
    case ExcessRetained => [Dr(CodExcessPayable, amount), Cr(OtherRevenue, amount)]
    case Correction | DisputeResolution =>
      if a.amount > 0
      then [DrParty(CodShortage, amount, party), CrParty(CodReceivableFranchise, amount, party)]
      else [DrParty(CodReceivableFranchise, amount, party), CrParty(CodShortage, amount, party)]
  }

  function ApproveAdjustment(desk: Desk, id: nat, user: int): Result<Desk, CodError> {
    if id >= |desk.adjustments| then Failure(Unknown)
    else
      var a := desk.adjustments[id];
      if a.requestedBy == user then Failure(SelfApproval)
      else if a.status != PendingApproval then Failure(NotApproved)
      else
        match Post(desk.book, Posting(Key(FromAdjustment, id, CodAdjustment), a.currency, AdjustmentLegs(a)))
        case Failure(error) => Failure(LedgerRefused(error))
        case Success(posted) =>
          Success(desk.(adjustments := desk.adjustments[id := a.(status := AdjustmentPosted, approvedBy := Some(user))],
                        book := posted.book))
  }

  // ----- Reconciliation -----------------------------------------------------

  const HELD_LIMIT: nat := 5000

  predicate HeldBy(ob: Obligation, party: Holder) {
    InCustody(ob.status) && ob.custodian == Some(party)
  }

  /** `order` lists what the party holds, oldest collection first. */
  predicate ListsHeld(obligations: seq<Obligation>, party: Holder, order: seq<nat>) {
    && (forall k :: 0 <= k < |order| ==> order[k] < |obligations| && HeldBy(obligations[order[k]], party))
    && (forall i :: 0 <= i < |obligations| && HeldBy(obligations[i], party) ==> i in order)
    && (forall k, l :: 0 <= k < l < |order| ==> order[k] != order[l])
  }

  function SeedItems(obligations: seq<Obligation>, held: seq<nat>): (items: seq<CountItem>)
    requires forall k :: 0 <= k < |held| ==> held[k] < |obligations|
    ensures |items| == |held|
    ensures forall k :: 0 <= k < |items| ==> items[k] == CountItem(held[k], Outstanding(obligations[held[k]]), 0, Missing)
  {
    seq(|held|, k requires 0 <= k < |held| => CountItem(held[k], Outstanding(obligations[held[k]]), 0, Missing))
  }

  /** The count is against what the party holds, seeded line by line. */
  function OpenHeld(desk: Desk, party: Holder, held: seq<nat>): Result<Desk, CodError>
    requires forall k :: 0 <= k < |held| ==> held[k] < |desk.obligations|
  {
    if exists c :: 0 <= c < |desk.counts| && desk.counts[c].party == party && desk.counts[c].status == CountOpen then Failure(InvalidState)
    else
      var currency := if held == [] then desk.book.currency else desk.obligations[held[|held| - 1]].currency;
      Success(desk.(counts := desk.counts + [Count(party, currency, SeedItems(desk.obligations, held), CountOpen, 0, 0)]))
  }

  function OpenReconciliation(desk: Desk, party: Holder, order: seq<nat>): Result<Desk, CodError>
    requires ListsHeld(desk.obligations, party, order)
  {
    if !Custodial(party.kind) then Failure(Invalid)
    else OpenHeld(desk, party, if |order| > HELD_LIMIT then order[..HELD_LIMIT] else order)
  }

  function OutcomeOf(counted: int, expected: int): CountOutcome {
    if counted == 0 then Missing
    else if counted < expected then Short
    else if counted > expected then Excess
    else Matched
  }

  /** The upsert keeps the expected amount of a line that already exists. */
  function UpsertItem(items: seq<CountItem>, item: CountItem): seq<CountItem> {
    if items == [] then [item]
    else if items[0].obligation == item.obligation
    then [items[0].(counted := item.counted, outcome := item.outcome)] + items[1..]
    else [items[0]] + UpsertItem(items[1..], item)
  }

  /** The writing half of RecordCount: the reconciliation row is read but not locked. */
  function CountWrite(desk: Desk, count: nat, obligation: nat, counted: int): Result<Desk, CodError> {
    if count >= |desk.counts| || obligation >= |desk.obligations| then Failure(Unknown)
    else
      var c := desk.counts[count];
      var expected := Outstanding(desk.obligations[obligation]);
      var item := CountItem(obligation, expected, counted, OutcomeOf(counted, expected));
      Success(desk.(counts := desk.counts[count := c.(items := UpsertItem(c.items, item))]))
  }

  function ShortageFn(): CountItem -> int {
    (item: CountItem) => Max(item.expected - item.counted, 0)
  }

  function ExcessFn(): CountItem -> int {
    (item: CountItem) => Max(item.counted - item.expected, 0)
  }

  function CountLegs(party: Holder, shortage: int, excess: int): seq<Leg>
    requires Custodial(party.kind)
  {
    var account := ReceivableAccountFor(party.kind);
    (if shortage > 0
     then [DrParty(CodShortage, shortage, PartyOf(party)), CrParty(account, shortage, PartyOf(party))] else [])
    + (if excess > 0
       then [DrParty(account, excess, PartyOf(party)), Cr(CodExcessPayable, excess)] else [])
  }

  function MarkReconciled(ob: Obligation, adjusted: int): Obligation {
    if InCustody(ob.status) then ob.(status := Reconciled, adjusted := ob.adjusted + adjusted) else ob
  }

  function MarkAllReconciled(obligations: seq<Obligation>, items: seq<CountItem>): (after: seq<Obligation>)
    ensures |after| == |obligations|
  {
    if items == [] then obligations
    else
      var n := |items| - 1;
      var earlier := MarkAllReconciled(obligations, items[..n]);
      var id := items[n].obligation;
      if items[n].outcome != Missing && id < |obligations|
      then earlier[id := MarkReconciled(earlier[id], items[n].counted - items[n].expected)]
      else earlier
  }

  function CompleteReconciliation(desk: Desk, id: nat, reason: string): Result<Desk, CodError> {
    if id >= |desk.counts| then Failure(Unknown)
    else
      var c := desk.counts[id];
      var shortage, excess := Sum(c.items, ShortageFn()), Sum(c.items, ExcessFn());
      var hasVariance := shortage != 0 || excess != 0;
      if c.status != CountOpen then Failure(InvalidState)
      else if hasVariance && |reason| < 3 then Failure(Invalid)
      else
        var obligations := MarkAllReconciled(desk.obligations, c.items);
        var status := if hasVariance then CountCompletedWithVariance else CountCompleted;
        var counts := desk.counts[id := c.(status := status, shortage := shortage, excess := excess)];
        if !hasVariance then Success(desk.(obligations := obligations, counts := counts))
        else if !Custodial(c.party.kind) then Failure(Invalid)
        else
          match Post(desk.book, Posting(Key(FromCod, id, Reconciliation), c.currency, CountLegs(c.party, shortage, excess)))
          case Failure(error) => Failure(LedgerRefused(error))
          case Success(posted) => Success(desk.(obligations := obligations, counts := counts, book := posted.book))
  }

  // ----- Position -----------------------------------------------------------

  /** SumCODInCustody: what the obligation rows say a party holds. */
  function HeldFn(party: Holder): Obligation -> int {
    (ob: Obligation) => if HeldBy(ob, party) then Outstanding(ob) else 0
  }

  function Held(desk: Desk, party: Holder): int {
    Sum(desk.obligations, HeldFn(party))
  }

  function PartyBalance(desk: Desk, party: Holder): int
    requires Custodial(party.kind)
  {
    Balance(desk.book, PartyFn(PartyOf(party)))
  }

  datatype Position = Position(held: int, ledger: int, reconciled: bool)

  function CustodyPosition(desk: Desk, party: Holder): Result<Position, CodError> {
    if !Custodial(party.kind) then Failure(Invalid)
    else
      var held, ledger := Held(desk, party), PartyBalance(desk, party);
      Success(Position(held, ledger, held == ledger))
  }

  // ----- Runs ---------------------------------------------------------------

  datatype Event =
    | Open(shipment: int, amount: int, currency: Currency)
    | Collect(request: CollectRequest)
    | Declare(from: Holder, to: Holder, ids: seq<nat>)
    | Accept(transfer: nat, accepted: int, reason: string)
    | Remit(from: Holder, beneficiary: Beneficiary, ids: seq<nat>)
    | Confirm(remittance: nat)
    | Request(obligation: Option<nat>, kind: AdjustmentKind, amount: int, liableKind: Option<HolderKind>, liableId: int, reason: string, user: int)
    | Approve(adjustment: nat, user: int)
    | OpenCount(party: Holder, order: seq<nat>)
    | RecordCount(count: nat, line: nat, counted: int)
    | Complete(count: nat, reason: string)

  function Committed(desk: Desk, outcome: Result<Desk, CodError>): Desk {
    if outcome.Success? then outcome.value else desk
  }

  /** One scheduled transaction. A collection is scheduled as its writing half. */
  function Step(desk: Desk, event: Event): Desk {
    match event
    case Open(shipment, amount, currency) => Committed(desk, OpenObligation(desk, shipment, amount, currency))
    case Collect(request) =>
      if request.amount <= 0 then desk
      else
        var outcome := CollectWrite(desk, request);
        if outcome.Success? then outcome.value.desk else desk
    case Declare(from, to, ids) => Committed(desk, DeclareTransfer(desk, from, to, ids))
    case Accept(transfer, accepted, reason) => Committed(desk, AcceptTransfer(desk, transfer, accepted, reason))
    case Remit(from, beneficiary, ids) => Committed(desk, CreateRemittance(desk, from, beneficiary, ids))
    case Confirm(remittance) => Committed(desk, ConfirmRemittance(desk, remittance))
    case Request(obligation, kind, amount, liableKind, liableId, reason, user) =>
      Committed(desk, RequestAdjustment(desk, obligation, kind, amount, liableKind, liableId, reason, user))
    case Approve(adjustment, user) => Committed(desk, ApproveAdjustment(desk, adjustment, user))
    case OpenCount(party, order) =>
      if ListsHeld(desk.obligations, party, order) then Committed(desk, OpenReconciliation(desk, party, order)) else desk
    case RecordCount(count, obligation, counted) => Committed(desk, CountWrite(desk, count, obligation, counted))
    case Complete(count, reason) => Committed(desk, CompleteReconciliation(desk, count, reason))
  }

  function Run(desk: Desk, events: seq<Event>): Desk {
    if events == [] then desk else Step(Run(desk, events[..|events| - 1]), events[|events| - 1])
  }

  function EmptyDesk(currency: Currency): Desk {
    Desk([], [], [], [], [], [], Book(currency, []))
  }
}
