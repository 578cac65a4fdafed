/**
 * What each COD transaction does to the books, read off the columns of its
 * document: which party owes more, which party is short of more, and what every
 * account of the ledger gains.
 */
module CodBooks {
  import opened Sums
  import opened Ledger
  import opened CodModel
  import opened CodInvariant
  import opened CodLaw

  // ----- What a document means for an account -------------------------------

  /** The control account a kind of custodian owes on. */
  predicate OwesOn(kind: HolderKind, account: AccountCode) {
    match kind
    case Agent => account == CodReceivableAgent
    case Unit => account == CodReceivableBranch
    case Franchise => account == CodReceivableFranchise
    case HeadOffice => false
  }

  /** The agent owes what was collected, and it is owed to the sender. */
  function CollectionOn(amount: int, account: AccountCode): int {
    if account in {CodReceivableAgent, CodPayableConsignor} then amount else 0
  }

  /** The receiver owes what was counted, the giver no longer what was declared; a shortfall is charged, an excess owed back. */
  function TransferOn(t: Transfer, accepted: int, account: AccountCode): int {
    (if OwesOn(t.to.kind, account) then accepted else 0) - (if OwesOn(t.from.kind, account) then t.declared else 0)
    + (if account == CodShortage then Max(t.declared - accepted, 0) else 0)
    + (if account == CodExcessPayable then Max(accepted - t.declared, 0) else 0)
  }

  /** Cash comes in from a custodian, who owes that much less, or goes out to the senders. */
  function RemittanceOn(row: RemittanceRow, account: AccountCode): int {
    if row.beneficiary == ToHeadOffice
    then (if account == Cash then row.amount else if OwesOn(row.from.kind, account) then -row.amount else 0)
    else if account in {Cash, CodPayableConsignor} then -row.amount else 0
  }

  /** The account that the kind of adjustment calls for, against the shortage or the excess. */
  function AdjustmentOn(a: Adjustment, account: AccountCode): int {
    var amount := Abs(a.amount);
    match a.kind
    case ShortageRecovery => if account == Cash then amount else if account == CodShortage then -amount else 0
    case ShortageWriteOff | Waiver => if account == CodShortageWrittenOff then amount else if account == CodShortage then -amount else 0
    case ExcessRefund => if account in {Cash, CodExcessPayable} then -amount else 0
    case ExcessRetained => if account == OtherRevenue then amount else if account == CodExcessPayable then -amount else 0
    case Correction | DisputeResolution =>
      if account == CodShortage then a.amount else if account == CodReceivableFranchise then -a.amount else 0
  }

  /** What is missing moves from what the party owes to the shortage; what is too much it owes, and is owed back. */
  function CountOn(kind: HolderKind, shortage: int, excess: int, account: AccountCode): int {
    (if OwesOn(kind, account) then excess - shortage else 0)
    + (if account == CodShortage then shortage else 0) + (if account == CodExcessPayable then excess else 0)
  }

  lemma CollectionLegsOn(amount: int, agent: int, account: AccountCode)
    ensures Sum(CollectionLegs(amount, agent), AccountFn(account)) == CollectionOn(amount, account)
  {
    var legs := CollectionLegs(amount, agent);
    Sum2(legs[0], legs[1], AccountFn(account));
  }

  lemma TransferLegsOn(t: Transfer, accepted: int, account: AccountCode)
    requires Custodial(t.from.kind) && Custodial(t.to.kind)
    ensures Sum(TransferLegs(t, accepted), AccountFn(account)) == TransferOn(t, accepted, account)
  {
    TransferLegSums(t, accepted, AccountFn(account));
  }

  lemma RemittanceLegsOn(row: RemittanceRow, account: AccountCode)
    requires Custodial(row.from.kind)
    ensures Sum(RemittanceLegs(row), AccountFn(account)) == RemittanceOn(row, account)
  {
    var legs := RemittanceLegs(row);
    Sum2(legs[0], legs[1], AccountFn(account));
  }

  lemma AdjustmentLegsOn(a: Adjustment, account: AccountCode)
    requires a.amount != 0
    ensures Sum(AdjustmentLegs(a), AccountFn(account)) == AdjustmentOn(a, account)
  {
    var legs := AdjustmentLegs(a);
    var f := AccountFn(account);
    Sum2(legs[0], legs[1], f);
    match a.kind
    case ShortageRecovery => assert f(legs[0]) == if account == Cash then Abs(a.amount) else 0;
    case ShortageWriteOff | Waiver => assert f(legs[0]) == if account == CodShortageWrittenOff then Abs(a.amount) else 0;
    case ExcessRefund => assert f(legs[1]) == if account == Cash then -Abs(a.amount) else 0;
    case ExcessRetained => assert f(legs[1]) == if account == OtherRevenue then Abs(a.amount) else 0;
    case Correction | DisputeResolution =>
      assert f(legs[0]) + f(legs[1]) == if account == CodShortage then a.amount else if account == CodReceivableFranchise then -a.amount else 0;
  }

  lemma CountLegsOn(counted: Holder, shortage: int, excess: int, account: AccountCode)
    requires Custodial(counted.kind) && shortage >= 0 && excess >= 0
    ensures Sum(CountLegs(counted, shortage, excess), AccountFn(account)) == CountOn(counted.kind, shortage, excess, account)
  {
    CountLegSums(counted, shortage, excess, AccountFn(account));
  }

  // ----- What a document does to the books ----------------------------------

  predicate AccountMoves(before: Book, after: Book, account: AccountCode, amount: int) {
    Balance(after, AccountFn(account)) == Balance(before, AccountFn(account)) + amount
  }

  /** One party's receivable and shortage move by the two amounts. */
  predicate PartyMoves(before: Book, after: Book, party: Party, receivable: int, shortage: int) {
    && Balance(after, ReceivableFn(party)) == Balance(before, ReceivableFn(party)) + receivable
    && Balance(after, SubsidiaryFn(CodShortage, party)) == Balance(before, SubsidiaryFn(CodShortage, party)) + shortage
  }

  predicate CollectionMoves(before: Book, after: Book, amount: int, agent: int, party: Party) {
    PartyMoves(before, after, party, if party == Party(AgentParty, agent) then amount else 0, 0)
  }

  ghost predicate CollectionBooks(before: Book, after: Book, amount: int, agent: int) {
    && (forall party: Party :: CollectionMoves(before, after, amount, agent, party))
    && forall account: AccountCode :: AccountMoves(before, after, account, CollectionOn(amount, account))
  }

  predicate TransferMoves(before: Book, after: Book, t: Transfer, accepted: int, party: Party)
    requires Custodial(t.from.kind) && Custodial(t.to.kind)
  {
    PartyMoves(before, after, party,
               (if party == PartyOf(t.to) then accepted else 0) - (if party == PartyOf(t.from) then t.declared else 0),
               if party == PartyOf(t.from) then Max(t.declared - accepted, 0) else 0)
  }

  ghost predicate TransferBooks(before: Book, after: Book, t: Transfer, accepted: int)
    requires Custodial(t.from.kind) && Custodial(t.to.kind)
  {
    && (forall party: Party :: TransferMoves(before, after, t, accepted, party))
    && forall account: AccountCode :: AccountMoves(before, after, account, TransferOn(t, accepted, account))
  }

  predicate RemittanceMoves(before: Book, after: Book, row: RemittanceRow, party: Party)
    requires Custodial(row.from.kind)
  {
    PartyMoves(before, after, party, if row.beneficiary == ToHeadOffice && party == PartyOf(row.from) then -row.amount else 0, 0)
  }

  ghost predicate RemittanceBooks(before: Book, after: Book, row: RemittanceRow)
    requires Custodial(row.from.kind)
  {
    && (forall party: Party :: RemittanceMoves(before, after, row, party))
    && forall account: AccountCode :: AccountMoves(before, after, account, RemittanceOn(row, account))
  }

  /** The party that the columns name is cleared or corrected, and no other party is touched. */
  predicate AdjustmentMoves(before: Book, after: Book, a: Adjustment, party: Party) {
    PartyMoves(before, after, party, -CorrectedBy(a, party), CorrectedBy(a, party) - ClearedBy(a, party))
  }

  ghost predicate AdjustmentBooks(before: Book, after: Book, a: Adjustment) {
    && (forall party: Party :: AdjustmentMoves(before, after, a, party))
    && forall account: AccountCode :: AccountMoves(before, after, account, AdjustmentOn(a, account))
  }

  predicate CountMoves(before: Book, after: Book, counted: Holder, shortage: int, excess: int, party: Party)
    requires Custodial(counted.kind)
  {
    PartyMoves(before, after, party,
               if party == PartyOf(counted) then excess - shortage else 0, if party == PartyOf(counted) then shortage else 0)
  }

  ghost predicate CountBooks(before: Book, after: Book, counted: Holder, shortage: int, excess: int)
    requires Custodial(counted.kind)
  {
    && (forall party: Party :: CountMoves(before, after, counted, shortage, excess, party))
    && forall account: AccountCode :: AccountMoves(before, after, account, CountOn(counted.kind, shortage, excess, account))
  }

  // ----- Postings -----------------------------------------------------------

  /** A posting that is accepted for a document that has not posted. */
  ghost predicate Posts(desk: Desk, posting: Posting) {
    JournalsValid(desk) && !Documented(desk, posting.key) && Post(desk.book, posting).Success?
  }

  lemma AccountPosts(desk: Desk, posting: Posting, account: AccountCode)
    requires Posts(desk, posting)
    ensures AccountMoves(desk.book, Post(desk.book, posting).value.book, account, Sum(posting.legs, AccountFn(account)))
  {
    FreshKey(desk, posting.key);
    PostEffect(desk.book, posting, AccountFn(account));
  }

  lemma PartyPosts(desk: Desk, posting: Posting, party: Party)
    requires Posts(desk, posting)
    ensures PartyMoves(desk.book, Post(desk.book, posting).value.book, party,
                       Sum(posting.legs, ReceivableFn(party)), Sum(posting.legs, SubsidiaryFn(CodShortage, party)))
  {
    PostMoves(desk, posting, party);
  }

  lemma CollectionBooked(desk: Desk, posting: Posting, amount: int, agent: int)
    requires Posts(desk, posting) && posting.legs == CollectionLegs(amount, agent)
    ensures CollectionBooks(desk.book, Post(desk.book, posting).value.book, amount, agent)
  {
    forall party: Party
      ensures CollectionMoves(desk.book, Post(desk.book, posting).value.book, amount, agent, party)
    {
      PartyPosts(desk, posting, party);
      CollectionLegEffect(amount, agent, party);
    }
    forall account: AccountCode
      ensures AccountMoves(desk.book, Post(desk.book, posting).value.book, account, CollectionOn(amount, account))
    {
      AccountPosts(desk, posting, account);
      CollectionLegsOn(amount, agent, account);
    }
  }

  lemma TransferPosts(desk: Desk, posting: Posting, t: Transfer, accepted: int, party: Party)
    requires Posts(desk, posting) && Custodial(t.from.kind) && Custodial(t.to.kind) && posting.legs == TransferLegs(t, accepted)
    ensures TransferMoves(desk.book, Post(desk.book, posting).value.book, t, accepted, party)
  {
    PartyPosts(desk, posting, party);
    TransferLegEffect(t, accepted, party);
  }

  lemma TransferPostsOn(desk: Desk, posting: Posting, t: Transfer, accepted: int, account: AccountCode)
    requires Posts(desk, posting) && Custodial(t.from.kind) && Custodial(t.to.kind) && posting.legs == TransferLegs(t, accepted)
    ensures AccountMoves(desk.book, Post(desk.book, posting).value.book, account, TransferOn(t, accepted, account))
  {
    AccountPosts(desk, posting, account);
    TransferLegsOn(t, accepted, account);
  }

  lemma TransferBooked(desk: Desk, posting: Posting, t: Transfer, accepted: int)
    requires Posts(desk, posting) && Custodial(t.from.kind) && Custodial(t.to.kind) && posting.legs == TransferLegs(t, accepted)
    ensures TransferBooks(desk.book, Post(desk.book, posting).value.book, t, accepted)
  {
    forall party: Party
      ensures TransferMoves(desk.book, Post(desk.book, posting).value.book, t, accepted, party)
    {
      TransferPosts(desk, posting, t, accepted, party);
    }
    forall account: AccountCode
      ensures AccountMoves(desk.book, Post(desk.book, posting).value.book, account, TransferOn(t, accepted, account))
    {
      TransferPostsOn(desk, posting, t, accepted, account);
    }
  }

  lemma RemittanceBooked(desk: Desk, posting: Posting, row: RemittanceRow)
    requires Posts(desk, posting) && Custodial(row.from.kind) && posting.legs == RemittanceLegs(row)
    ensures RemittanceBooks(desk.book, Post(desk.book, posting).value.book, row)
  {
    forall party: Party
      ensures RemittanceMoves(desk.book, Post(desk.book, posting).value.book, row, party)
    {
      PartyPosts(desk, posting, party);
      RemittanceLegEffect(row, party);
    }
    forall account: AccountCode
      ensures AccountMoves(desk.book, Post(desk.book, posting).value.book, account, RemittanceOn(row, account))
    {
      AccountPosts(desk, posting, account);
      RemittanceLegsOn(row, account);
    }
  }

  lemma AdjustmentPosts(desk: Desk, posting: Posting, a: Adjustment, party: Party)
    requires Posts(desk, posting) && a.amount != 0 && posting.legs == AdjustmentLegs(a)
    ensures AdjustmentMoves(desk.book, Post(desk.book, posting).value.book, a, party)
  {
    PartyPosts(desk, posting, party);
    AdjustmentLegEffect(a, party);
  }

  lemma AdjustmentPostsOn(desk: Desk, posting: Posting, a: Adjustment, account: AccountCode)
    requires Posts(desk, posting) && a.amount != 0 && posting.legs == AdjustmentLegs(a)
    ensures AccountMoves(desk.book, Post(desk.book, posting).value.book, account, AdjustmentOn(a, account))
  {
    AccountPosts(desk, posting, account);
    AdjustmentLegsOn(a, account);
  }

  lemma AdjustmentBooked(desk: Desk, posting: Posting, a: Adjustment)
    requires Posts(desk, posting) && a.amount != 0 && posting.legs == AdjustmentLegs(a)
    ensures AdjustmentBooks(desk.book, Post(desk.book, posting).value.book, a)
  {
    forall party: Party
      ensures AdjustmentMoves(desk.book, Post(desk.book, posting).value.book, a, party)
    {
      AdjustmentPosts(desk, posting, a, party);
    }
    forall account: AccountCode
      ensures AccountMoves(desk.book, Post(desk.book, posting).value.book, account, AdjustmentOn(a, account))
    {
      AdjustmentPostsOn(desk, posting, a, account);
    }
  }

  lemma CountBooked(desk: Desk, posting: Posting, counted: Holder, shortage: int, excess: int)
    requires Posts(desk, posting) && Custodial(counted.kind) && shortage >= 0 && excess >= 0 && posting.legs == CountLegs(counted, shortage, excess)
    ensures CountBooks(desk.book, Post(desk.book, posting).value.book, counted, shortage, excess)
  {
    forall party: Party
      ensures CountMoves(desk.book, Post(desk.book, posting).value.book, counted, shortage, excess, party)
    {
      PartyPosts(desk, posting, party);
      CountLegEffect(counted, shortage, excess, party);
    }
    forall account: AccountCode
      ensures AccountMoves(desk.book, Post(desk.book, posting).value.book, account, CountOn(counted.kind, shortage, excess, account))
    {
      AccountPosts(desk, posting, account);
      CountLegsOn(counted, shortage, excess, account);
    }
  }

  // ----- Each operation ------------------------------------------------------

  lemma CollectBooks(desk: Desk, req: CollectRequest)
    requires JournalsValid(desk) && CollectWrite(desk, req).Success?
    ensures CollectionBooks(desk.book, CollectWrite(desk, req).value.desk.book, req.amount, req.agent)
  {
    CollectedTables(desk, req);
    var id := FindByShipment(desk.obligations, req.shipment).value;
    CollectionBooked(desk, Posting(Key(FromCod, id, Collection), desk.obligations[id].currency, CollectionLegs(req.amount, req.agent)), req.amount, req.agent);
  }

  lemma AcceptBooks(desk: Desk, id: nat, accepted: int, reason: string)
    requires JournalsValid(desk) && AcceptTransfer(desk, id, accepted, reason).Success?
    ensures id < |desk.transfers| && Custodial(desk.transfers[id].from.kind) && Custodial(desk.transfers[id].to.kind)
    ensures TransferBooks(desk.book, AcceptTransfer(desk, id, accepted, reason).value.book, desk.transfers[id], accepted)
  {
    AcceptedTables(desk, id, accepted, reason);
    var t := desk.transfers[id];
    TransferBooked(desk, Posting(Key(FromCod, id, CustodyTransfer), t.currency, TransferLegs(t, accepted)), t, accepted);
  }

  lemma ConfirmBooks(desk: Desk, id: nat)
    requires JournalsValid(desk) && ConfirmRemittance(desk, id).Success?
    ensures id < |desk.remittances| && Custodial(desk.remittances[id].from.kind)
    ensures RemittanceBooks(desk.book, ConfirmRemittance(desk, id).value.book, desk.remittances[id])
  {
    ConfirmedTables(desk, id);
    var row := desk.remittances[id];
    RemittanceBooked(desk, Posting(Key(FromCod, id, Remittance), row.currency, RemittanceLegs(row)), row);
  }

  lemma ApproveBooks(desk: Desk, id: nat, user: int)
    requires JournalsValid(desk) && AdjustmentsValid(desk.adjustments) && ApproveAdjustment(desk, id, user).Success?
    ensures id < |desk.adjustments|
    ensures AdjustmentBooks(desk.book, ApproveAdjustment(desk, id, user).value.book, desk.adjustments[id])
  {
    ApprovedTables(desk, id, user);
    var a := desk.adjustments[id];
    assert AdjustmentValid(a);
    AdjustmentBooked(desk, Posting(Key(FromAdjustment, id, CodAdjustment), a.currency, AdjustmentLegs(a)), a);
  }

  lemma CompleteBooks(desk: Desk, id: nat, reason: string)
    requires JournalsValid(desk) && PapersValid(desk) && CompleteReconciliation(desk, id, reason).Success?
    ensures id < |desk.counts| && Custodial(desk.counts[id].party.kind)
    ensures var after := CompleteReconciliation(desk, id, reason).value;
            |after.counts| == |desk.counts| && CountBooks(desk.book, after.book, desk.counts[id].party, after.counts[id].shortage, after.counts[id].excess)
  {
    CompletedPosting(desk, id, reason);
    var c := desk.counts[id];
    var shortage, excess := Sum(c.items, ShortageFn()), Sum(c.items, ExcessFn());
    assert CountValid(c, |desk.obligations|);
    if shortage != 0 || excess != 0 {
      CountBooked(desk, Posting(Key(FromCod, id, Reconciliation), c.currency, CountLegs(c.party, shortage, excess)), c.party, shortage, excess);
    }
  }

  // ----- The accounts, in every run -----------------------------------------

  function CollectedOnFn(account: AccountCode): CollectionRow -> int {
    (c: CollectionRow) => CollectionOn(c.amount, account)
  }

  function AcceptedOnFn(account: AccountCode): Transfer -> int {
    (t: Transfer) => if t.status == Accepted then TransferOn(t, t.accepted, account) else 0
  }

  function ConfirmedOnFn(account: AccountCode): RemittanceRow -> int {
    (r: RemittanceRow) => if r.status == Confirmed then RemittanceOn(r, account) else 0
  }

  function PostedOnFn(account: AccountCode): Adjustment -> int {
    (a: Adjustment) => if a.status == AdjustmentPosted then AdjustmentOn(a, account) else 0
  }

  function CompletedOnFn(account: AccountCode): Count -> int {
    (c: Count) => if c.status != CountOpen then CountOn(c.party.kind, c.shortage, c.excess, account) else 0
  }

  /** The balance of an account is what the documents that have posted put on it. */
  predicate AccountLaw(desk: Desk, account: AccountCode) {
    Balance(desk.book, AccountFn(account))
    == Sum(desk.collections, CollectedOnFn(account)) + Sum(desk.transfers, AcceptedOnFn(account))
       + Sum(desk.remittances, ConfirmedOnFn(account)) + Sum(desk.adjustments, PostedOnFn(account))
       + Sum(desk.counts, CompletedOnFn(account))
  }

  lemma CollectAccount(desk: Desk, req: CollectRequest, account: AccountCode)
    requires JournalsValid(desk) && AccountLaw(desk, account) && CollectWrite(desk, req).Success?
    ensures AccountLaw(CollectWrite(desk, req).value.desk, account)
  {
    CollectedTables(desk, req);
    CollectBooks(desk, req);
    var after := CollectWrite(desk, req).value.desk;
    assert AccountMoves(desk.book, after.book, account, CollectionOn(req.amount, account));
    SumAppend(desk.collections, after.collections[|desk.collections|], CollectedOnFn(account));
  }

  lemma AcceptAccount(desk: Desk, id: nat, accepted: int, reason: string, account: AccountCode)
    requires JournalsValid(desk) && AccountLaw(desk, account) && AcceptTransfer(desk, id, accepted, reason).Success?
    ensures AccountLaw(AcceptTransfer(desk, id, accepted, reason).value, account)
  {
    AcceptedTables(desk, id, accepted, reason);
    AcceptBooks(desk, id, accepted, reason);
    var after := AcceptTransfer(desk, id, accepted, reason).value;
    assert AccountMoves(desk.book, after.book, account, TransferOn(desk.transfers[id], accepted, account));
    SumUpdate(desk.transfers, id, after.transfers[id], AcceptedOnFn(account));
  }

  lemma ConfirmAccount(desk: Desk, id: nat, account: AccountCode)
    requires JournalsValid(desk) && AccountLaw(desk, account) && ConfirmRemittance(desk, id).Success?
    ensures AccountLaw(ConfirmRemittance(desk, id).value, account)
  {
    ConfirmedTables(desk, id);
    ConfirmBooks(desk, id);
    var after := ConfirmRemittance(desk, id).value;
    assert AccountMoves(desk.book, after.book, account, RemittanceOn(desk.remittances[id], account));
    SumUpdate(desk.remittances, id, after.remittances[id], ConfirmedOnFn(account));
  }

  lemma ApprovedAccount(desk: Desk, after: Desk, id: nat, amount: int, account: AccountCode)
    requires AccountLaw(desk, account) && id < |desk.adjustments| == |after.adjustments|
    requires after == desk.(adjustments := desk.adjustments[id := after.adjustments[id]], book := after.book)
    requires PostedOnFn(account)(desk.adjustments[id]) == 0 && PostedOnFn(account)(after.adjustments[id]) == amount
    requires AccountMoves(desk.book, after.book, account, amount)
    ensures AccountLaw(after, account)
  {
    SumUpdate(desk.adjustments, id, after.adjustments[id], PostedOnFn(account));
  }

  /** Approval changes nothing that the books read. */
  lemma ApprovedMeansTheSame(a: Adjustment, user: int, account: AccountCode)
    ensures AdjustmentOn(a.(status := AdjustmentPosted, approvedBy := Some(user)), account) == AdjustmentOn(a, account)
  {
  }

  lemma ApproveAccount(desk: Desk, id: nat, user: int, account: AccountCode)
    requires JournalsValid(desk) && AdjustmentsValid(desk.adjustments) && AccountLaw(desk, account) && ApproveAdjustment(desk, id, user).Success?
    ensures AccountLaw(ApproveAdjustment(desk, id, user).value, account)
  {
    ApprovedTables(desk, id, user);
    ApproveBooks(desk, id, user);
    ApprovedMeansTheSame(desk.adjustments[id], user, account);
    ApprovedAccount(desk, ApproveAdjustment(desk, id, user).value, id, AdjustmentOn(desk.adjustments[id], account), account);
  }

  lemma CompleteAccount(desk: Desk, id: nat, reason: string, account: AccountCode)
    requires Inv(desk) && AccountLaw(desk, account) && CompleteReconciliation(desk, id, reason).Success?
    ensures AccountLaw(CompleteReconciliation(desk, id, reason).value, account)
  {
    CompleteBooks(desk, id, reason);
    CompletedTables(desk, id, reason, desk.counts[id].party);
    var after, c := CompleteReconciliation(desk, id, reason).value, desk.counts[id];
    assert AccountMoves(desk.book, after.book, account, CountOn(c.party.kind, after.counts[id].shortage, after.counts[id].excess, account));
    SumUpdate(desk.counts, id, after.counts[id], CompletedOnFn(account));
  }

  // Papers that have not posted put nothing on any account.

  lemma DeclareAccount(desk: Desk, t: Transfer, account: AccountCode)
    requires AccountLaw(desk, account) && t.status == Declared
    ensures AccountLaw(desk.(transfers := desk.transfers + [t]), account)
  {
    SumAppend(desk.transfers, t, AcceptedOnFn(account));
  }

  lemma RemitAccount(desk: Desk, row: RemittanceRow, account: AccountCode)
    requires AccountLaw(desk, account) && row.status == Initiated
    ensures AccountLaw(desk.(remittances := desk.remittances + [row]), account)
  {
    SumAppend(desk.remittances, row, ConfirmedOnFn(account));
  }

  lemma RequestAccount(desk: Desk, a: Adjustment, account: AccountCode)
    requires AccountLaw(desk, account) && a.status == PendingApproval
    ensures AccountLaw(desk.(adjustments := desk.adjustments + [a]), account)
  {
    SumAppend(desk.adjustments, a, PostedOnFn(account));
  }

  lemma OpenCountAccount(desk: Desk, c: Count, account: AccountCode)
    requires AccountLaw(desk, account) && c.status == CountOpen
    ensures AccountLaw(desk.(counts := desk.counts + [c]), account)
  {
    SumAppend(desk.counts, c, CompletedOnFn(account));
  }

  lemma RecountAccount(desk: Desk, id: nat, c: Count, account: AccountCode)
    requires AccountLaw(desk, account) && id < |desk.counts| && c == desk.counts[id].(items := c.items)
    ensures AccountLaw(desk.(counts := desk.counts[id := c]), account)
  {
    SumUpdate(desk.counts, id, c, CompletedOnFn(account));
  }

  lemma CountAccount(desk: Desk, event: Event, account: AccountCode)
    requires AccountLaw(desk, account) && Step(desk, event) != desk
    requires event.OpenCount? || event.RecordCount?
    ensures AccountLaw(Step(desk, event), account)
  {
    var after := Step(desk, event);
    match event
    case OpenCount(counted, order) => OpenCountAccount(desk, after.counts[|desk.counts|], account);
    case RecordCount(count, obligation, counted) => RecountAccount(desk, count, after.counts[count], account);
  }

  lemma PaperAccount(desk: Desk, event: Event, account: AccountCode)
    requires AccountLaw(desk, account) && Step(desk, event) != desk
    requires event.Open? || event.Declare? || event.Remit? || event.Request?
    ensures AccountLaw(Step(desk, event), account)
  {
    var after := Step(desk, event);
    match event
    case Open(shipment, amount, currency) =>
    case Declare(from, to, ids) => DeclareAccount(desk, after.transfers[|desk.transfers|], account);
    case Remit(from, beneficiary, ids) => RemitAccount(desk, after.remittances[|desk.remittances|], account);
    case Request(obligation, kind, amount, liableKind, liableId, reason, user) =>
      RequestAccount(desk, after.adjustments[|desk.adjustments|], account);
  }

  lemma AccountStep(desk: Desk, event: Event, account: AccountCode)
    requires Inv(desk) && AccountLaw(desk, account)
    ensures AccountLaw(Step(desk, event), account)
  {
    if Step(desk, event) != desk {
      match event
      case Collect(request) => CollectAccount(desk, request, account);
      case Accept(transfer, accepted, reason) => AcceptAccount(desk, transfer, accepted, reason, account);
      case Confirm(remittance) => ConfirmAccount(desk, remittance, account);
      case Approve(adjustment, user) => ApproveAccount(desk, adjustment, user, account);
      case Complete(count, reason) => CompleteAccount(desk, count, reason, account);
      case OpenCount(counted, order) => CountAccount(desk, event, account);
      case RecordCount(count, obligation, counted) => CountAccount(desk, event, account);
      case _ => PaperAccount(desk, event, account);
    }
  }

  /**
   * In every run of every COD operation, for every account of the ledger: cash
   * is what custodians banked and liable parties repaid, less what was paid out
   * to senders and refunded; an excess is owed until it is refunded or retained;
   * only write-offs and waivers are an expense; and so on for each account.
   */
  lemma {:induction false} AccountsFollowDocuments(currency: Currency, events: seq<Event>, account: AccountCode)
    ensures AccountLaw(Run(EmptyDesk(currency), events), account)
  {
    if events != [] {
      var n := |events| - 1;
      AccountsFollowDocuments(currency, events[..n], account);
      RunKeeps(EmptyDesk(currency), events[..n]);
      AccountStep(Run(EmptyDesk(currency), events[..n]), events[n], account);
    }
  }
}
