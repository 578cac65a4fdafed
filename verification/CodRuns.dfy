/** A COD hand-over, run to its end: the documented second hop is refused, and a short count parts the two views. */
module CodRuns {
  import opened Sums
  import opened Ledger
  import opened CodModel
  import opened CodInvariant
  import opened CodLaw
  import opened CodTheorems

  const AGENT := Holder(Agent, 7)
  const BRANCH := Holder(Unit, 8)
  const COLLECT := CollectRequest(1, 500, 7, None, None)
  const TRANSFER := Transfer(AGENT, BRANCH, 500, NGN, [Item(0, 500)], Declared, 0)

  function Row(status: Status, holder: Option<Holder>, collected: int): Obligation {
    Obligation(1, 500, NGN, status, holder, collected, 0, 0, holder)
  }

  /** 500 is collected by an agent and handed to a branch that counts `accepted`. */
  function Script(k: nat, accepted: int, reason: string): Event {
    if k == 0 then Open(1, 500, NGN)
    else if k == 1 then Collect(COLLECT)
    else if k == 2 then Declare(AGENT, BRANCH, [0])
    else Accept(0, accepted, reason)
  }

  predicate IsHandOverOf(events: seq<Event>, accepted: int, reason: string) {
    |events| == 4 && forall k {:trigger Script(k, accepted, reason)} :: 0 <= k < 4 ==> events[k] == Script(k, accepted, reason)
  }

  lemma RunPrefix(desk: Desk, events: seq<Event>, k: nat)
    requires k < |events|
    ensures Run(desk, events[..k + 1]) == Step(Run(desk, events[..k]), events[k])
  {
    assert events[..k + 1][..k] == events[..k];
  }

  // ----- The four steps -----------------------------------------------------

  predicate Stage(desk: Desk, row: Obligation, transfers: seq<Transfer>) {
    desk.obligations == [row] && desk.transfers == transfers && desk.book.currency == NGN
  }

  lemma Opens(desk: Desk, events: seq<Event>, accepted: int, reason: string)
    requires IsHandOverOf(events, accepted, reason) && desk == EmptyDesk(NGN)
    ensures Inv(Step(desk, events[0])) && Step(desk, events[0]).collections == []
    ensures Stage(Step(desk, events[0]), Row(Expected, None, 0), [])
  {
    assert events[0] == Script(0, accepted, reason);
    assert [] + [Row(Expected, None, 0)] == [Row(Expected, None, 0)];
    OpenKeeps(desk, 1, 500, NGN);
  }

  lemma CollectCommits(desk: Desk)
    requires Inv(desk) && Stage(desk, Row(Expected, None, 0), []) && desk.collections == []
    ensures CollectWrite(desk, COLLECT).Success?
  {
    var posting := Posting(Key(FromCod, 0, Collection), NGN, CollectionLegs(500, 7));
    FreshKey(desk, posting.key);
    PostAcceptedIff(desk.book, posting);
    Sum2(posting.legs[0], posting.legs[1], DebitFn());
    Sum2(posting.legs[0], posting.legs[1], CreditFn());
  }

  lemma Collects(desk: Desk, events: seq<Event>, accepted: int, reason: string)
    requires IsHandOverOf(events, accepted, reason)
    requires Inv(desk) && Stage(desk, Row(Expected, None, 0), []) && desk.collections == []
    ensures Inv(Step(desk, events[1])) && Stage(Step(desk, events[1]), Row(AgentCollected, Some(AGENT), 500), [])
  {
    assert events[1] == Script(1, accepted, reason);
    CollectCommits(desk);
    CollectKeeps(desk, COLLECT);
    CollectedTables(desk, COLLECT);
    PostEffect(desk.book, Posting(Key(FromCod, 0, Collection), NGN, CollectionLegs(500, 7)), NetFn());
  }

  lemma LocksTheOne()
    ensures Locked(1, [0]) == [0]
  {
    assert Locked(0, [0]) == [];
  }

  lemma DeclaresTheOne(desk: Desk)
    requires Stage(desk, Row(AgentCollected, Some(AGENT), 500), [])
    ensures DeclareLocked(desk, AGENT, BRANCH, [0]) == Success(desk.(transfers := [TRANSFER]))
  {
    var items := OutstandingItems(desk.obligations, [0]);
    assert items == [Item(0, 500)];
    Sum1(Item(0, 500), AmountFn());
    assert HandOverError(desk.obligations[0], AGENT, NGN).None?;
    assert [] + [TRANSFER] == [TRANSFER];
  }

  lemma DeclareSucceeds(desk: Desk)
    requires Stage(desk, Row(AgentCollected, Some(AGENT), 500), [])
    ensures DeclareTransfer(desk, AGENT, BRANCH, [0]) == Success(desk.(transfers := [TRANSFER]))
  {
    LocksTheOne();
    DeclaresTheOne(desk);
  }

  lemma DeclareCommits(desk: Desk)
    requires Inv(desk) && Stage(desk, Row(AgentCollected, Some(AGENT), 500), [])
    ensures DeclareTransfer(desk, AGENT, BRANCH, [0]) == Success(desk.(transfers := [TRANSFER]))
    ensures Inv(desk.(transfers := [TRANSFER]))
  {
    DeclareSucceeds(desk);
    DeclareKeeps(desk, AGENT, BRANCH, [0]);
  }

  lemma Declares(desk: Desk, events: seq<Event>, accepted: int, reason: string)
    requires IsHandOverOf(events, accepted, reason)
    requires Inv(desk) && Stage(desk, Row(AgentCollected, Some(AGENT), 500), [])
    ensures Inv(Step(desk, events[2])) && Stage(Step(desk, events[2]), Row(AgentCollected, Some(AGENT), 500), [TRANSFER])
  {
    assert events[2] == Script(2, accepted, reason);
    DeclareCommits(desk);
  }

  lemma Accepts(desk: Desk, events: seq<Event>, accepted: int, reason: string)
    requires IsHandOverOf(events, accepted, reason) && 0 < accepted <= 500 && (accepted == 500 || |reason| >= 3)
    requires Inv(desk) && Stage(desk, Row(AgentCollected, Some(AGENT), 500), [TRANSFER])
    ensures Step(desk, events[3]).obligations == [Row(BranchReceived, Some(BRANCH), 500)]
    ensures Step(desk, events[3]).transfers == [TRANSFER.(status := Accepted, accepted := accepted)]
  {
    assert events[3] == Script(3, accepted, reason);
    AcceptSucceedsIff(desk, 0, accepted, reason);
    AcceptedTables(desk, 0, accepted, reason);
    MovedRows(desk.obligations, TRANSFER.items, Agent, BRANCH);
    assert TRANSFER.items[0].obligation == 0;
  }

  lemma AfterOpen(events: seq<Event>, accepted: int, reason: string)
    requires IsHandOverOf(events, accepted, reason)
    ensures var desk := Run(EmptyDesk(NGN), events[..1]);
            Inv(desk) && Stage(desk, Row(Expected, None, 0), []) && desk.collections == []
  {
    RunPrefix(EmptyDesk(NGN), events, 0);
    Opens(Run(EmptyDesk(NGN), events[..0]), events, accepted, reason);
  }

  lemma AfterCollect(events: seq<Event>, accepted: int, reason: string)
    requires IsHandOverOf(events, accepted, reason)
    ensures var desk := Run(EmptyDesk(NGN), events[..2]);
            Inv(desk) && Stage(desk, Row(AgentCollected, Some(AGENT), 500), [])
  {
    AfterOpen(events, accepted, reason);
    RunPrefix(EmptyDesk(NGN), events, 1);
    Collects(Run(EmptyDesk(NGN), events[..1]), events, accepted, reason);
  }

  lemma AfterDeclare(events: seq<Event>, accepted: int, reason: string)
    requires IsHandOverOf(events, accepted, reason)
    ensures var desk := Run(EmptyDesk(NGN), events[..3]);
            Inv(desk) && Stage(desk, Row(AgentCollected, Some(AGENT), 500), [TRANSFER])
  {
    AfterCollect(events, accepted, reason);
    RunPrefix(EmptyDesk(NGN), events, 2);
    Declares(Run(EmptyDesk(NGN), events[..2]), events, accepted, reason);
  }

  lemma HandOverEnds(events: seq<Event>, accepted: int, reason: string)
    requires IsHandOverOf(events, accepted, reason) && 0 < accepted <= 500 && (accepted == 500 || |reason| >= 3)
    ensures var desk := Run(EmptyDesk(NGN), events);
            && desk.obligations == [Row(BranchReceived, Some(BRANCH), 500)]
            && desk.transfers == [TRANSFER.(status := Accepted, accepted := accepted)]
  {
    AfterDeclare(events, accepted, reason);
    RunPrefix(EmptyDesk(NGN), events, 3);
    Accepts(Run(EmptyDesk(NGN), events[..3]), events, accepted, reason);
    assert events[..4] == events;
  }

  lemma AllHandOvers(events: seq<Event>, accepted: int, reason: string)
    requires IsHandOverOf(events, accepted, reason)
    ensures forall e :: 0 <= e < |events| ==> IsHandOver(events[e])
  {
    forall e | 0 <= e < |events|
      ensures IsHandOver(events[e])
    {
      assert events[e] == Script(e, accepted, reason);
    }
  }

  // ----- What they show -----------------------------------------------------

  lemma NextHopRefused(desk: Desk)
    requires desk.transfers == [TRANSFER.(status := Accepted, accepted := 500)]
    ensures DeclareTransfer(desk, BRANCH, Holder(Franchise, 9), [0]).Failure?
  {
    assert desk.transfers[0].items[0].obligation == 0;
    assert Carries(desk.transfers[0].items, 0);
    DeclareSucceedsIff(desk, BRANCH, Holder(Franchise, 9), [0]);
    assert 0 in [0];
  }

  /** Agent to branch succeeds; branch to franchise, the next hop of the documented chain, does not. */
  lemma ChainStopsAtBranch(events: seq<Event>)
    requires IsHandOverOf(events, 500, "")
    ensures var desk := Run(EmptyDesk(NGN), events);
            && desk.obligations == [Row(BranchReceived, Some(BRANCH), 500)]
            && DeclareTransfer(desk, BRANCH, Holder(Franchise, 9), [0]).Failure?
  {
    HandOverEnds(events, 500, "");
    NextHopRefused(Run(EmptyDesk(NGN), events));
  }

  lemma ShortFigures(desk: Desk)
    requires OnlyHandOvers(desk)
    requires desk.obligations == [Row(BranchReceived, Some(BRANCH), 500)]
    requires desk.transfers == [TRANSFER.(status := Accepted, accepted := 400)]
    ensures Held(desk, BRANCH) == 500 && RecordedVariance(desk, BRANCH) == 100
  {
    Sum1(desk.obligations[0], HeldFn(BRANCH));
    Sum1(desk.obligations[0], ReleasedFn(BRANCH));
    Sum1(desk.transfers[0], TakenShortFn(BRANCH));
    Sum1(desk.transfers[0], GivenShortFn(BRANCH));
  }

  lemma PositionFromVariance(desk: Desk, party: Holder, held: int, variance: int)
    requires Custodial(party.kind) && Held(desk, party) == held && Held(desk, party) - PartyBalance(desk, party) == variance
    ensures CustodyPosition(desk, party) == Success(Position(held, held - variance, variance == 0))
  {
  }

  lemma ShortPosition(events: seq<Event>)
    requires forall e :: 0 <= e < |events| ==> IsHandOver(events[e])
    requires var desk := Run(EmptyDesk(NGN), events);
             && desk.obligations == [Row(BranchReceived, Some(BRANCH), 500)]
             && desk.transfers == [TRANSFER.(status := Accepted, accepted := 400)]
    ensures CustodyPosition(Run(EmptyDesk(NGN), events), BRANCH) == Success(Position(500, 400, false))
  {
    HandOverRuns(NGN, events);
    ShortFigures(Run(EmptyDesk(NGN), events));
    PositionLaw(NGN, events, BRANCH);
    PositionFromVariance(Run(EmptyDesk(NGN), events), BRANCH, 500, 100);
  }

  /** After a short count the branch holds 500 and owes 400, and its position says so. */
  lemma ShortCountDisagrees(events: seq<Event>)
    requires IsHandOverOf(events, 400, "short")
    ensures CustodyPosition(Run(EmptyDesk(NGN), events), BRANCH) == Success(Position(500, 400, false))
  {
    HandOverEnds(events, 400, "short");
    AllHandOvers(events, 400, "short");
    ShortPosition(events);
  }
}
