/**
 * The commission life cycle: Calculate, Post and Reverse of
 * internal/commission/commission.go, over the tables of
 * db/migrations/0021_commission.up.sql and the ledger.
 *
 * Each function is the writing half of a request: the probes that precede it
 * may have read any earlier state, and it relies on the unique index and on the
 * compare-and-swap updates alone.
 */
module Commission {
  import opened Sums
  import opened Ledger
  import Slabs

  datatype CalcStatus = Calculated | Posted | Reversed

  /** What may be paid once: (shipment, type, recipient). */
  datatype CalcKey = CalcKey(shipment: Option<int>, commissionType: string, recipientType: string, recipientId: int)

  datatype Calculation = Calculation(key: CalcKey, amount: int, currency: Currency, status: CalcStatus, journal: Option<nat>)

  /** EARNED is positive, REVERSAL negative. */
  datatype Entry = Entry(calculation: nat, amount: int)

  datatype Desk = Desk(calculations: seq<Calculation>, entries: seq<Entry>, book: Book)

  datatype CommissionError =
    | NoRecipient | NoCommission | Duplicate | AlreadyPosted | NotPosted | Invalid | Unknown
    | LedgerRefused(error: LedgerError)

  datatype Request = Request(key: CalcKey, rule: Slabs.Rule, basis: Slabs.Basis, currency: Currency, postNow: bool)

  const VOLUME_INCENTIVE := "VOLUME_INCENTIVE"

  predicate Live(c: Calculation) {
    c.status != Reversed
  }

  /** commission_calculations_shipment_idx: partial, so a calculation without a shipment never collides. */
  predicate Taken(calculations: seq<Calculation>, key: CalcKey) {
    key.shipment.Some? && exists i :: 0 <= i < |calculations| && calculations[i].key == key && Live(calculations[i])
  }

  function CommissionLegs(c: Calculation): seq<Leg> {
    [Dr(if c.key.commissionType == VOLUME_INCENTIVE then IncentiveExpense else CommissionExpense, c.amount),
     Cr(CommissionPayable, c.amount)]
  }

  function KeyOf(id: nat, c: Calculation): Key {
    Key(FromCommission, id, CommissionOf(c.key.commissionType))
  }

  function PostWrite(desk: Desk, id: nat): Result<Desk, CommissionError> {
    if id >= |desk.calculations| then Failure(Unknown)
    else
      var c := desk.calculations[id];
      if c.amount == 0 then (if c.status == Calculated then Success(desk) else Failure(AlreadyPosted))
      else
        match Post(desk.book, Posting(KeyOf(id, c), c.currency, CommissionLegs(c)))
        case Failure(error) => Failure(LedgerRefused(error))
        case Success(posted) =>
          if c.status != Calculated then Failure(AlreadyPosted)
          else
            Success(desk.(calculations := desk.calculations[id := c.(status := Posted, journal := Some(posted.journal))],
                          entries := desk.entries + [Entry(id, c.amount)],
                          book := posted.book))
  }

  function CalculateWrite(desk: Desk, req: Request): Result<Desk, CommissionError> {
    var amount := Slabs.Commission(req.rule, req.basis);
    if req.key.recipientType == "" || req.key.recipientId == 0 then Failure(NoRecipient)
    else if amount.None? then Failure(NoCommission)
    else if Taken(desk.calculations, req.key) then Failure(Duplicate)
    else
      var row := Calculation(req.key, amount.value, req.currency, Calculated, None);
      var added := desk.(calculations := desk.calculations + [row]);
      if req.postNow then PostWrite(added, |desk.calculations|) else Success(added)
  }

  function ReverseWrite(desk: Desk, id: nat, reason: string): Result<Desk, CommissionError> {
    if |reason| < 10 then Failure(Invalid)
    else if id >= |desk.calculations| then Failure(Unknown)
    else
      var c := desk.calculations[id];
      if c.journal.None? then Failure(NotPosted)
      else
        match Reverse(desk.book, c.journal.value)
        case Failure(error) => Failure(LedgerRefused(error))
        case Success(posted) =>
          if c.status != Posted then Failure(NotPosted)
          else
            Success(desk.(calculations := desk.calculations[id := c.(status := Reversed)],
                          entries := desk.entries + [Entry(id, -c.amount)],
                          book := posted.book))
  }

  datatype Event =
    | Calculate(request: Request)
    | PostOne(id: nat)
    | ReverseOne(id: nat, reason: string)

  function Outcome(desk: Desk, event: Event): Result<Desk, CommissionError> {
    match event
    case Calculate(request) => CalculateWrite(desk, request)
    case PostOne(id) => PostWrite(desk, id)
    case ReverseOne(id, reason) => ReverseWrite(desk, id, reason)
  }

  function Step(desk: Desk, event: Event): Desk {
    var outcome := Outcome(desk, event);
    if outcome.Success? then outcome.value else desk
  }

  function Run(desk: Desk, events: seq<Event>): Desk {
    if events == [] then desk else Step(Run(desk, events[..|events| - 1]), events[|events| - 1])
  }

  function EmptyDesk(currency: Currency): Desk {
    Desk([], [], Book(currency, []))
  }

  // ----- The laws -----------------------------------------------------------

  /** What a posted calculation puts on an account: the accrual, and the cost by the type of commission. */
  function PostedOn(c: Calculation, account: AccountCode): int {
    match account
    case CommissionPayable => c.amount
    case CommissionExpense => if c.key.commissionType == "VOLUME_INCENTIVE" then 0 else c.amount
    case IncentiveExpense => if c.key.commissionType == "VOLUME_INCENTIVE" then c.amount else 0
    case _ => 0
  }

  function PostedOnFn(account: AccountCode): Calculation -> int {
    (c: Calculation) => if c.status == Posted then PostedOn(c, account) else 0
  }

  function PostedForFn(key: CalcKey): Calculation -> int {
    (c: Calculation) => if c.status == Posted && c.key == key then c.amount else 0
  }

  /** The entries of every calculation made for a key. */
  function EarnedForFn(calculations: seq<Calculation>, key: CalcKey): Entry -> int {
    (e: Entry) => if e.calculation < |calculations| && calculations[e.calculation].key == key then e.amount else 0
  }

  /** One live calculation per key. */
  ghost predicate OneLive(calculations: seq<Calculation>) {
    forall i, j :: 0 <= i < j < |calculations| && calculations[i].key == calculations[j].key && calculations[i].key.shipment.Some?
                   ==> !Live(calculations[i]) || !Live(calculations[j])
  }

  /** A calculation and the journal it points to. */
  predicate RowValid(desk: Desk, id: nat)
    requires id < |desk.calculations|
  {
    var c := desk.calculations[id];
    && c.amount >= 0
    && (c.status == Calculated <==> c.journal.None?)
    && (c.journal.Some? ==>
          && c.journal.value < |desk.book.journals|
          && desk.book.journals[c.journal.value].legs == CommissionLegs(c)
          && desk.book.journals[c.journal.value].key == KeyOf(id, c)
          && (c.status == Posted ==> !desk.book.journals[c.journal.value].reversed))
  }

  /** A commission journal belongs to a calculation that is no longer waiting. */
  predicate JournalValid(desk: Desk, j: nat)
    requires j < |desk.book.journals|
  {
    var key := desk.book.journals[j].key;
    key.source == FromCommission ==> key.id < |desk.calculations| && desk.calculations[key.id].status != Calculated
  }

  ghost predicate Inv(desk: Desk) {
    && OneLive(desk.calculations)
    && (forall id :: 0 <= id < |desk.calculations| ==> RowValid(desk, id))
    && (forall j :: 0 <= j < |desk.book.journals| ==> JournalValid(desk, j))
    && (forall e :: 0 <= e < |desk.entries| ==> desk.entries[e].calculation < |desk.calculations|)
    && Sound(desk.book)
  }

  /** Earnings say what the POSTED rows say, and so does every account. */
  ghost predicate Law(desk: Desk, key: CalcKey, account: AccountCode) {
    && Sum(desk.entries, EarnedForFn(desk.calculations, key)) == Sum(desk.calculations, PostedForFn(key))
    && Balance(desk.book, AccountFn(account)) == Sum(desk.calculations, PostedOnFn(account))
  }

  // ----- What posting does to the sums --------------------------------------

  lemma LegSums(c: Calculation, account: AccountCode)
    ensures Sum(CommissionLegs(c), AccountFn(account)) == PostedOn(c, account)
  {
    var legs := CommissionLegs(c);
    Sum2(legs[0], legs[1], AccountFn(account));
  }

  /** Entries read the same calculations, whatever is appended to them or becomes of their status. */
  lemma EarnedStays(before: seq<Calculation>, after: seq<Calculation>, entries: seq<Entry>, key: CalcKey)
    requires |before| <= |after|
    requires forall i :: 0 <= i < |before| ==> after[i].key == before[i].key
    requires forall e :: 0 <= e < |entries| ==> entries[e].calculation < |before|
    ensures Sum(entries, EarnedForFn(after, key)) == Sum(entries, EarnedForFn(before, key))
  {
    SumPointwise(entries, entries, EarnedForFn(after, key), EarnedForFn(before, key));
  }

  /** A change of one row's status, with its entry. */
  lemma RowChange(desk: Desk, id: nat, row: Calculation, amount: int, moved: int, key: CalcKey, account: AccountCode)
    requires id < |desk.calculations| && row.key == desk.calculations[id].key
    requires forall e :: 0 <= e < |desk.entries| ==> desk.entries[e].calculation < |desk.calculations|
    requires PostedForFn(row.key)(row) == PostedForFn(row.key)(desk.calculations[id]) + amount
    requires PostedOnFn(account)(row) == PostedOnFn(account)(desk.calculations[id]) + moved
    ensures var calculations, entries := desk.calculations[id := row], desk.entries + [Entry(id, amount)];
            && Sum(calculations, PostedOnFn(account)) == Sum(desk.calculations, PostedOnFn(account)) + moved
            && Sum(calculations, PostedForFn(key)) - Sum(desk.calculations, PostedForFn(key))
               == Sum(entries, EarnedForFn(calculations, key)) - Sum(desk.entries, EarnedForFn(desk.calculations, key))
  {
    var calculations := desk.calculations[id := row];
    SumUpdate(desk.calculations, id, row, PostedOnFn(account));
    SumUpdate(desk.calculations, id, row, PostedForFn(key));
    SumAppend(desk.entries, Entry(id, amount), EarnedForFn(calculations, key));
    EarnedStays(desk.calculations, calculations, desk.entries, key);
  }

  lemma FreshKey(desk: Desk, id: nat)
    requires Inv(desk) && id < |desk.calculations| && desk.calculations[id].status == Calculated
    ensures Find(desk.book.journals, KeyOf(id, desk.calculations[id])).None?
  {
    var found := Find(desk.book.journals, KeyOf(id, desk.calculations[id]));
    assert found.Some? ==> JournalValid(desk, found.value);
  }

  // ----- Steps --------------------------------------------------------------

  lemma PostKeeps(desk: Desk, id: nat)
    requires Inv(desk) && PostWrite(desk, id).Success?
    ensures Inv(PostWrite(desk, id).value)
  {
    var after := PostWrite(desk, id).value;
    if after != desk {
      var c := desk.calculations[id];
      FreshKey(desk, id);
      PostEffect(desk.book, Posting(KeyOf(id, c), c.currency, CommissionLegs(c)), NetFn());
      forall i | 0 <= i < |after.calculations|
        ensures RowValid(after, i)
      {
        assert RowValid(desk, i);
      }
      forall j | 0 <= j < |after.book.journals|
        ensures JournalValid(after, j)
      {
        assert j < |desk.book.journals| ==> JournalValid(desk, j);
      }
    }
  }

  /** Posting accrues the amount, as a cost of its kind. */
  lemma PostBooks(desk: Desk, id: nat, account: AccountCode)
    requires Inv(desk) && PostWrite(desk, id).Success?
    ensures id < |desk.calculations|
    ensures Balance(PostWrite(desk, id).value.book, AccountFn(account)) == Balance(desk.book, AccountFn(account)) + PostedOn(desk.calculations[id], account)
  {
    if PostWrite(desk, id).value != desk {
      var c := desk.calculations[id];
      FreshKey(desk, id);
      PostEffect(desk.book, Posting(KeyOf(id, c), c.currency, CommissionLegs(c)), AccountFn(account));
      LegSums(c, account);
    }
  }

  lemma PostLaw(desk: Desk, id: nat, key: CalcKey, account: AccountCode)
    requires Inv(desk) && Law(desk, key, account) && PostWrite(desk, id).Success?
    ensures Law(PostWrite(desk, id).value, key, account)
  {
    var after := PostWrite(desk, id).value;
    if after != desk {
      PostBooks(desk, id, account);
      RowChange(desk, id, after.calculations[id], desk.calculations[id].amount, PostedOn(desk.calculations[id], account), key, account);
    }
  }

  lemma AddedKeeps(desk: Desk, row: Calculation)
    requires Inv(desk)
    requires !Taken(desk.calculations, row.key) && row.status == Calculated && row.journal.None? && row.amount >= 0
    ensures Inv(desk.(calculations := desk.calculations + [row]))
  {
    var after := desk.(calculations := desk.calculations + [row]);
    forall i | 0 <= i < |after.calculations|
      ensures RowValid(after, i)
    {
      assert i < |desk.calculations| ==> RowValid(desk, i);
    }
    forall j | 0 <= j < |after.book.journals|
      ensures JournalValid(after, j)
    {
      assert JournalValid(desk, j);
    }
  }

  lemma AddedLaw(desk: Desk, row: Calculation, key: CalcKey, account: AccountCode)
    requires Inv(desk) && Law(desk, key, account) && row.status == Calculated
    ensures Law(desk.(calculations := desk.calculations + [row]), key, account)
  {
    SumAppend(desk.calculations, row, PostedOnFn(account));
    SumAppend(desk.calculations, row, PostedForFn(key));
    EarnedStays(desk.calculations, desk.calculations + [row], desk.entries, key);
  }

  lemma CalculateKeeps(desk: Desk, req: Request)
    requires Inv(desk) && CalculateWrite(desk, req).Success?
    ensures Inv(CalculateWrite(desk, req).value)
  {
    var row := Calculation(req.key, Slabs.Commission(req.rule, req.basis).value, req.currency, Calculated, None);
    AddedKeeps(desk, row);
    if req.postNow {
      PostKeeps(desk.(calculations := desk.calculations + [row]), |desk.calculations|);
    }
  }

  /** Reversing takes all of it back. */
  lemma ReverseBooks(desk: Desk, id: nat, reason: string, account: AccountCode)
    requires Inv(desk) && ReverseWrite(desk, id, reason).Success?
    ensures id < |desk.calculations|
    ensures Balance(ReverseWrite(desk, id, reason).value.book, AccountFn(account))
            == Balance(desk.book, AccountFn(account)) - PostedOn(desk.calculations[id], account)
  {
    var c := desk.calculations[id];
    assert RowValid(desk, id);
    Ledger.ReverseEffect(desk.book, c.journal.value, AccountFn(account));
    LegSums(c, account);
  }

  lemma ReverseKeeps(desk: Desk, id: nat, reason: string)
    requires Inv(desk) && ReverseWrite(desk, id, reason).Success?
    ensures Inv(ReverseWrite(desk, id, reason).value)
  {
    var after := ReverseWrite(desk, id, reason).value;
    var c := desk.calculations[id];
    assert RowValid(desk, id);
    ReverseEffect(desk.book, c.journal.value, NetFn());
    forall i | 0 <= i < |after.calculations|
      ensures RowValid(after, i)
    {
      assert RowValid(desk, i);
    }
    forall j | 0 <= j < |after.book.journals|
      ensures JournalValid(after, j)
    {
      assert j < |desk.book.journals| ==> JournalValid(desk, j);
    }
  }

  lemma ReverseLaw(desk: Desk, id: nat, reason: string, key: CalcKey, account: AccountCode)
    requires Inv(desk) && Law(desk, key, account) && ReverseWrite(desk, id, reason).Success?
    ensures Law(ReverseWrite(desk, id, reason).value, key, account)
  {
    var after := ReverseWrite(desk, id, reason).value;
    var c := desk.calculations[id];
    assert RowValid(desk, id);
    ReverseBooks(desk, id, reason, account);
    RowChange(desk, id, after.calculations[id], -c.amount, -PostedOn(c, account), key, account);
  }

  lemma StepKeeps(desk: Desk, event: Event, key: CalcKey, account: AccountCode)
    requires Inv(desk) && Law(desk, key, account)
    ensures Inv(Step(desk, event)) && Law(Step(desk, event), key, account)
  {
    if Outcome(desk, event).Success? {
      match event
      case Calculate(req) =>
        var row := Calculation(req.key, Slabs.Commission(req.rule, req.basis).value, req.currency, Calculated, None);
        CalculateKeeps(desk, req);
        AddedKeeps(desk, row);
        AddedLaw(desk, row, key, account);
        if req.postNow {
          PostLaw(desk.(calculations := desk.calculations + [row]), |desk.calculations|, key, account);
        }
      case PostOne(id) =>
        PostKeeps(desk, id);
        PostLaw(desk, id, key, account);
      case ReverseOne(id, reason) =>
        ReverseKeeps(desk, id, reason);
        ReverseLaw(desk, id, reason, key, account);
    }
  }

  lemma {:induction false} RunKeeps(currency: Currency, events: seq<Event>, key: CalcKey, account: AccountCode)
    ensures Inv(Run(EmptyDesk(currency), events)) && Law(Run(EmptyDesk(currency), events), key, account)
  {
    if events != [] {
      var n := |events| - 1;
      RunKeeps(currency, events[..n], key, account);
      StepKeeps(Run(EmptyDesk(currency), events[..n]), events[n], key, account);
    }
  }

  // ----- Never paid twice ---------------------------------------------------

  /** With one live row per key, what the POSTED rows of a key add up to is the amount of one row, or nothing. */
  lemma {:induction false} PostedForOne(calculations: seq<Calculation>, key: CalcKey)
    requires OneLive(calculations) && key.shipment.Some?
    ensures Sum(calculations, PostedForFn(key)) != 0 ==>
              exists i :: 0 <= i < |calculations| && calculations[i].key == key && calculations[i].status == Posted
    ensures forall i :: 0 <= i < |calculations| && calculations[i].key == key && calculations[i].status == Posted ==>
              Sum(calculations, PostedForFn(key)) == calculations[i].amount
  {
    if calculations != [] {
      var n := |calculations| - 1;
      var rest := calculations[..n];
      PostedForOne(rest, key);
      if calculations[n].key == key && calculations[n].status == Posted {
        assert forall i :: 0 <= i < n ==> rest[i] == calculations[i];
        assert !exists i :: 0 <= i < |rest| && rest[i].key == key && rest[i].status == Posted;
      } else if Sum(rest, PostedForFn(key)) != 0 {
        var i :| 0 <= i < |rest| && rest[i].key == key && rest[i].status == Posted;
        assert calculations[i] == rest[i];
      }
    }
  }

  /**
   * In every run of Calculate, Post and Reverse, however the probes interleave:
   * one live calculation per (shipment, type, recipient); all entries ever
   * written for it net to the amount of its POSTED calculation, or to zero; and
   * every account is the sum over the POSTED rows, the accrual of all of them,
   * the two expenses of the volume incentives and of the rest.
   */
  lemma NeverPaidTwice(currency: Currency, events: seq<Event>, key: CalcKey, account: AccountCode)
    requires key.shipment.Some?
    ensures var desk := Run(EmptyDesk(currency), events);
            var net := Sum(desk.entries, EarnedForFn(desk.calculations, key));
            && OneLive(desk.calculations)
            && (net == 0 || exists i :: 0 <= i < |desk.calculations| && desk.calculations[i].key == key && desk.calculations[i].status == Posted)
            && (forall i :: 0 <= i < |desk.calculations| && desk.calculations[i].key == key && desk.calculations[i].status == Posted ==>
                  net == desk.calculations[i].amount)
            && Balance(desk.book, AccountFn(account)) == Sum(desk.calculations, PostedOnFn(account))
  {
    RunKeeps(currency, events, key, account);
    PostedForOne(Run(EmptyDesk(currency), events).calculations, key);
  }

  /** A key is free when none of its calculations is waiting or posted; without a shipment it always is. */
  predicate Free(calculations: seq<Calculation>, key: CalcKey) {
    key.shipment.None? || forall i :: 0 <= i < |calculations| && calculations[i].key == key ==> calculations[i].status == Reversed
  }

  lemma PostsAtOnceIff(desk: Desk, row: Calculation)
    requires Inv(desk) && row.status == Calculated && row.amount >= 0
    ensures PostWrite(desk.(calculations := desk.calculations + [row]), |desk.calculations|).Success? <==>
            row.amount == 0 || (!row.currency.Unsupported? && row.currency == desk.book.currency)
  {
    var posting := Posting(KeyOf(|desk.calculations|, row), row.currency, CommissionLegs(row));
    var found := Find(desk.book.journals, posting.key);
    assert found.Some? ==> JournalValid(desk, found.value);
    PostAcceptedIff(desk.book, posting);
    Sum2(posting.legs[0], posting.legs[1], DebitFn());
    Sum2(posting.legs[0], posting.legs[1], CreditFn());
    assert posting.legs[0] in posting.legs;
  }

  /**
   * When a commission can be calculated: never beside a live calculation of its
   * key, again once that is reversed; and, when it is to be posted at once,
   * exactly when the amount is zero or the ledger holds its currency.
   */
  lemma RecalculateIff(currency: Currency, events: seq<Event>, req: Request)
    ensures var desk := Run(EmptyDesk(currency), events);
            var amount := Slabs.Commission(req.rule, req.basis);
            CalculateWrite(desk, req).Success? <==>
            && req.key.recipientType != "" && req.key.recipientId != 0
            && amount.Some?
            && Free(desk.calculations, req.key)
            && (req.postNow ==> amount.value == 0 || (!req.currency.Unsupported? && req.currency == desk.book.currency))
  {
    var desk := Run(EmptyDesk(currency), events);
    RunKeeps(currency, events, req.key, CommissionPayable);
    var amount := Slabs.Commission(req.rule, req.basis);
    if amount.Some? {
      PostsAtOnceIff(desk, Calculation(req.key, amount.value, req.currency, Calculated, None));
    }
  }

  /** What posting writes, when there is anything to post. */
  lemma PostedTables(desk: Desk, id: nat)
    requires Inv(desk) && PostWrite(desk, id).Success?
    ensures id < |desk.calculations|
    ensures var after, c := PostWrite(desk, id).value, desk.calculations[id];
            && (c.amount == 0 ==> after == desk)
            && (c.amount != 0 ==>
                  && after.calculations == desk.calculations[id := c.(status := Posted, journal := Some(|desk.book.journals|))]
                  && after.entries == desk.entries + [Entry(id, c.amount)])
  {
    var c := desk.calculations[id];
    if c.amount != 0 {
      FreshKey(desk, id);
      PostEffect(desk.book, Posting(KeyOf(id, c), c.currency, CommissionLegs(c)), NetFn());
    }
  }

  /** What reversing writes: the row, its clawback, and a key that is free again. */
  lemma ReversedFrees(desk: Desk, id: nat, reason: string)
    requires Inv(desk) && ReverseWrite(desk, id, reason).Success?
    ensures id < |desk.calculations|
    ensures var after, c := ReverseWrite(desk, id, reason).value, desk.calculations[id];
            && after.calculations == desk.calculations[id := c.(status := Reversed)]
            && after.entries == desk.entries + [Entry(id, -c.amount)]
            && Free(after.calculations, c.key)
  {
  }

  /** When a waiting calculation is posted: once, in the currency of the books unless there is nothing to post. */
  lemma PostSucceedsIff(desk: Desk, id: nat)
    requires Inv(desk)
    ensures PostWrite(desk, id).Success? <==>
            && id < |desk.calculations| && desk.calculations[id].status == Calculated
            && (desk.calculations[id].amount == 0
                || (!desk.book.currency.Unsupported? && desk.calculations[id].currency == desk.book.currency))
  {
    if id < |desk.calculations| && desk.calculations[id].status == Calculated {
      var c := desk.calculations[id];
      assert RowValid(desk, id);
      var posting := Posting(KeyOf(id, c), c.currency, CommissionLegs(c));
      FreshKey(desk, id);
      PostAcceptedIff(desk.book, posting);
      Sum2(posting.legs[0], posting.legs[1], DebitFn());
      Sum2(posting.legs[0], posting.legs[1], CreditFn());
      assert posting.legs[0] in posting.legs;
    }
  }

  /** When a calculation is reversed: for a substantive reason, exactly when it is POSTED. */
  lemma ReverseSucceedsIff(desk: Desk, id: nat, reason: string)
    requires Inv(desk)
    ensures ReverseWrite(desk, id, reason).Success? <==>
            |reason| >= 10 && id < |desk.calculations| && desk.calculations[id].status == Posted
  {
    if id < |desk.calculations| {
      assert RowValid(desk, id);
    }
  }

  /** A calculation of zero is never posted and never reversed: it holds its key for ever. */
  lemma {:induction false} ZeroStays(currency: Currency, events: seq<Event>, later: seq<Event>, id: nat)
    requires var desk := Run(EmptyDesk(currency), events);
             id < |desk.calculations| && desk.calculations[id].amount == 0 && desk.calculations[id].status == Calculated
    ensures var after := Run(Run(EmptyDesk(currency), events), later);
            id < |after.calculations| && after.calculations[id] == Run(EmptyDesk(currency), events).calculations[id]
  {
    if later != [] {
      var n := |later| - 1;
      ZeroStays(currency, events, later[..n], id);
      ZeroStep(Run(Run(EmptyDesk(currency), events), later[..n]), later[n], id);
      RunKeeps(currency, events, CalcKey(None, "", "", 0), CommissionPayable);
      assert RowValid(Run(EmptyDesk(currency), events), id);
    }
  }

  lemma ZeroStep(desk: Desk, event: Event, id: nat)
    requires id < |desk.calculations|
    ensures var c := desk.calculations[id];
            id < |Step(desk, event).calculations|
            && (c.amount == 0 && c.status == Calculated && c.journal.None? ==> Step(desk, event).calculations[id] == c)
  {
  }
}
