/**
 * Customer credit: ReserveCredit and ReleaseCredit of internal/customer/customer.go,
 * with the profile upsert of db/queries/customer.sql.
 */
module Credit {
  import opened Sums

  datatype CreditStatus = Good | Warning | OnHold | Blocked

  datatype Profile = Profile(limit: int, status: CreditStatus, used: int)

  /** A line of the append-only history. */
  datatype Entry = Entry(customer: int, amount: int, balanceAfter: int)

  datatype Accounts = Accounts(profiles: map<int, Profile>, entries: seq<Entry>)

  datatype CreditError = NoProfile | Suspended | LimitExceeded | ConstraintViolated

  // ----- Transactions -------------------------------------------------------

  /** AdjustCreditUsage and the entry that records it. */
  function Adjusted(a: Accounts, customer: int, delta: int): Accounts
    requires customer in a.profiles
  {
    var used := a.profiles[customer].used + delta;
    Accounts(a.profiles[customer := a.profiles[customer].(used := used)], a.entries + [Entry(customer, delta, used)])
  }

  function Reserve(a: Accounts, customer: int, amount: int): Result<Accounts, CreditError> {
    if amount <= 0 then Success(a)
    else if customer !in a.profiles then Failure(NoProfile)
    else
      var p := a.profiles[customer];
      if p.status in {Blocked, OnHold} then Failure(Suspended)
      else if p.used + amount > p.limit then Failure(LimitExceeded)
      else Success(Adjusted(a, customer, amount))
  }

  function Release(a: Accounts, customer: int, amount: int): Accounts {
    if amount <= 0 || customer !in a.profiles then a
    else
      var p := a.profiles[customer];
      var released := if amount > p.used then p.used else amount;
      if released == 0 then a else Adjusted(a, customer, -released)
  }

  /** A new profile starts unused; an existing one keeps what it has used. */
  function Upsert(a: Accounts, customer: int, limit: int, status: CreditStatus): Result<Accounts, CreditError> {
    if limit < 0 then Failure(ConstraintViolated)
    else
      var used := if customer in a.profiles then a.profiles[customer].used else 0;
      Success(a.(profiles := a.profiles[customer := Profile(limit, status, used)]))
  }

  datatype Event =
    | Book(customer: int, amount: int)
    | Cancel(customer: int, amount: int)
    | Review(customer: int, limit: int, status: CreditStatus)

  function Step(a: Accounts, event: Event): Accounts {
    match event
    case Book(customer, amount) =>
      var outcome := Reserve(a, customer, amount);
      if outcome.Success? then outcome.value else a
    case Cancel(customer, amount) => Release(a, customer, amount)
    case Review(customer, limit, status) =>
      var outcome := Upsert(a, customer, limit, status);
      if outcome.Success? then outcome.value else a
  }

  function Run(a: Accounts, events: seq<Event>): Accounts {
    if events == [] then a else Step(Run(a, events[..|events| - 1]), events[|events| - 1])
  }

  const NO_ACCOUNTS := Accounts(map[], [])

  // ----- What each transaction does -----------------------------------------

  /** When credit is reserved: for a known customer in good standing, up to the limit; asking for nothing is granted. */
  lemma ReserveSucceedsIff(a: Accounts, customer: int, amount: int)
    ensures Reserve(a, customer, amount).Success? <==>
            || amount <= 0
            || (&& customer in a.profiles
                && a.profiles[customer].status != OnHold && a.profiles[customer].status != Blocked
                && a.profiles[customer].used + amount <= a.profiles[customer].limit)
  {
  }

  /** What a reservation writes: the use is up by the amount, and the history says so. */
  lemma ReserveEffect(a: Accounts, customer: int, amount: int)
    requires Reserve(a, customer, amount).Success?
    ensures amount <= 0 ==> Reserve(a, customer, amount).value == a
    ensures amount > 0 ==>
            && customer in a.profiles
            && var p := a.profiles[customer];
               Reserve(a, customer, amount).value
               == Accounts(a.profiles[customer := p.(used := p.used + amount)], a.entries + [Entry(customer, amount, p.used + amount)])
  {
  }

  /** A review sets limit and standing, keeps what is used, and is refused a negative limit. */
  lemma ReviewEffect(a: Accounts, customer: int, limit: int, status: CreditStatus)
    ensures Upsert(a, customer, limit, status).Success? <==> limit >= 0
    ensures limit >= 0 ==>
            var after := Upsert(a, customer, limit, status).value;
            && after.entries == a.entries && after.profiles.Keys == a.profiles.Keys + {customer}
            && after.profiles[customer].limit == limit && after.profiles[customer].status == status
            && Used(after, customer) == Used(a, customer)
            && forall c :: c in a.profiles && c != customer ==> after.profiles[c] == a.profiles[c]
  {
    if limit >= 0 {
      assert Upsert(a, customer, limit, status).value.profiles.Keys == a.profiles.Keys + {customer};
    }
  }

  // ----- The history reproduces the counter ---------------------------------

  function EntryFn(customer: int): Entry -> int {
    (e: Entry) => if e.customer == customer then e.amount else 0
  }

  function Used(a: Accounts, customer: int): int {
    if customer in a.profiles then a.profiles[customer].used else 0
  }

  /** Every entry's balance is the sum of the customer's entries up to and including it. */
  ghost predicate RunningBalances(entries: seq<Entry>) {
    forall k :: 0 <= k < |entries| ==>
      entries[k].balanceAfter == Sum(entries[..k + 1], EntryFn(entries[k].customer)) && entries[k].balanceAfter >= 0
  }

  ghost predicate Inv(a: Accounts) {
    && (forall c :: Used(a, c) == Sum(a.entries, EntryFn(c)) && Used(a, c) >= 0)
    && RunningBalances(a.entries)
  }

  lemma AdjustKeeps(a: Accounts, customer: int, delta: int)
    requires Inv(a) && customer in a.profiles && a.profiles[customer].used + delta >= 0
    ensures Inv(Adjusted(a, customer, delta))
  {
    var after := Adjusted(a, customer, delta);
    var entry := after.entries[|a.entries|];
    forall c
      ensures Used(after, c) == Sum(after.entries, EntryFn(c)) && Used(after, c) >= 0
    {
      assert Used(a, c) == Sum(a.entries, EntryFn(c)) && Used(a, c) >= 0;
      SumAppend(a.entries, entry, EntryFn(c));
    }
    forall k | 0 <= k < |after.entries|
      ensures after.entries[k].balanceAfter == Sum(after.entries[..k + 1], EntryFn(after.entries[k].customer))
      ensures after.entries[k].balanceAfter >= 0
    {
      if k < |a.entries| {
        assert after.entries[..k + 1] == a.entries[..k + 1];
      } else {
        assert after.entries[..k + 1] == after.entries;
        assert Used(after, customer) == entry.balanceAfter;
      }
    }
  }

  lemma ReserveKeeps(a: Accounts, customer: int, amount: int)
    requires Inv(a) && Reserve(a, customer, amount).Success?
    ensures Inv(Reserve(a, customer, amount).value)
  {
    if amount > 0 {
      assert Used(a, customer) >= 0;
      AdjustKeeps(a, customer, amount);
    }
  }

  lemma ReleaseKeeps(a: Accounts, customer: int, amount: int)
    requires Inv(a)
    ensures Inv(Release(a, customer, amount))
  {
    if amount > 0 && customer in a.profiles {
      assert Used(a, customer) >= 0;
      var used := a.profiles[customer].used;
      if used > 0 {
        AdjustKeeps(a, customer, if amount > used then -used else -amount);
      } else {
        assert Release(a, customer, amount) == a;
      }
    }
  }

  lemma UpsertKeeps(a: Accounts, customer: int, limit: int, status: CreditStatus)
    requires Inv(a) && Upsert(a, customer, limit, status).Success?
    ensures Inv(Upsert(a, customer, limit, status).value)
  {
    var after := Upsert(a, customer, limit, status).value;
    forall c
      ensures Used(after, c) == Sum(after.entries, EntryFn(c)) && Used(after, c) >= 0
    {
      assert Used(after, c) == Used(a, c);
    }
  }

  lemma StepKeeps(a: Accounts, event: Event)
    requires Inv(a)
    ensures Inv(Step(a, event))
  {
    match event
    case Book(customer, amount) =>
      if Reserve(a, customer, amount).Success? {
        ReserveKeeps(a, customer, amount);
      }
    case Cancel(customer, amount) => ReleaseKeeps(a, customer, amount);
    case Review(customer, limit, status) =>
      if Upsert(a, customer, limit, status).Success? {
        UpsertKeeps(a, customer, limit, status);
      }
  }

  /**
   * In every run of reservations, releases and limit changes: what is used is
   * the sum of the entries and never negative, and each entry carries the
   * running balance.
   */
  lemma {:induction false} HistoryReproducesCounter(events: seq<Event>)
    ensures Inv(Run(NO_ACCOUNTS, events))
  {
    if events != [] {
      var n := |events| - 1;
      HistoryReproducesCounter(events[..n]);
      StepKeeps(Run(NO_ACCOUNTS, events[..n]), events[n]);
    }
  }

  /** A release gives back what was asked for, or all that is used when that is less, and says so in the history. */
  lemma ReleaseEffect(a: Accounts, customer: int, amount: int)
    requires Inv(a)
    ensures amount <= 0 || customer !in a.profiles || a.profiles[customer].used == 0 ==> Release(a, customer, amount) == a
    ensures amount > 0 && customer in a.profiles && a.profiles[customer].used > 0 ==>
            var p := a.profiles[customer];
            var released := if amount < p.used then amount else p.used;
            Release(a, customer, amount)
            == Accounts(a.profiles[customer := p.(used := p.used - released)], a.entries + [Entry(customer, -released, p.used - released)])
  {
    assert Used(a, customer) >= 0;
  }

  /** A step that raises what a customer has used is a reservation, and stays within the limit then in force. */
  lemma RaisesWithinLimit(a: Accounts, event: Event, customer: int)
    requires Inv(a) && Used(Step(a, event), customer) > Used(a, customer)
    ensures event.Book? && event.customer == customer && customer in a.profiles
    ensures Used(Step(a, event), customer) == Used(a, customer) + event.amount <= a.profiles[customer].limit
    ensures a.profiles[customer].status != Blocked && a.profiles[customer].status != OnHold
  {
    assert Used(a, customer) >= 0;
  }

  predicate Cancels(event: Event, customer: int) {
    event.Cancel? && event.customer == customer
  }

  predicate Books(event: Event, customer: int) {
    event.Book? && event.customer == customer
  }

  lemma UsedStep(a: Accounts, event: Event, customer: int)
    requires !Cancels(event, customer)
    ensures customer in a.profiles ==> customer in Step(a, event).profiles
    ensures Used(Step(a, event), customer) >= Used(a, customer)
    ensures !Books(event, customer) ==> Used(Step(a, event), customer) == Used(a, customer)
  {
  }

  /** Without cancellations a customer's use only grows, and only by bookings. */
  lemma {:induction false} UsedGrows(a: Accounts, events: seq<Event>, customer: int)
    requires forall k :: 0 <= k < |events| ==> !Cancels(events[k], customer)
    ensures customer in a.profiles ==> customer in Run(a, events).profiles
    ensures Used(Run(a, events), customer) >= Used(a, customer)
    ensures (forall k :: 0 <= k < |events| ==> !Books(events[k], customer)) ==> Used(Run(a, events), customer) == Used(a, customer)
  {
    if events != [] {
      var n := |events| - 1;
      UsedGrows(a, events[..n], customer);
      UsedStep(Run(a, events[..n]), events[n], customer);
    }
  }

  /**
   * A booking that is cancelled later, whatever other customers do and however
   * the limit moves in between, gives back exactly its amount: the release is
   * never cut short, and with no booking of the customer in between the use is
   * what it was before.
   */
  lemma CancelUndoesBook(a: Accounts, customer: int, amount: int, between: seq<Event>, other: int)
    requires Inv(a) && amount > 0 && Reserve(a, customer, amount).Success?
    requires forall k :: 0 <= k < |between| ==> !Cancels(between[k], customer)
    ensures var before := Run(Reserve(a, customer, amount).value, between);
            && Used(Release(before, customer, amount), customer) == Used(before, customer) - amount
            && (other != customer ==> Used(Release(before, customer, amount), other) == Used(before, other))
            && ((forall k :: 0 <= k < |between| ==> !Books(between[k], customer)) ==>
                  Used(Release(before, customer, amount), customer) == Used(a, customer))
  {
    assert Used(a, customer) >= 0;
    UsedGrows(Reserve(a, customer, amount).value, between, customer);
  }

  // ----- The service --------------------------------------------------------

  class Service {
    var profiles: map<int, Profile>
    var entries: seq<Entry>

    ghost function Contents(): Accounts
      reads this
    {
      Accounts(profiles, entries)
    }

    constructor ()
      ensures Inv(Contents()) && Contents() == NO_ACCOUNTS
    {
      profiles, entries := map[], [];
    }

    /** Checks the profile, adds to what is used and records it. */
    method WriteReservation(customer: int, amount: int) returns (error: Option<CreditError>)
      modifies this
      ensures match Reserve(old(Contents()), customer, amount)
              case Success(after) => error.None? && Contents() == after
              case Failure(e) => error == Some(e) && Contents() == old(Contents())
    {
      if amount <= 0 { return None; }
      if customer !in profiles { return Some(NoProfile); }
      var p := profiles[customer];
      if p.status == Blocked || p.status == OnHold { return Some(Suspended); }
      if p.used + amount > p.limit { return Some(LimitExceeded); }
      profiles := profiles[customer := p.(used := p.used + amount)];
      entries := entries + [Entry(customer, amount, p.used + amount)];
      error := None;
    }

    method ReserveCredit(customer: int, amount: int) returns (error: Option<CreditError>)
      requires Inv(Contents())
      modifies this
      ensures Inv(Contents())
      ensures match Reserve(old(Contents()), customer, amount)
              case Success(after) => error.None? && Contents() == after
              case Failure(e) => error == Some(e) && Contents() == old(Contents())
      ensures error.None? <==>
                || amount <= 0
                || (&& customer in old(profiles)
                    && old(profiles)[customer].status != OnHold && old(profiles)[customer].status != Blocked
                    && old(profiles)[customer].used + amount <= old(profiles)[customer].limit)
      ensures error.None? && amount > 0 ==>
                var p := old(profiles)[customer];
                && profiles == old(profiles)[customer := p.(used := p.used + amount)]
                && entries == old(entries) + [Entry(customer, amount, p.used + amount)]
      ensures error.Some? || amount <= 0 ==> profiles == old(profiles) && entries == old(entries)
    {
      ReserveSucceedsIff(Contents(), customer, amount);
      if Reserve(Contents(), customer, amount).Success? {
        ReserveKeeps(Contents(), customer, amount);
        ReserveEffect(Contents(), customer, amount);
      }
      error := WriteReservation(customer, amount);
    }

    /** Takes the capped amount off the profile and records it. */
    method WriteRelease(customer: int, amount: int)
      modifies this
      ensures Contents() == Release(old(Contents()), customer, amount)
    {
      if amount <= 0 || customer !in profiles { return; }
      var p := profiles[customer];
      var released := amount;
      if released > p.used {
        released := p.used;
      }
      if released == 0 { return; }
      profiles := profiles[customer := p.(used := p.used - released)];
      entries := entries + [Entry(customer, -released, p.used - released)];
    }

    method ReleaseCredit(customer: int, amount: int)
      requires Inv(Contents())
      modifies this
      ensures Inv(Contents()) && Contents() == Release(old(Contents()), customer, amount)
      ensures amount > 0 && customer in old(profiles) && old(profiles)[customer].used > 0 ==>
                var p := old(profiles)[customer];
                var released := if amount < p.used then amount else p.used;
                && profiles == old(profiles)[customer := p.(used := p.used - released)]
                && entries == old(entries) + [Entry(customer, -released, p.used - released)]
      ensures amount <= 0 || customer !in old(profiles) || old(profiles)[customer].used == 0 ==>
                profiles == old(profiles) && entries == old(entries)
    {
      ReleaseKeeps(Contents(), customer, amount);
      ReleaseEffect(Contents(), customer, amount);
      WriteRelease(customer, amount);
    }
  }
}
