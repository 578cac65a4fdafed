/** The commission service over its tables, updated in place. */
module CommissionService {
  import opened Sums
  import opened Ledger
  import Slabs
  import M = Commission
  import opened Commission

  /** FindCalculationForShipment: the live calculation of a key. */
  function FindLive(calculations: seq<Calculation>, key: CalcKey): (found: Option<nat>)
    ensures found.Some? ==> found.value < |calculations| && calculations[found.value].key == key && Live(calculations[found.value])
    ensures found.None? ==> forall c :: c in calculations && c.key == key ==> !Live(c)
  {
    if calculations == [] then None
    else
      var n := |calculations| - 1;
      if calculations[n].key == key && Live(calculations[n]) then Some(n) else FindLive(calculations[..n], key)
  }

  class Service {
    var calculations: seq<Calculation>
    var entries: seq<Entry>
    var book: Book

    function Desk(): M.Desk
      reads this
    {
      M.Desk(calculations, entries, book)
    }

    constructor (currency: Currency)
      ensures Inv(Desk()) && Desk() == EmptyDesk(currency)
    {
      calculations, entries, book := [], [], Book(currency, []);
    }

    /** A retried hook gets the calculation that is already there; otherwise at most one row is added. */
    method Calculate(req: Request) returns (r: Result<(nat, bool), CommissionError>)
      requires Inv(Desk())
      modifies this
      ensures Inv(Desk())
      ensures r.Success? ==> r.value.0 < |calculations| && calculations[r.value.0].key == req.key && Live(calculations[r.value.0])
      ensures r.Success? && !r.value.1 ==>
                && Slabs.Commission(req.rule, req.basis) == Some(calculations[r.value.0].amount)
                && calculations[r.value.0].currency == req.currency
                && (calculations[r.value.0].status == Calculated <==> !req.postNow || calculations[r.value.0].amount == 0)
      ensures req.key.shipment.Some? && FindLive(old(calculations), req.key).Some?
              && req.key.recipientType != "" && req.key.recipientId != 0 ==>
                r == Success((FindLive(old(calculations), req.key).value, true)) && Desk() == old(Desk())
      ensures req.key.shipment.None? || FindLive(old(calculations), req.key).None? ==>
                match CalculateWrite(old(Desk()), req)
                case Success(after) => r == Success((|old(calculations)|, false)) && Desk() == after
                case Failure(e) => r == Failure(e) && Desk() == old(Desk())
    {
      if req.key.recipientType == "" || req.key.recipientId == 0 { return Failure(NoRecipient); }
      if req.key.shipment.Some? {
        var existing := FindLive(calculations, req.key);
        if existing.Some? { return Success((existing.value, true)); }
      }
      var outcome := Slabs.Calculate(req.rule, req.basis);
      if outcome.Failure? { return Failure(NoCommission); }
      var row := Calculation(req.key, outcome.value.amount, req.currency, Calculated, None);
      AddedKeeps(Desk(), row);
      if CalculateWrite(Desk(), req).Success? {
        CalculateKeeps(Desk(), req);
      }
      var id := |calculations|;
      ghost var before := calculations;
      calculations := calculations + [row];
      if req.postNow {
        var error := Post(id);
        if error.Some? {
          calculations := calculations[..id];
          assert calculations == before;
          return Failure(error.value);
        }
      }
      r := Success((id, false));
    }

    /** Posting accrues the amount once; a zero commission posts nothing. */
    method Post(id: nat) returns (error: Option<CommissionError>)
      requires Inv(Desk())
      modifies this
      ensures Inv(Desk())
      ensures match PostWrite(old(Desk()), id)
              case Success(after) => error.None? && Desk() == after
              case Failure(e) => error == Some(e) && Desk() == old(Desk())
      ensures error.None? <==>
                && id < |old(calculations)| && old(calculations)[id].status == Calculated
                && (old(calculations)[id].amount == 0
                    || (!old(book).currency.Unsupported? && old(calculations)[id].currency == old(book).currency))
      ensures error.None? ==>
                var c := old(calculations)[id];
                && (c.amount == 0 ==> Desk() == old(Desk()))
                && (c.amount != 0 ==>
                      && calculations == old(calculations)[id := c.(status := CalcStatus.Posted, journal := Some(|old(book.journals)|))]
                      && entries == old(entries) + [Entry(id, c.amount)])
                && Balance(book, AccountFn(CommissionPayable)) == Balance(old(book), AccountFn(CommissionPayable)) + c.amount
                && var cost := if c.key.commissionType == "VOLUME_INCENTIVE" then IncentiveExpense else CommissionExpense;
                   Balance(book, AccountFn(cost)) == Balance(old(book), AccountFn(cost)) + c.amount
    {
      PostSucceedsIff(Desk(), id);
      if PostWrite(Desk(), id).Success? {
        PostKeeps(Desk(), id);
        PostedTables(Desk(), id);
        PostBooks(Desk(), id, CommissionPayable);
        PostBooks(Desk(), id, if calculations[id].key.commissionType == "VOLUME_INCENTIVE" then IncentiveExpense else CommissionExpense);
      }
      if id >= |calculations| { return Some(Unknown); }
      var c := calculations[id];
      if c.amount == 0 {
        return if c.status == Calculated then None else Some(AlreadyPosted);
      }
      var posted := Ledger.Post(book, Posting(KeyOf(id, c), c.currency, CommissionLegs(c)));
      if posted.Failure? { return Some(LedgerRefused(posted.error)); }
      if c.status != Calculated { return Some(AlreadyPosted); }
      book := posted.value.book;
      calculations := calculations[id := c.(status := CalcStatus.Posted, journal := Some(posted.value.journal))];
      entries := entries + [Entry(id, c.amount)];
      error := None;
    }

    /** Reversing takes the accrual back and frees the key for a corrected calculation. */
    method Reverse(id: nat, reason: string) returns (error: Option<CommissionError>)
      requires Inv(Desk())
      modifies this
      ensures Inv(Desk())
      ensures match ReverseWrite(old(Desk()), id, reason)
              case Success(after) => error.None? && Desk() == after
              case Failure(e) => error == Some(e) && Desk() == old(Desk())
      ensures error.None? <==> |reason| >= 10 && id < |old(calculations)| && old(calculations)[id].status == CalcStatus.Posted
      ensures error.None? ==>
                var c := old(calculations)[id];
                && calculations == old(calculations)[id := c.(status := Reversed)]
                && entries == old(entries) + [Entry(id, -c.amount)]
                && Balance(book, AccountFn(CommissionPayable)) == Balance(old(book), AccountFn(CommissionPayable)) - c.amount
                && (c.key.shipment.Some? ==> Free(calculations, c.key))
    {
      ReverseSucceedsIff(Desk(), id, reason);
      if ReverseWrite(Desk(), id, reason).Success? {
        ReverseKeeps(Desk(), id, reason);
        ReverseBooks(Desk(), id, reason, CommissionPayable);
        ReversedFrees(Desk(), id, reason);
      }
      if |reason| < 10 { return Some(Invalid); }
      if id >= |calculations| { return Some(Unknown); }
      var c := calculations[id];
      if c.journal.None? { return Some(NotPosted); }
      var reversed := Ledger.Reverse(book, c.journal.value);
      if reversed.Failure? { return Some(LedgerRefused(reversed.error)); }
      if c.status != CalcStatus.Posted { return Some(NotPosted); }
      book := reversed.value.book;
      calculations := calculations[id := c.(status := Reversed)];
      entries := entries + [Entry(id, -c.amount)];
      error := None;
    }
  }
}
