/** The bagging service over its tables, updated in place, with the scans and the snapshot built in loops. */
module BaggingService {
  import opened Sums
  import M = Bagging
  import opened Bagging

  class Service {
    var bags: seq<Bag>
    var items: seq<Item>
    var shipments: seq<Shipment>
    var codes: map<string, nat>

    function Depot(): M.Depot
      reads this
    {
      M.Depot(bags, items, shipments, codes)
    }

    constructor ()
      ensures Depot() == EmptyDepot() && Inv(Depot())
    {
      bags, items, shipments, codes := [], [], [], map[];
    }

    /** One scan: its own transaction, which leaves nothing behind when it fails. */
    method AddOne(bag: nat, barcode: string) returns (r: Result<nat, BagError>)
      requires Inv(Depot())
      modifies this
      ensures Inv(Depot())
      ensures match M.AddOne(old(Depot()), bag, barcode)
              case Success(after) => barcode in old(codes) && r == Success(old(codes)[barcode]) && Depot() == after
              case Failure(error) => r == Failure(error) && Depot() == old(Depot())
      ensures r.Success? ==> PutIn(old(Depot()), bag, r.value, Depot()) && WithinCapacity(bags[bag]) && InBag(items, bag, r.value)
    {
      StepKeeps(Depot(), Add(bag, barcode));
      if M.AddOne(Depot(), bag, barcode).Success? {
        AddEffect(Depot(), bag, barcode);
      }
      if bag >= |bags| { return Failure(NotFound); }
      var b := bags[bag];
      if b.status != Open { return Failure(NotOpen); }
      if barcode !in codes || codes[barcode] >= |shipments| { return Failure(NotFound); }
      var id := codes[barcode];
      var sh := shipments[id];
      var error := CompatibilityError(b, sh);
      if error.Some? { return Failure(error.value); }
      if Bagged(items, id) { return Failure(MembershipConflict); }
      if OnRecord(items, bag, id) { return Failure(Duplicate); }
      if sh.pieces < 1 || sh.weight < 0 { return Failure(Internal); }
      var newItems := items + [Item(bag, id, sh.pieces, sh.weight, true, None)];
      var updated := Recalculated(b, bag, newItems);
      if !WithinCapacity(updated) { return Failure(CapacityExceeded); }
      var entered := Enter(sh, bag);
      if entered.None? { return Failure(InvalidTransition); }
      items := newItems;
      bags := bags[bag := updated];
      shipments := shipments[id := entered.value];
      r := Success(id);
    }

    /** One barcode of a batch: refused when it was scanned before, and tried otherwise. */
    method Scan(bag: nat, barcode: string, repeated: bool) returns (result: ItemResult, fatal: bool)
      requires Inv(Depot())
      modifies this
      ensures Inv(Depot()) && Scanned(old(Depot()), bag, barcode, repeated, Depot(), result, fatal)
    {
      result, fatal := Rejected(barcode, DuplicateInBatch), false;
      if !repeated {
        var r := AddOne(bag, barcode);
        fatal := r == Failure(Internal);
        result := if r.Success? then Added(barcode, r.value) else Rejected(barcode, r.error);
      }
    }

    /** A batch of scans. Each succeeds or fails on its own; only an internal error stops the rest. */
    method AddItems(bag: nat, barcodes: seq<string>) returns (results: seq<ItemResult>, added: nat, rejected: nat, fatal: bool)
      requires Inv(Depot())
      modifies this
      ensures Inv(Depot())
      ensures M.AddItems(old(Depot()), bag, barcodes) == Batch(Depot(), results, fatal)
      ensures added == Sum(results, AddedFn()) && rejected == Sum(results, RejectedFn())
      ensures !fatal ==> added + rejected == |barcodes| == |results|
      ensures forall k :: 0 <= k < |results| ==> k < |barcodes| && results[k].barcode == barcodes[k]
    {
      ghost var start := Depot();
      var seen: set<string> := {};
      results, added, rejected, fatal := [], 0, 0, false;
      var k := 0;
      while k < |barcodes| && !fatal
        invariant 0 <= k <= |barcodes| && Inv(Depot())
        invariant seen == Codes(barcodes, k)
        invariant M.AddItems(start, bag, barcodes[..k]) == Batch(Depot(), results, fatal)
        invariant added == Sum(results, AddedFn()) && rejected == Sum(results, RejectedFn())
        decreases |barcodes| - k
      {
        var barcode := barcodes[k];
        ghost var before := Depot();
        var result;
        result, fatal := Scan(bag, barcode, barcode in seen);
        BatchNext(start, bag, barcodes, k, Batch(before, results, false), Depot(), result, fatal);
        seen := seen + {barcode};
        k := k + 1;
        if !fatal {
          Tally(results, result);
          results := results + [result];
          if result.Added? {
            added := added + 1;
          } else {
            rejected := rejected + 1;
          }
        }
      }
      if fatal {
        FatalSticks(start, bag, barcodes, k);
      } else {
        assert barcodes[..k] == barcodes;
      }
      OneResultEach(start, bag, barcodes);
    }

    method RemoveItem(bag: nat, barcode: string) returns (error: Option<BagError>)
      requires Inv(Depot())
      modifies this
      ensures Inv(Depot())
      ensures match M.RemoveItem(old(Depot()), bag, barcode)
              case Success(after) => error.None? && Depot() == after
              case Failure(e) => error == Some(e) && Depot() == old(Depot())
      ensures error.None? <==>
                && bag < |old(bags)| && old(bags)[bag].status == Open
                && barcode in old(codes) && old(codes)[barcode] < |old(shipments)| && InBag(old(items), bag, old(codes)[barcode])
      ensures error.None? ==>
                var id := codes[barcode];
                var sh := old(shipments)[id];
                && TakenOut(old(Depot()), bag, id, None, Depot())
                && shipments == old(shipments)[id := sh.(bag := None, status := if sh.status == OriginBagged then OriginBranchReceived else sh.status)]
                && codes == old(codes)
    {
      StepKeeps(Depot(), Remove(bag, barcode));
      RemoveEffect(Depot(), bag, barcode);
      if bag >= |bags| { return Some(NotFound); }
      if bags[bag].status != Open { return Some(Frozen); }
      if barcode !in codes || codes[barcode] >= |shipments| { return Some(NotFound); }
      var id := codes[barcode];
      var row := FindItem(items, bag, id);
      if row.None? { return Some(NotFound); }
      items := items[row.value := items[row.value].(inBag := false, exception := None)];
      bags := bags[bag := Recalculated(bags[bag], bag, items)];
      shipments := shipments[id := Leave(shipments[id])];
      error := None;
    }

    /** Lists what is in the bag, row by row. */
    method BuildSnapshot(bag: nat) returns (listed: seq<Declared>)
      ensures listed == Contents(items, bag)
    {
      listed := [];
      for k := 0 to |items|
        invariant listed == Contents(items[..k], bag)
      {
        assert items[..k + 1][..k] == items[..k];
        if items[k].bag == bag && items[k].inBag {
          listed := listed + [Declared(items[k].shipment, items[k].pieces, items[k].weight)];
        }
      }
      assert items[..|items|] == items;
    }

    /** Closing writes the declaration: the bag's contents, with counts that add up. */
    method Close(bag: nat) returns (error: Option<BagError>)
      requires Inv(Depot())
      modifies this
      ensures Inv(Depot())
      ensures match CloseBag(old(Depot()), bag)
              case Success(after) => error.None? && Depot() == after
              case Failure(e) => error == Some(e) && Depot() == old(Depot())
      ensures error.None? <==> bag < |old(bags)| && old(bags)[bag].status == Open && old(bags)[bag].count != 0
      ensures error.None? ==>
                var b := old(bags)[bag];
                && bags == old(bags)[bag := b.(status := Closed,
                     declaration := Some(Declaration(b.count, b.pieces, b.weight, Contents(old(items), bag))))]
                && items == old(items) && shipments == old(shipments)
    {
      StepKeeps(Depot(), M.Close(bag));
      if bag >= |bags| { return Some(NotFound); }
      var b := bags[bag];
      if b.status != Open { return Some(InvalidState); }
      if b.count == 0 { return Some(Empty); }
      var listed := BuildSnapshot(bag);
      bags := bags[bag := b.(status := Closed, declaration := Some(Declaration(b.count, b.pieces, b.weight, listed)))];
      error := None;
    }

    /** A bag moves one step of its life cycle; what it declares and holds does not change. */
    method Advance(bag: nat, to: BagStatus, at: Option<int>) returns (error: Option<BagError>)
      requires Inv(Depot())
      modifies this
      ensures Inv(Depot())
      ensures match M.Advance(old(Depot()), bag, to, at)
              case Success(after) => error.None? && Depot() == after
              case Failure(e) => error == Some(e) && Depot() == old(Depot())
      ensures error.None? <==>
                && bag < |old(bags)|
                && (match to
                    case Dispatched => old(bags)[bag].status == Closed
                    case Received => old(bags)[bag].status == Dispatched
                    case Opened => old(bags)[bag].status == Received
                    case Reconciled => old(bags)[bag].status in {Received, Opened}
                    case _ => false)
                && (to in {Received, Opened} && at.Some? ==> at.value == old(bags)[bag].destination)
      ensures error.None? ==> bags == old(bags)[bag := old(bags)[bag].(status := to)] && items == old(items)
    {
      StepKeeps(Depot(), Move(bag, to, at));
      AdvanceEffect(Depot(), bag, to, at);
      if bag >= |bags| { return Some(NotFound); }
      var b := bags[bag];
      if to !in {Dispatched, Received, Opened, Reconciled} || to !in Transitions(b.status) { return Some(InvalidState); }
      if (to == Received || to == Opened) && at.Some? && at.value != b.destination { return Some(WrongDestination); }
      bags := bags[bag := b.(status := to)];
      error := None;
    }

    /** A correction takes one shipment out under its exception; the declaration stands. */
    method Correct(bag: nat, barcode: string, remove: bool, reason: string, exception: Option<int>) returns (error: Option<BagError>)
      requires Inv(Depot())
      modifies this
      ensures Inv(Depot())
      ensures match M.Correct(old(Depot()), bag, barcode, remove, reason, exception)
              case Success(after) => error.None? && Depot() == after
              case Failure(e) => error == Some(e) && Depot() == old(Depot())
      ensures error.None? <==>
                && reason != "" && exception.Some? && remove
                && bag < |old(bags)| && old(bags)[bag].status != Open
                && barcode in old(codes) && InBag(old(items), bag, old(codes)[barcode])
      ensures error.None? ==> TakenOut(old(Depot()), bag, codes[barcode], exception, Depot()) && shipments == old(shipments) && codes == old(codes)
    {
      StepKeeps(Depot(), Fix(bag, barcode, remove, reason, exception));
      CorrectEffect(Depot(), bag, barcode, remove, reason, exception);
      if reason == "" || exception.None? { return Some(Invalid); }
      if bag >= |bags| { return Some(NotFound); }
      if bags[bag].status == Open { return Some(InvalidState); }
      if barcode !in codes { return Some(NotFound); }
      if !remove { return Some(Invalid); }
      var row := FindItem(items, bag, codes[barcode]);
      if row.None? { return Some(NotFound); }
      items := items[row.value := items[row.value].(inBag := false, exception := exception)];
      bags := bags[bag := Recalculated(bags[bag], bag, items)];
      error := None;
    }
  }

  /** The barcodes scanned so far. */
  function Codes(barcodes: seq<string>, k: nat): set<string>
    requires k <= |barcodes|
  {
    set i | 0 <= i < k :: barcodes[i]
  }

  /** What one barcode of a batch does. */
  predicate Scanned(before: M.Depot, bag: nat, barcode: string, repeated: bool, after: M.Depot, result: ItemResult, fatal: bool) {
    if repeated then after == before && result == Rejected(barcode, DuplicateInBatch) && !fatal
    else
      match M.AddOne(before, bag, barcode)
      case Success(next) => barcode in before.codes && after == next && result == Added(barcode, before.codes[barcode]) && !fatal
      case Failure(error) => after == before && result == Rejected(barcode, error) && (fatal <==> error == Internal)
  }

  /** One more barcode takes a batch one step on. */
  lemma BatchNext(depot: M.Depot, bag: nat, barcodes: seq<string>, k: nat, done: Batch, after: M.Depot, result: ItemResult, fatal: bool)
    requires k < |barcodes| && M.AddItems(depot, bag, barcodes[..k]) == done && !done.fatal
    requires Scanned(done.depot, bag, barcodes[k], barcodes[k] in Codes(barcodes, k), after, result, fatal)
    ensures M.AddItems(depot, bag, barcodes[..k + 1]) == Batch(after, if fatal then done.results else done.results + [result], fatal)
  {
    assert barcodes[..k + 1][..k] == barcodes[..k];
    assert barcodes[k] in Codes(barcodes, k) <==> barcodes[k] in barcodes[..k];
  }

  lemma Tally(results: seq<ItemResult>, r: ItemResult)
    ensures Sum(results + [r], AddedFn()) == Sum(results, AddedFn()) + (if r.Added? then 1 else 0)
    ensures Sum(results + [r], RejectedFn()) == Sum(results, RejectedFn()) + (if r.Added? then 0 else 1)
  {
    SumAppend(results, r, AddedFn());
    SumAppend(results, r, RejectedFn());
  }

  /** A batch that stopped part-way ends where it stopped. */
  lemma {:induction false} FatalSticks(depot: M.Depot, bag: nat, barcodes: seq<string>, k: nat)
    requires k <= |barcodes| && M.AddItems(depot, bag, barcodes[..k]).fatal
    ensures M.AddItems(depot, bag, barcodes) == M.AddItems(depot, bag, barcodes[..k])
  {
    if k == |barcodes| {
      assert barcodes[..k] == barcodes;
    } else {
      var n := |barcodes| - 1;
      assert barcodes[..n][..k] == barcodes[..k];
      FatalSticks(depot, bag, barcodes[..n], k);
    }
  }
}
