/**
 * Bags: internal/bagging/bagging.go and internal/bagging/lifecycle.go over the
 * statements of internal/dbgen/bagging.sql.gen.go and the constraints of
 * db/migrations/0014_bagging_manifest.up.sql. Each function is one transaction.
 */
module Bagging {
  import opened Sums

  datatype BagStatus = Open | Closed | Dispatched | Received | Opened | Reconciled | Cancelled

  datatype Direction = Forward | Reverse

  datatype ShipmentStatus =
    | OriginBranchReceived | OriginBagged | TransitHubReceived | DestinationHubReceived
    | RtoInitiated | RtoInTransit | Elsewhere(name: string)

  datatype Shipment = Shipment(
    status: ShipmentStatus, custody: Option<int>, held: bool, direction: Direction, service: int,
    originBranch: Option<int>, originHub: Option<int>, destinationHub: Option<int>, destinationBranch: Option<int>,
    pieces: int, weight: int, bag: Option<nat>)

  datatype Declared = Declared(shipment: nat, pieces: int, weight: int)

  /** The content snapshot written when a bag is closed. */
  datatype Declaration = Declaration(count: int, pieces: int, weight: int, items: seq<Declared>)

  datatype Bag = Bag(
    origin: int, destination: int, service: Option<int>, direction: Direction,
    maxShipments: Option<int>, maxWeight: Option<int>,
    status: BagStatus, count: int, pieces: int, weight: int, declaration: Option<Declaration>)

  /** A removed item keeps its row; `exception` is the record that allowed a removal after closure. */
  datatype Item = Item(bag: nat, shipment: nat, pieces: int, weight: int, inBag: bool, exception: Option<int>)

  datatype Depot = Depot(bags: seq<Bag>, items: seq<Item>, shipments: seq<Shipment>, codes: map<string, nat>)

  datatype BagError =
    | NotFound | NotOpen | InvalidState | InvalidShipment | WrongCustody | OnHold | WrongDirection | WrongService
    | WrongDestination | MembershipConflict | Duplicate | DuplicateInBatch | CapacityExceeded | InvalidTransition
    | Frozen | Empty | Invalid | Internal

  // ----- Life cycle ---------------------------------------------------------

  function Transitions(from: BagStatus): set<BagStatus> {
    match from
    case Open => {Closed, Cancelled}
    case Closed => {Dispatched, Open, Cancelled}
    case Dispatched => {Received}
    case Received => {Opened, Reconciled}
    case Opened => {Reconciled}
    case _ => {}
  }

  // ----- Contents -----------------------------------------------------------

  predicate Holds(i: Item, bag: nat) {
    i.bag == bag && i.inBag
  }

  function CountFn(bag: nat): Item -> int {
    (i: Item) => if Holds(i, bag) then 1 else 0
  }

  function PiecesFn(bag: nat): Item -> int {
    (i: Item) => if Holds(i, bag) then i.pieces else 0
  }

  function WeightFn(bag: nat): Item -> int {
    (i: Item) => if Holds(i, bag) then i.weight else 0
  }

  function DeclaredPiecesFn(): Declared -> int {
    (d: Declared) => d.pieces
  }

  function DeclaredWeightFn(): Declared -> int {
    (d: Declared) => d.weight
  }

  /** ListBagItems, active only: what is in a bag, in the order it was added. */
  function Contents(items: seq<Item>, bag: nat): seq<Declared> {
    if items == [] then []
    else
      var n := |items| - 1;
      Contents(items[..n], bag)
      + (if Holds(items[n], bag) then [Declared(items[n].shipment, items[n].pieces, items[n].weight)] else [])
  }

  /** RecalculateBagCounters. */
  function Recalculated(b: Bag, id: nat, items: seq<Item>): Bag {
    b.(count := Sum(items, CountFn(id)), pieces := Sum(items, PiecesFn(id)), weight := Sum(items, WeightFn(id)))
  }

  // ----- Adding -------------------------------------------------------------

  predicate OnPath(unit: int, sh: Shipment) {
    if sh.direction == Reverse then Some(unit) in {sh.originBranch, sh.originHub, sh.destinationHub}
    else Some(unit) in {sh.originHub, sh.destinationHub, sh.destinationBranch}
  }

  function CompatibilityError(b: Bag, sh: Shipment): Option<BagError> {
    if sh.status !in {OriginBranchReceived, TransitHubReceived, DestinationHubReceived, RtoInTransit, RtoInitiated}
    then Some(InvalidShipment)
    else if sh.custody != Some(b.origin) then Some(WrongCustody)
    else if sh.held then Some(OnHold)
    else if sh.direction != b.direction then Some(WrongDirection)
    else if b.service.Some? && b.service.value != sh.service then Some(WrongService)
    else if !OnPath(b.destination, sh) then Some(WrongDestination)
    else None
  }

  predicate WithinCapacity(b: Bag) {
    (b.maxShipments.Some? ==> b.count <= b.maxShipments.value) && (b.maxWeight.Some? ==> b.weight <= b.maxWeight.value)
  }

  predicate Bagged(items: seq<Item>, shipment: nat) {
    exists i :: 0 <= i < |items| && items[i].shipment == shipment && items[i].inBag
  }

  predicate OnRecord(items: seq<Item>, bag: nat, shipment: nat) {
    exists i :: 0 <= i < |items| && items[i].bag == bag && items[i].shipment == shipment
  }

  /** Forward parcels move to ORIGIN_BAGGED, which the shipment life cycle allows from one state only. */
  function Enter(sh: Shipment, bag: nat): Option<Shipment> {
    if sh.direction == Reverse then Some(sh.(bag := Some(bag)))
    else if sh.status == OriginBranchReceived then Some(sh.(status := OriginBagged, bag := Some(bag)))
    else None
  }

  function AddOne(depot: Depot, bag: nat, barcode: string): Result<Depot, BagError> {
    if bag >= |depot.bags| then Failure(NotFound)
    else if depot.bags[bag].status != Open then Failure(NotOpen)
    else if barcode !in depot.codes || depot.codes[barcode] >= |depot.shipments| then Failure(NotFound)
    else
      var id := depot.codes[barcode];
      var sh := depot.shipments[id];
      var error := CompatibilityError(depot.bags[bag], sh);
      if error.Some? then Failure(error.value)
      else if Bagged(depot.items, id) then Failure(MembershipConflict)
      else if OnRecord(depot.items, bag, id) then Failure(Duplicate)
      else if sh.pieces < 1 || sh.weight < 0 then Failure(Internal)
      else
        var items := depot.items + [Item(bag, id, sh.pieces, sh.weight, true, None)];
        var updated := Recalculated(depot.bags[bag], bag, items);
        if !WithinCapacity(updated) then Failure(CapacityExceeded)
        else
          match Enter(sh, bag)
          case None => Failure(InvalidTransition)
          case Some(entered) =>
            Success(depot.(bags := depot.bags[bag := updated], items := items,
                           shipments := depot.shipments[id := entered]))
  }

  // ----- Removing -----------------------------------------------------------

  /** The row of the item in the bag, if there is one. */
  function FindItem(items: seq<Item>, bag: nat, shipment: nat): (found: Option<nat>)
    ensures found.Some? ==> found.value < |items| && Holds(items[found.value], bag) && items[found.value].shipment == shipment
    ensures found.None? ==> forall i :: 0 <= i < |items| && Holds(items[i], bag) ==> items[i].shipment != shipment
  {
    if items == [] then None
    else
      var n := |items| - 1;
      if Holds(items[n], bag) && items[n].shipment == shipment then Some(n) else FindItem(items[..n], bag, shipment)
  }

  function Leave(sh: Shipment): Shipment {
    if sh.status == OriginBagged then sh.(status := OriginBranchReceived, bag := None) else sh.(bag := None)
  }

  /** RemoveBagItem and the recalculation that follows it. */
  function TakeOut(depot: Depot, bag: nat, row: nat, exception: Option<int>): Depot
    requires bag < |depot.bags| && row < |depot.items|
  {
    var items := depot.items[row := depot.items[row].(inBag := false, exception := exception)];
    depot.(items := items, bags := depot.bags[bag := Recalculated(depot.bags[bag], bag, items)])
  }

  function RemoveItem(depot: Depot, bag: nat, barcode: string): Result<Depot, BagError> {
    if bag >= |depot.bags| then Failure(NotFound)
    else if depot.bags[bag].status != Open then Failure(Frozen)
    else if barcode !in depot.codes || depot.codes[barcode] >= |depot.shipments| then Failure(NotFound)
    else
      var id := depot.codes[barcode];
      var row := FindItem(depot.items, bag, id);
      if row.None? then Failure(NotFound)
      else
        var taken := TakeOut(depot, bag, row.value, None);
        Success(taken.(shipments := depot.shipments[id := Leave(depot.shipments[id])]))
  }

  /** The post-closure correction. It needs a reason and an exception record, and only removes. */
  function Correct(depot: Depot, bag: nat, barcode: string, remove: bool, reason: string, exception: Option<int>): Result<Depot, BagError> {
    if reason == "" || exception.None? then Failure(Invalid)
    else if bag >= |depot.bags| then Failure(NotFound)
    else if depot.bags[bag].status == Open then Failure(InvalidState)
    else if barcode !in depot.codes then Failure(NotFound)
    else if !remove then Failure(Invalid)
    else
      var row := FindItem(depot.items, bag, depot.codes[barcode]);
      if row.None? then Failure(NotFound) else Success(TakeOut(depot, bag, row.value, exception))
  }

  // ----- Closing and moving -------------------------------------------------

  function Snapshot(b: Bag, id: nat, items: seq<Item>): Declaration {
    Declaration(b.count, b.pieces, b.weight, Contents(items, id))
  }

  function CloseBag(depot: Depot, bag: nat): Result<Depot, BagError> {
    if bag >= |depot.bags| then Failure(NotFound)
    else
      var b := depot.bags[bag];
      if b.status != Open then Failure(InvalidState)
      else if b.count == 0 then Failure(Empty)
      else Success(depot.(bags := depot.bags[bag := b.(status := Closed, declaration := Some(Snapshot(b, bag, depot.items)))]))
  }

  /** Dispatch, receive, open and reconcile. */
  function Advance(depot: Depot, bag: nat, to: BagStatus, at: Option<int>): Result<Depot, BagError> {
    if bag >= |depot.bags| then Failure(NotFound)
    else if to !in {Dispatched, Received, Opened, Reconciled} || to !in Transitions(depot.bags[bag].status) then Failure(InvalidState)
    else if to in {Received, Opened} && at.Some? && at.value != depot.bags[bag].destination then Failure(WrongDestination)
    else Success(depot.(bags := depot.bags[bag := depot.bags[bag].(status := to)]))
  }

  function CreateBag(depot: Depot, origin: int, destination: int, service: Option<int>, direction: Direction,
                     maxShipments: Option<int>, maxWeight: Option<int>): Result<Depot, BagError> {
    if origin == destination then Failure(Invalid)
    else if (maxShipments.Some? && maxShipments.value <= 0) || (maxWeight.Some? && maxWeight.value <= 0) then Failure(Internal)
    else Success(depot.(bags := depot.bags + [Bag(origin, destination, service, direction, maxShipments, maxWeight, Open, 0, 0, 0, None)]))
  }

  // ----- Batches ------------------------------------------------------------

  datatype ItemResult = Added(barcode: string, shipment: nat) | Rejected(barcode: string, reason: BagError)

  /** `fatal` when the batch stopped on an internal error; what was added before it stays. */
  datatype Batch = Batch(depot: Depot, results: seq<ItemResult>, fatal: bool)

  function AddItems(depot: Depot, bag: nat, barcodes: seq<string>): Batch {
    if barcodes == [] then Batch(depot, [], false)
    else
      var n := |barcodes| - 1;
      var done := AddItems(depot, bag, barcodes[..n]);
      if done.fatal then done
      else if barcodes[n] in barcodes[..n] then done.(results := done.results + [Rejected(barcodes[n], DuplicateInBatch)])
      else
        match AddOne(done.depot, bag, barcodes[n])
        case Success(next) => Batch(next, done.results + [Added(barcodes[n], done.depot.codes[barcodes[n]])], false)
        case Failure(error) =>
          if error == Internal then done.(fatal := true)
          else done.(results := done.results + [Rejected(barcodes[n], error)])
  }

  // ----- Runs ---------------------------------------------------------------

  datatype Event =
    | Create(origin: int, destination: int, service: Option<int>, direction: Direction, maxShipments: Option<int>, maxWeight: Option<int>)
    | Add(bag: nat, barcode: string)
    | Remove(bag: nat, barcode: string)
    | Close(bag: nat)
    | Move(bag: nat, to: BagStatus, at: Option<int>)
    | Fix(bag: nat, barcode: string, remove: bool, reason: string, exception: Option<int>)
    // Whatever the rest of the system does to shipments and their barcodes.
    | World(shipments: seq<Shipment>, codes: map<string, nat>)

  function Outcome(depot: Depot, event: Event): Result<Depot, BagError> {
    match event
    case Create(origin, destination, service, direction, maxShipments, maxWeight) =>
      CreateBag(depot, origin, destination, service, direction, maxShipments, maxWeight)
    case Add(bag, barcode) => AddOne(depot, bag, barcode)
    case Remove(bag, barcode) => RemoveItem(depot, bag, barcode)
    case Close(bag) => CloseBag(depot, bag)
    case Move(bag, to, at) => Advance(depot, bag, to, at)
    case Fix(bag, barcode, remove, reason, exception) => Correct(depot, bag, barcode, remove, reason, exception)
    case World(shipments, codes) => Success(depot.(shipments := shipments, codes := codes))
  }

  function Step(depot: Depot, event: Event): Depot {
    var outcome := Outcome(depot, event);
    if outcome.Success? then outcome.value else depot
  }

  function Run(depot: Depot, events: seq<Event>): Depot {
    if events == [] then depot else Step(Run(depot, events[..|events| - 1]), events[|events| - 1])
  }

  function EmptyDepot(): Depot {
    Depot([], [], [], map[])
  }

  // ----- The invariant ------------------------------------------------------

  /** What a closed bag held when it was closed: what it holds now and what an exception took out. */
  predicate WasHeld(i: Item, bag: nat) {
    i.bag == bag && (i.inBag || i.exception.Some?)
  }

  function AsClosed(items: seq<Item>, bag: nat): seq<Declared> {
    if items == [] then []
    else
      var n := |items| - 1;
      AsClosed(items[..n], bag)
      + (if WasHeld(items[n], bag) then [Declared(items[n].shipment, items[n].pieces, items[n].weight)] else [])
  }

  predicate CountersExact(depot: Depot, id: nat)
    requires id < |depot.bags|
  {
    depot.bags[id] == Recalculated(depot.bags[id], id, depot.items)
  }

  predicate DeclarationAddsUp(d: Declaration) {
    d.count == |d.items| && d.pieces == Sum(d.items, DeclaredPiecesFn()) && d.weight == Sum(d.items, DeclaredWeightFn())
  }

  predicate BagValid(depot: Depot, id: nat)
    requires id < |depot.bags|
  {
    var b := depot.bags[id];
    && CountersExact(depot, id)
    && WithinCapacity(b)
    && (b.status == Open ==> b.declaration.None?)
    && (b.status != Open ==> b.declaration.Some? && DeclarationAddsUp(b.declaration.value)
                             && b.declaration.value.items == AsClosed(depot.items, id))
  }

  predicate ItemValid(depot: Depot, i: Item) {
    && i.bag < |depot.bags| && i.pieces >= 1 && i.weight >= 0
    && (i.inBag ==> i.exception.None?)
    && (depot.bags[i.bag].status == Open ==> i.exception.None?)
  }

  /** No shipment is in two bags, nor recorded twice against one. */
  ghost predicate Exclusive(items: seq<Item>) {
    forall i, j :: 0 <= i < j < |items| && items[i].shipment == items[j].shipment ==>
      items[i].bag != items[j].bag && !(items[i].inBag && items[j].inBag)
  }

  ghost predicate Inv(depot: Depot) {
    && (forall id :: 0 <= id < |depot.bags| ==> BagValid(depot, id))
    && (forall i :: 0 <= i < |depot.items| ==> ItemValid(depot, depot.items[i]))
    && Exclusive(depot.items)
  }

  // ----- Contents and counters ----------------------------------------------

  lemma ItemsAppend(items: seq<Item>, i: Item, bag: nat)
    ensures Sum(items + [i], CountFn(bag)) == Sum(items, CountFn(bag)) + (if Holds(i, bag) then 1 else 0)
    ensures Sum(items + [i], PiecesFn(bag)) == Sum(items, PiecesFn(bag)) + (if Holds(i, bag) then i.pieces else 0)
    ensures Sum(items + [i], WeightFn(bag)) == Sum(items, WeightFn(bag)) + (if Holds(i, bag) then i.weight else 0)
    ensures !WasHeld(i, bag) ==> AsClosed(items + [i], bag) == AsClosed(items, bag)
  {
    SumAppend(items, i, CountFn(bag));
    SumAppend(items, i, PiecesFn(bag));
    SumAppend(items, i, WeightFn(bag));
    assert (items + [i])[..|items|] == items;
  }

  lemma ItemsUpdate(items: seq<Item>, row: nat, i: Item, bag: nat)
    requires row < |items|
    ensures Sum(items[row := i], CountFn(bag)) == Sum(items, CountFn(bag)) - CountFn(bag)(items[row]) + CountFn(bag)(i)
    ensures Sum(items[row := i], PiecesFn(bag)) == Sum(items, PiecesFn(bag)) - PiecesFn(bag)(items[row]) + PiecesFn(bag)(i)
    ensures Sum(items[row := i], WeightFn(bag)) == Sum(items, WeightFn(bag)) - WeightFn(bag)(items[row]) + WeightFn(bag)(i)
  {
    SumUpdate(items, row, i, CountFn(bag));
    SumUpdate(items, row, i, PiecesFn(bag));
    SumUpdate(items, row, i, WeightFn(bag));
  }

  /** Rewriting a row changes no declaration that reads it the same. */
  lemma {:induction false} AsClosedUpdate(items: seq<Item>, row: nat, i: Item, bag: nat)
    requires row < |items|
    requires WasHeld(i, bag) <==> WasHeld(items[row], bag)
    requires i.shipment == items[row].shipment && i.pieces == items[row].pieces && i.weight == items[row].weight
    ensures AsClosed(items[row := i], bag) == AsClosed(items, bag)
  {
    var n := |items| - 1;
    if row < n {
      AsClosedUpdate(items[..n], row, i, bag);
      assert items[row := i][..n] == items[..n][row := i];
    } else {
      assert items[row := i][..n] == items[..n];
    }
  }

  /** While no exception was used, what is in the bag is what was. */
  lemma {:induction false} ClosedAsIs(items: seq<Item>, bag: nat)
    requires forall i :: 0 <= i < |items| && items[i].bag == bag ==> items[i].exception.None?
    ensures AsClosed(items, bag) == Contents(items, bag)
  {
    if items != [] {
      ClosedAsIs(items[..|items| - 1], bag);
    }
  }

  /** The counters are the sums over the listed contents. */
  lemma {:induction false} ContentsAddUp(items: seq<Item>, bag: nat)
    ensures Sum(items, CountFn(bag)) == |Contents(items, bag)|
    ensures Sum(items, PiecesFn(bag)) == Sum(Contents(items, bag), DeclaredPiecesFn())
    ensures Sum(items, WeightFn(bag)) == Sum(Contents(items, bag), DeclaredWeightFn())
  {
    if items != [] {
      var n := |items| - 1;
      ContentsAddUp(items[..n], bag);
      if Holds(items[n], bag) {
        var d := Declared(items[n].shipment, items[n].pieces, items[n].weight);
        SumAppend(Contents(items[..n], bag), d, DeclaredPiecesFn());
        SumAppend(Contents(items[..n], bag), d, DeclaredWeightFn());
      } else {
        assert Contents(items, bag) == Contents(items[..n], bag);
      }
    }
  }

  // ----- Steps --------------------------------------------------------------

  lemma AddKeeps(depot: Depot, bag: nat, barcode: string)
    requires Inv(depot) && AddOne(depot, bag, barcode).Success?
    ensures Inv(AddOne(depot, bag, barcode).value)
  {
    var after := AddOne(depot, bag, barcode).value;
    var added := after.items[|depot.items|];
    forall id | 0 <= id < |after.bags|
      ensures BagValid(after, id)
    {
      assert BagValid(depot, id);
      ItemsAppend(depot.items, added, id);
    }
    forall i | 0 <= i < |after.items|
      ensures ItemValid(after, after.items[i])
    {
      assert i < |depot.items| ==> ItemValid(depot, depot.items[i]);
    }
  }

  lemma TakeOutKeeps(depot: Depot, bag: nat, row: nat, exception: Option<int>)
    requires Inv(depot) && bag < |depot.bags| && row < |depot.items| && Holds(depot.items[row], bag)
    requires exception.Some? <==> depot.bags[bag].status != Open
    ensures Inv(TakeOut(depot, bag, row, exception))
  {
    var after := TakeOut(depot, bag, row, exception);
    assert ItemValid(depot, depot.items[row]);
    forall id | 0 <= id < |after.bags|
      ensures BagValid(after, id)
    {
      assert BagValid(depot, id);
      ItemsUpdate(depot.items, row, after.items[row], id);
      if depot.bags[id].status != Open {
        AsClosedUpdate(depot.items, row, after.items[row], id);
      }
    }
    forall i | 0 <= i < |after.items|
      ensures ItemValid(after, after.items[i])
    {
      assert ItemValid(depot, depot.items[i]);
    }
  }

  predicate InBag(items: seq<Item>, bag: nat, shipment: nat) {
    exists i :: 0 <= i < |items| && Holds(items[i], bag) && items[i].shipment == shipment
  }

  /** One item is out of the bag, under `exception`: the header counts it no more, the declaration stands, and nothing else has changed. */
  predicate TakenOut(before: Depot, bag: nat, shipment: nat, exception: Option<int>, after: Depot) {
    && bag < |before.bags|
    && exists row :: 0 <= row < |before.items|
         && var item, b := before.items[row], before.bags[bag];
            && item.bag == bag && item.inBag && item.shipment == shipment
            && after.items == before.items[row := item.(inBag := false, exception := exception)]
            && after.bags == before.bags[bag := b.(count := b.count - 1, pieces := b.pieces - item.pieces, weight := b.weight - item.weight)]
            && !InBag(after.items, bag, shipment)
  }

  lemma TakeOutEffect(depot: Depot, bag: nat, row: nat, exception: Option<int>)
    requires Inv(depot) && bag < |depot.bags| && row < |depot.items| && Holds(depot.items[row], bag)
    ensures TakenOut(depot, bag, depot.items[row].shipment, exception, TakeOut(depot, bag, row, exception))
    ensures TakeOut(depot, bag, row, exception).shipments == depot.shipments && TakeOut(depot, bag, row, exception).codes == depot.codes
  {
    var after := TakeOut(depot, bag, row, exception);
    assert BagValid(depot, bag);
    ItemsUpdate(depot.items, row, after.items[row], bag);
    var b := depot.bags[bag];
    assert after.bags[bag] == b.(count := b.count - 1, pieces := b.pieces - depot.items[row].pieces, weight := b.weight - depot.items[row].weight);
    assert depot.items[row].bag == bag;
  }

  /** One item is in the bag and counted by its header; a forward parcel has left its origin branch, and nothing else has changed. */
  predicate PutIn(before: Depot, bag: nat, shipment: nat, after: Depot) {
    && bag < |before.bags| && shipment < |before.shipments|
    && var b, sh := before.bags[bag], before.shipments[shipment];
       && after.items == before.items + [Item(bag, shipment, sh.pieces, sh.weight, true, None)]
       && after.bags == before.bags[bag := b.(count := b.count + 1, pieces := b.pieces + sh.pieces, weight := b.weight + sh.weight)]
       && after.shipments
          == before.shipments[shipment := sh.(bag := Some(bag), status := if sh.direction == Forward then OriginBagged else sh.status)]
       && after.codes == before.codes
  }

  lemma AddEffect(depot: Depot, bag: nat, barcode: string)
    requires Inv(depot) && AddOne(depot, bag, barcode).Success?
    ensures barcode in depot.codes && PutIn(depot, bag, depot.codes[barcode], AddOne(depot, bag, barcode).value)
    ensures WithinCapacity(AddOne(depot, bag, barcode).value.bags[bag])
    ensures InBag(AddOne(depot, bag, barcode).value.items, bag, depot.codes[barcode])
  {
    var after := AddOne(depot, bag, barcode).value;
    assert BagValid(depot, bag);
    ItemsAppend(depot.items, after.items[|depot.items|], bag);
    assert Holds(after.items[|depot.items|], bag);
  }

  /** A removal from an open bag: what is in it comes out, and a parcel that was bagged at its origin is back there. */
  lemma RemoveEffect(depot: Depot, bag: nat, barcode: string)
    requires Inv(depot)
    ensures RemoveItem(depot, bag, barcode).Success? <==>
            && bag < |depot.bags| && depot.bags[bag].status == Open
            && barcode in depot.codes && depot.codes[barcode] < |depot.shipments| && InBag(depot.items, bag, depot.codes[barcode])
    ensures RemoveItem(depot, bag, barcode).Success? ==>
            var after, id := RemoveItem(depot, bag, barcode).value, depot.codes[barcode];
            var sh := depot.shipments[id];
            && TakenOut(depot, bag, id, None, after)
            && after.shipments
               == depot.shipments[id := sh.(bag := None, status := if sh.status == OriginBagged then OriginBranchReceived else sh.status)]
            && after.codes == depot.codes
  {
    if RemoveItem(depot, bag, barcode).Success? {
      var id := depot.codes[barcode];
      var row := FindItem(depot.items, bag, id).value;
      TakeOutEffect(depot, bag, row, None);
      SameItemsTakenOut(depot, bag, id, None, TakeOut(depot, bag, row, None), RemoveItem(depot, bag, barcode).value);
    }
  }

  lemma SameItemsTakenOut(before: Depot, bag: nat, shipment: nat, exception: Option<int>, after: Depot, other: Depot)
    requires TakenOut(before, bag, shipment, exception, after) && other.items == after.items && other.bags == after.bags
    ensures TakenOut(before, bag, shipment, exception, other)
  {
  }

  /** A correction of a bag that is no longer open: it needs a reason and an exception record, and only takes out. */
  lemma CorrectEffect(depot: Depot, bag: nat, barcode: string, remove: bool, reason: string, exception: Option<int>)
    requires Inv(depot)
    ensures Correct(depot, bag, barcode, remove, reason, exception).Success? <==>
            && reason != "" && exception.Some? && remove
            && bag < |depot.bags| && depot.bags[bag].status != Open
            && barcode in depot.codes && InBag(depot.items, bag, depot.codes[barcode])
    ensures Correct(depot, bag, barcode, remove, reason, exception).Success? ==>
            var after := Correct(depot, bag, barcode, remove, reason, exception).value;
            && TakenOut(depot, bag, depot.codes[barcode], exception, after)
            && after.shipments == depot.shipments && after.codes == depot.codes
  {
    if Correct(depot, bag, barcode, remove, reason, exception).Success? {
      TakeOutEffect(depot, bag, FindItem(depot.items, bag, depot.codes[barcode]).value, exception);
    }
  }

  /** The edges an operation takes after closing, in order; an Opened or Received bag is where it was addressed. */
  lemma AdvanceEffect(depot: Depot, bag: nat, to: BagStatus, at: Option<int>)
    ensures Advance(depot, bag, to, at).Success? <==>
            && bag < |depot.bags|
            && (match to
                case Dispatched => depot.bags[bag].status == Closed
                case Received => depot.bags[bag].status == Dispatched
                case Opened => depot.bags[bag].status == Received
                case Reconciled => depot.bags[bag].status in {Received, Opened}
                case _ => false)
            && (to in {Received, Opened} && at.Some? ==> at.value == depot.bags[bag].destination)
    ensures Advance(depot, bag, to, at).Success? ==>
            Advance(depot, bag, to, at).value == depot.(bags := depot.bags[bag := depot.bags[bag].(status := to)])
  {
  }

  /** A bag is made open and empty, between two different units, with limits that are positive. */
  lemma CreateEffect(depot: Depot, origin: int, destination: int, service: Option<int>, direction: Direction,
                     maxShipments: Option<int>, maxWeight: Option<int>)
    ensures var outcome := CreateBag(depot, origin, destination, service, direction, maxShipments, maxWeight);
            && (outcome.Success? <==>
                  origin != destination && (maxShipments.Some? ==> maxShipments.value > 0) && (maxWeight.Some? ==> maxWeight.value > 0))
            && (outcome.Success? ==>
                  outcome.value == depot.(bags := depot.bags + [Bag(origin, destination, service, direction, maxShipments, maxWeight, Open, 0, 0, 0, None)]))
  {
  }

  /** Shipments and barcodes play no part in the invariant. */
  lemma WorldKeeps(depot: Depot, shipments: seq<Shipment>, codes: map<string, nat>)
    requires Inv(depot)
    ensures Inv(depot.(shipments := shipments, codes := codes))
  {
    var after := depot.(shipments := shipments, codes := codes);
    forall id | 0 <= id < |after.bags|
      ensures BagValid(after, id)
    {
      assert BagValid(depot, id);
    }
    forall i | 0 <= i < |after.items|
      ensures ItemValid(after, after.items[i])
    {
      assert ItemValid(depot, depot.items[i]);
    }
  }

  /** A change of one bag's header that keeps its counters and limits. */
  lemma HeaderKeeps(depot: Depot, bag: nat, b: Bag)
    requires Inv(depot) && bag < |depot.bags|
    requires b == depot.bags[bag].(status := b.status, declaration := b.declaration)
    requires b.status != Open && b.declaration.Some?
    requires DeclarationAddsUp(b.declaration.value) && b.declaration.value.items == AsClosed(depot.items, bag)
    ensures Inv(depot.(bags := depot.bags[bag := b]))
  {
    var after := depot.(bags := depot.bags[bag := b]);
    forall id | 0 <= id < |after.bags|
      ensures BagValid(after, id)
    {
      assert BagValid(depot, id);
    }
    forall i | 0 <= i < |after.items|
      ensures ItemValid(after, after.items[i])
    {
      assert ItemValid(depot, depot.items[i]);
    }
  }

  lemma CloseKeeps(depot: Depot, bag: nat)
    requires Inv(depot) && CloseBag(depot, bag).Success?
    ensures Inv(CloseBag(depot, bag).value)
  {
    var b := CloseBag(depot, bag).value.bags[bag];
    assert BagValid(depot, bag);
    forall i | 0 <= i < |depot.items| && depot.items[i].bag == bag
      ensures depot.items[i].exception.None?
    {
      assert ItemValid(depot, depot.items[i]);
    }
    ClosedAsIs(depot.items, bag);
    ContentsAddUp(depot.items, bag);
    HeaderKeeps(depot, bag, b);
  }

  lemma CreateKeeps(depot: Depot, b: Bag)
    requires Inv(depot)
    requires b.status == Open && b.count == 0 && b.pieces == 0 && b.weight == 0 && b.declaration.None? && WithinCapacity(b)
    ensures Inv(depot.(bags := depot.bags + [b]))
  {
    var after := depot.(bags := depot.bags + [b]);
    var newest := |depot.bags|;
    forall i | 0 <= i < |after.items|
      ensures ItemValid(after, after.items[i]) && !Holds(after.items[i], newest)
    {
      assert ItemValid(depot, depot.items[i]);
    }
    SumZero(depot.items, CountFn(newest));
    SumZero(depot.items, PiecesFn(newest));
    SumZero(depot.items, WeightFn(newest));
    forall id | 0 <= id < |after.bags|
      ensures BagValid(after, id)
    {
      assert id < newest ==> BagValid(depot, id);
    }
  }

  lemma RemoveKeeps(depot: Depot, bag: nat, barcode: string)
    requires Inv(depot) && RemoveItem(depot, bag, barcode).Success?
    ensures Inv(RemoveItem(depot, bag, barcode).value)
  {
    var row := FindItem(depot.items, bag, depot.codes[barcode]).value;
    TakeOutKeeps(depot, bag, row, None);
    WorldKeeps(TakeOut(depot, bag, row, None), RemoveItem(depot, bag, barcode).value.shipments, depot.codes);
  }

  lemma StepKeeps(depot: Depot, event: Event)
    requires Inv(depot)
    ensures Inv(Step(depot, event))
  {
    if Outcome(depot, event).Success? {
      match event
      case Create(origin, destination, service, direction, maxShipments, maxWeight) =>
        CreateKeeps(depot, Bag(origin, destination, service, direction, maxShipments, maxWeight, Open, 0, 0, 0, None));
      case Add(bag, barcode) => AddKeeps(depot, bag, barcode);
      case Remove(bag, barcode) => RemoveKeeps(depot, bag, barcode);
      case Close(bag) => CloseKeeps(depot, bag);
      case Move(bag, to, at) =>
        assert BagValid(depot, bag);
        HeaderKeeps(depot, bag, depot.bags[bag].(status := to));
      case Fix(bag, barcode, remove, reason, exception) =>
        TakeOutKeeps(depot, bag, FindItem(depot.items, bag, depot.codes[barcode]).value, exception);
      case World(shipments, codes) => WorldKeeps(depot, shipments, codes);
    }
  }

  lemma {:induction false} RunKeeps(depot: Depot, events: seq<Event>)
    requires Inv(depot)
    ensures Inv(Run(depot, events))
  {
    if events != [] {
      var n := |events| - 1;
      RunKeeps(depot, events[..n]);
      StepKeeps(Run(depot, events[..n]), events[n]);
    }
  }

  // ----- What the design promises -------------------------------------------

  /**
   * When a scanned shipment goes into a bag. Bagging lists hub-received states
   * as compatible, but a forward parcel only enters from the origin branch.
   */
  lemma AddSucceedsIff(depot: Depot, bag: nat, barcode: string)
    requires Inv(depot) && bag < |depot.bags| && barcode in depot.codes && depot.codes[barcode] < |depot.shipments|
    ensures var b, id := depot.bags[bag], depot.codes[barcode];
            var sh := depot.shipments[id];
            AddOne(depot, bag, barcode).Success? <==>
            && b.status == Open
            && sh.status in {OriginBranchReceived, TransitHubReceived, DestinationHubReceived, RtoInTransit, RtoInitiated}
            && (sh.direction == Forward ==> sh.status == OriginBranchReceived)
            && sh.custody == Some(b.origin) && !sh.held && sh.direction == b.direction
            && (b.service.Some? ==> sh.service == b.service.value)
            && Some(b.destination) in {sh.originHub, sh.destinationHub, if sh.direction == Reverse then sh.originBranch else sh.destinationBranch}
            && (forall i :: 0 <= i < |depot.items| && depot.items[i].shipment == id ==> depot.items[i].bag != bag && !depot.items[i].inBag)
            && sh.pieces >= 1 && sh.weight >= 0
            && (b.maxShipments.Some? ==> b.count + 1 <= b.maxShipments.value)
            && (b.maxWeight.Some? ==> b.weight + sh.weight <= b.maxWeight.value)
  {
    var id := depot.codes[barcode];
    var sh := depot.shipments[id];
    assert BagValid(depot, bag);
    ItemsAppend(depot.items, Item(bag, id, sh.pieces, sh.weight, true, None), bag);
  }

  /**
   * In every reachable state a bag's counters are the count and sums over what
   * is in it and within its limits.
   */
  lemma CountersMatchContents(events: seq<Event>, id: nat)
    requires id < |Run(EmptyDepot(), events).bags|
    ensures var depot := Run(EmptyDepot(), events);
            var b, contents := depot.bags[id], Contents(depot.items, id);
            && b.count == |contents|
            && b.pieces == Sum(contents, DeclaredPiecesFn())
            && b.weight == Sum(contents, DeclaredWeightFn())
            && WithinCapacity(b)
  {
    RunKeeps(EmptyDepot(), events);
    assert BagValid(Run(EmptyDepot(), events), id);
    ContentsAddUp(Run(EmptyDepot(), events).items, id);
  }

  lemma {:induction false} InContents(items: seq<Item>, bag: nat, shipment: nat)
    ensures (exists k :: 0 <= k < |Contents(items, bag)| && Contents(items, bag)[k].shipment == shipment) <==>
            exists i :: 0 <= i < |items| && Holds(items[i], bag) && items[i].shipment == shipment
  {
    if items != [] {
      var n := |items| - 1;
      InContents(items[..n], bag, shipment);
      var earlier, all := Contents(items[..n], bag), Contents(items, bag);
      if k :| 0 <= k < |earlier| && earlier[k].shipment == shipment {
        assert all[k] == earlier[k];
        var i :| 0 <= i < n && Holds(items[..n][i], bag) && items[..n][i].shipment == shipment;
        assert items[i] == items[..n][i];
      } else if Holds(items[n], bag) && items[n].shipment == shipment {
        assert all[|all| - 1].shipment == shipment;
      } else {
        assert forall k :: 0 <= k < |earlier| ==> all[k] == earlier[k];
        assert forall i :: 0 <= i < n ==> items[..n][i] == items[i];
        assert |all| > |earlier| ==> all[|earlier|].shipment != shipment;
      }
    }
  }

  /** No shipment is in two bags. */
  lemma NeverInTwoBags(events: seq<Event>, a: nat, b: nat, k: nat, l: nat)
    requires var items := Run(EmptyDepot(), events).items;
             k < |Contents(items, a)| && l < |Contents(items, b)| && Contents(items, a)[k].shipment == Contents(items, b)[l].shipment
    ensures a == b
  {
    RunKeeps(EmptyDepot(), events);
    var items := Run(EmptyDepot(), events).items;
    var shipment := Contents(items, a)[k].shipment;
    InContents(items, a, shipment);
    InContents(items, b, shipment);
    var i :| 0 <= i < |items| && Holds(items[i], a) && items[i].shipment == shipment;
    var j :| 0 <= j < |items| && Holds(items[j], b) && items[j].shipment == shipment;
    assert i < j || j < i || i == j;
  }

  // ----- The declaration ----------------------------------------------------

  /** `part` is `whole` with some entries left out. */
  ghost predicate Within(part: seq<Declared>, whole: seq<Declared>) {
    if part == [] then true
    else if whole == [] then false
    else if part[|part| - 1] == whole[|whole| - 1] && Within(part[..|part| - 1], whole[..|whole| - 1]) then true
    else Within(part, whole[..|whole| - 1])
  }

  lemma {:induction false} ContentsWithin(items: seq<Item>, bag: nat)
    ensures Within(Contents(items, bag), AsClosed(items, bag))
  {
    if items != [] {
      var n := |items| - 1;
      ContentsWithin(items[..n], bag);
      var part, whole := Contents(items[..n], bag), AsClosed(items[..n], bag);
      if WasHeld(items[n], bag) {
        var d := Declared(items[n].shipment, items[n].pieces, items[n].weight);
        assert (whole + [d])[..|whole|] == whole && (part + [d])[..|part|] == part;
        assert !Holds(items[n], bag) ==> Contents(items, bag) == part;
      } else {
        assert Contents(items, bag) == part && AsClosed(items, bag) == whole;
      }
    }
  }

  /** Writing the declaration lists exactly what is in the bag, with counts that add up. */
  lemma DeclaresContents(events: seq<Event>, bag: nat)
    requires CloseBag(Run(EmptyDepot(), events), bag).Success?
    ensures var depot := Run(EmptyDepot(), events);
            var d := CloseBag(depot, bag).value.bags[bag].declaration;
            && depot.bags[bag].declaration.None?
            && d.Some? && d.value.items == Contents(depot.items, bag)
            && DeclarationAddsUp(d.value)
  {
    RunKeeps(EmptyDepot(), events);
    var depot := Run(EmptyDepot(), events);
    assert BagValid(depot, bag);
    ContentsAddUp(depot.items, bag);
  }

  lemma DeclarationStep(depot: Depot, event: Event, bag: nat)
    requires bag < |depot.bags| && depot.bags[bag].declaration.Some? && depot.bags[bag].status != Open
    ensures bag < |Step(depot, event).bags|
    ensures Step(depot, event).bags[bag].declaration == depot.bags[bag].declaration && Step(depot, event).bags[bag].status != Open
  {
    match event
    case Add(b, barcode) =>
    case Remove(b, barcode) =>
    case Close(b) =>
    case Move(b, to, at) =>
    case Fix(b, barcode, remove, reason, exception) =>
    case _ =>
  }

  /** A declaration is written once: whatever happens later, it stands. */
  lemma {:induction false} DeclarationStands(depot: Depot, later: seq<Event>, bag: nat)
    requires Inv(depot) && bag < |depot.bags| && depot.bags[bag].declaration.Some?
    ensures bag < |Run(depot, later).bags|
    ensures Run(depot, later).bags[bag].declaration == depot.bags[bag].declaration && Run(depot, later).bags[bag].status != Open
  {
    assert BagValid(depot, bag);
    if later != [] {
      var n := |later| - 1;
      DeclarationStands(depot, later[..n], bag);
      DeclarationStep(Run(depot, later[..n]), later[n], bag);
    }
  }

  /**
   * From closure on, a bag's contents are its declaration less the items that
   * were taken out under a recorded exception.
   */
  lemma DeclaredMinusExceptions(events: seq<Event>, bag: nat)
    requires bag < |Run(EmptyDepot(), events).bags| && Run(EmptyDepot(), events).bags[bag].declaration.Some?
    ensures var depot := Run(EmptyDepot(), events);
            var d := depot.bags[bag].declaration.value;
            && DeclarationAddsUp(d)
            && d.items == AsClosed(depot.items, bag)
            && Within(Contents(depot.items, bag), d.items)
            && |d.items| - |Contents(depot.items, bag)| == Sum(depot.items, ExcusedFn(bag))
  {
    RunKeeps(EmptyDepot(), events);
    var depot := Run(EmptyDepot(), events);
    assert BagValid(depot, bag);
    ContentsWithin(depot.items, bag);
    forall i | 0 <= i < |depot.items|
      ensures depot.items[i].inBag ==> depot.items[i].exception.None?
    {
      assert ItemValid(depot, depot.items[i]);
    }
    ExcusedCount(depot.items, bag);
  }

  /** Items removed under an exception. */
  function ExcusedFn(bag: nat): Item -> int {
    (i: Item) => if i.bag == bag && !i.inBag && i.exception.Some? then 1 else 0
  }

  lemma {:induction false} ExcusedCount(items: seq<Item>, bag: nat)
    ensures |AsClosed(items, bag)| == |Contents(items, bag)| + Sum(items, ExcusedFn(bag))
  {
    if items != [] {
      ExcusedCount(items[..|items| - 1], bag);
    }
  }

  // ----- Batches ------------------------------------------------------------

  /** The barcodes a batch accepted, in order. */
  function Accepted(barcodes: seq<string>, results: seq<ItemResult>): seq<string> {
    if barcodes == [] || |results| != |barcodes| then []
    else
      var n := |barcodes| - 1;
      Accepted(barcodes[..n], results[..n]) + (if results[n].Added? then [barcodes[n]] else [])
  }

  function AddedFn(): ItemResult -> int {
    (r: ItemResult) => if r.Added? then 1 else 0
  }

  function RejectedFn(): ItemResult -> int {
    (r: ItemResult) => if r.Added? then 0 else 1
  }

  lemma {:induction false} AddedPlusRejected(results: seq<ItemResult>)
    ensures Sum(results, AddedFn()) + Sum(results, RejectedFn()) == |results|
  {
    if results != [] {
      AddedPlusRejected(results[..|results| - 1]);
    }
  }

  predicate AllAdded(results: seq<ItemResult>) {
    forall k :: 0 <= k < |results| ==> results[k].Added?
  }

  // ----- Batches among other transactions -----------------------------------

  /** Every scan of a batch is a transaction of its own, so anything may run between two of them. */
  datatype Turn = Scan(barcode: string) | Other(event: Event)

  type Adder = (Depot, string) -> Result<Depot, BagError>

  type Stepper = (Depot, Event) -> Depot

  function AdderTo(bag: nat): Adder {
    (depot: Depot, barcode: string) => AddOne(depot, bag, barcode)
  }

  function StepFn(): Stepper {
    (depot: Depot, event: Event) => Step(depot, event)
  }

  function ShipmentOf(depot: Depot, barcode: string): nat {
    if barcode in depot.codes then depot.codes[barcode] else 0
  }

  function Interleaved(depot: Depot, turns: seq<Turn>, add: Adder, step: Stepper): Batch {
    if turns == [] then Batch(depot, [], false)
    else
      var n := |turns| - 1;
      var done := Interleaved(depot, turns[..n], add, step);
      match turns[n]
      case Other(event) => done.(depot := step(done.depot, event))
      case Scan(barcode) =>
        if done.fatal then done
        else if turns[n] in turns[..n] then done.(results := done.results + [Rejected(barcode, DuplicateInBatch)])
        else
          match add(done.depot, barcode)
          case Success(next) => Batch(next, done.results + [Added(barcode, ShipmentOf(done.depot, barcode))], false)
          case Failure(error) =>
            if error == Internal then done.(fatal := true)
            else done.(results := done.results + [Rejected(barcode, error)])
  }

  /** The last turn is a scan that put its shipment into the bag. */
  predicate LastAdds(depot: Depot, turns: seq<Turn>, add: Adder, step: Stepper)
    requires turns != []
  {
    var n := |turns| - 1;
    var done := Interleaved(depot, turns[..n], add, step);
    turns[n].Scan? && !done.fatal && turns[n] !in turns[..n] && add(done.depot, turns[n].barcode).Success?
  }

  /** The same schedule without the scans that were refused. */
  function Kept(depot: Depot, turns: seq<Turn>, add: Adder, step: Stepper): seq<Turn> {
    if turns == [] then []
    else
      var n := |turns| - 1;
      Kept(depot, turns[..n], add, step) + (if turns[n].Other? || LastAdds(depot, turns, add, step) then [turns[n]] else [])
  }

  lemma {:induction false} KeptFrom(depot: Depot, turns: seq<Turn>, add: Adder, step: Stepper)
    ensures forall t :: t in Kept(depot, turns, add, step) ==> t in turns
  {
    if turns != [] {
      KeptFrom(depot, turns[..|turns| - 1], add, step);
    }
  }

  /** Two schedules in the same state take a turn that both accept, or that is not a scan, to the same state. */
  lemma SameTurn(depot: Depot, turns: seq<Turn>, kept: seq<Turn>, t: Turn, add: Adder, step: Stepper)
    requires !Interleaved(depot, kept, add, step).fatal && AllAdded(Interleaved(depot, kept, add, step).results)
    requires Interleaved(depot, kept, add, step).depot == Interleaved(depot, turns, add, step).depot
    requires t.Other? || (LastAdds(depot, turns + [t], add, step) && t !in kept)
    ensures var alone := Interleaved(depot, kept + [t], add, step);
            !alone.fatal && alone.depot == Interleaved(depot, turns + [t], add, step).depot && AllAdded(alone.results)
  {
    assert (turns + [t])[..|turns|] == turns && (kept + [t])[..|kept|] == kept;
  }

  /**
   * A refused scan leaves no trace, whatever runs between the scans: without
   * the refused ones the schedule ends in the same state, and every scan that
   * is left is accepted.
   */
  lemma {:induction false} RefusedLeaveNoTrace(depot: Depot, turns: seq<Turn>, add: Adder, step: Stepper)
    ensures var alone := Interleaved(depot, Kept(depot, turns, add, step), add, step);
            !alone.fatal && alone.depot == Interleaved(depot, turns, add, step).depot && AllAdded(alone.results)
  {
    if turns != [] {
      var n := |turns| - 1;
      assert turns == turns[..n] + [turns[n]];
      RefusedLeaveNoTrace(depot, turns[..n], add, step);
      KeptFrom(depot, turns[..n], add, step);
      var kept := Kept(depot, turns[..n], add, step);
      if turns[n].Other? || LastAdds(depot, turns, add, step) {
        SameTurn(depot, turns[..n], kept, turns[n], add, step);
      } else {
        assert Kept(depot, turns, add, step) == kept;
      }
    }
  }

  function Scans(barcodes: seq<string>): (turns: seq<Turn>)
    ensures |turns| == |barcodes| && forall k :: 0 <= k < |turns| ==> turns[k] == Scan(barcodes[k])
  {
    seq(|barcodes|, k requires 0 <= k < |barcodes| => Scan(barcodes[k]))
  }

  lemma ScansPrefix(barcodes: seq<string>, n: nat)
    requires n < |barcodes|
    ensures Scans(barcodes)[..n] == Scans(barcodes[..n])
    ensures Scans(barcodes)[n] in Scans(barcodes)[..n] <==> barcodes[n] in barcodes[..n]
  {
    if barcodes[n] in barcodes[..n] {
      var k :| 0 <= k < n && barcodes[..n][k] == barcodes[n];
      assert Scans(barcodes)[..n][k] == Scan(barcodes[n]);
    }
  }

  /** A batch that nothing interrupts is the schedule of its scans. */
  lemma {:induction false} BatchIsSchedule(depot: Depot, bag: nat, barcodes: seq<string>)
    ensures Interleaved(depot, Scans(barcodes), AdderTo(bag), StepFn()) == AddItems(depot, bag, barcodes)
  {
    if barcodes != [] {
      var n := |barcodes| - 1;
      BatchIsSchedule(depot, bag, barcodes[..n]);
      ScansPrefix(barcodes, n);
    }
  }

  lemma AcceptedAppend(barcodes: seq<string>, results: seq<ItemResult>, barcode: string, r: ItemResult)
    requires |results| == |barcodes|
    ensures Accepted(barcodes + [barcode], results + [r]) == Accepted(barcodes, results) + (if r.Added? then [barcode] else [])
  {
    assert (barcodes + [barcode])[..|barcodes|] == barcodes && (results + [r])[..|results|] == results;
  }

  lemma ScansAppend(barcodes: seq<string>, barcode: string)
    ensures Scans(barcodes + [barcode]) == Scans(barcodes) + [Scan(barcode)]
  {
  }

  /** One more scan that does not stop the batch gives one more result, for its barcode. */
  lemma NextResult(depot: Depot, turns: seq<Turn>, barcode: string, add: Adder, step: Stepper)
    ensures var t := Scan(barcode);
            var done, next := Interleaved(depot, turns, add, step), Interleaved(depot, turns + [t], add, step);
            && (done.fatal ==> next == done)
            && (!done.fatal && next.fatal ==> next.results == done.results)
            && (!next.fatal ==> !done.fatal && exists r: ItemResult ::
                  next.results == done.results + [r] && r.barcode == barcode && (r.Added? <==> LastAdds(depot, turns + [t], add, step)))
  {
    assert (turns + [Scan(barcode)])[..|turns|] == turns;
  }

  lemma {:induction false} ResultsInOrder(depot: Depot, barcodes: seq<string>, add: Adder, step: Stepper)
    ensures var batch := Interleaved(depot, Scans(barcodes), add, step);
            && |batch.results| <= |barcodes|
            && (!batch.fatal ==> |batch.results| == |barcodes|)
            && (forall k :: 0 <= k < |batch.results| ==> batch.results[k].barcode == barcodes[k])
  {
    if barcodes != [] {
      var n := |barcodes| - 1;
      assert barcodes == barcodes[..n] + [barcodes[n]];
      ScansAppend(barcodes[..n], barcodes[n]);
      ResultsInOrder(depot, barcodes[..n], add, step);
      NextResult(depot, Scans(barcodes[..n]), barcodes[n], add, step);
    }
  }

  /** A finished batch answers every barcode, in order. */
  lemma OneResultEach(depot: Depot, bag: nat, barcodes: seq<string>)
    ensures var batch := AddItems(depot, bag, barcodes);
            && |batch.results| <= |barcodes|
            && (!batch.fatal ==> |batch.results| == |barcodes|)
            && (forall k :: 0 <= k < |batch.results| ==> batch.results[k].barcode == barcodes[k])
            && Sum(batch.results, AddedFn()) + Sum(batch.results, RejectedFn()) == |batch.results|
  {
    BatchIsSchedule(depot, bag, barcodes);
    ResultsInOrder(depot, barcodes, AdderTo(bag), StepFn());
    AddedPlusRejected(AddItems(depot, bag, barcodes).results);
  }

  /** What is kept of uninterrupted scans is what they accepted. */
  lemma {:induction false} KeptIsAccepted(depot: Depot, barcodes: seq<string>, add: Adder, step: Stepper)
    requires !Interleaved(depot, Scans(barcodes), add, step).fatal
    ensures var results := Interleaved(depot, Scans(barcodes), add, step).results;
            |results| == |barcodes| && Kept(depot, Scans(barcodes), add, step) == Scans(Accepted(barcodes, results))
  {
    if barcodes != [] {
      var n := |barcodes| - 1;
      var earlier, turns := barcodes[..n], Scans(barcodes[..n]);
      assert barcodes == earlier + [barcodes[n]];
      ScansAppend(earlier, barcodes[n]);
      NextResult(depot, turns, barcodes[n], add, step);
      KeptIsAccepted(depot, earlier, add, step);
      var results := Interleaved(depot, turns, add, step).results;
      var r: ItemResult :| Interleaved(depot, Scans(barcodes), add, step).results == results + [r]
                           && (r.Added? <==> LastAdds(depot, Scans(barcodes), add, step));
      AcceptedAppend(earlier, results, barcodes[n], r);
      KeptNext(depot, turns, barcodes[n], add, step);
      ScansAppend(Accepted(earlier, results), barcodes[n]);
    }
  }

  lemma KeptNext(depot: Depot, turns: seq<Turn>, barcode: string, add: Adder, step: Stepper)
    ensures Kept(depot, turns + [Scan(barcode)], add, step)
            == Kept(depot, turns, add, step) + (if LastAdds(depot, turns + [Scan(barcode)], add, step) then [Scan(barcode)] else [])
  {
    assert (turns + [Scan(barcode)])[..|turns|] == turns;
  }

  /**
   * A rejected barcode leaves no trace: an uninterrupted batch ends in the state
   * that its accepted barcodes alone lead to, and alone they are all accepted.
   */
  lemma RejectedLeaveNoTrace(depot: Depot, bag: nat, barcodes: seq<string>)
    requires !AddItems(depot, bag, barcodes).fatal
    ensures var batch := AddItems(depot, bag, barcodes);
            var alone := AddItems(depot, bag, Accepted(barcodes, batch.results));
            !alone.fatal && alone.depot == batch.depot && AllAdded(alone.results)
  {
    BatchIsSchedule(depot, bag, barcodes);
    KeptIsAccepted(depot, barcodes, AdderTo(bag), StepFn());
    RefusedLeaveNoTrace(depot, Scans(barcodes), AdderTo(bag), StepFn());
    BatchIsSchedule(depot, bag, Accepted(barcodes, AddItems(depot, bag, barcodes).results));
  }

  /** And a batch among other transactions ends as if the refused scans had not been made. */
  lemma RefusedAmongOthers(depot: Depot, bag: nat, turns: seq<Turn>)
    ensures var kept := Kept(depot, turns, AdderTo(bag), StepFn());
            var alone := Interleaved(depot, kept, AdderTo(bag), StepFn());
            && !alone.fatal && AllAdded(alone.results)
            && alone.depot == Interleaved(depot, turns, AdderTo(bag), StepFn()).depot
            && forall t :: t in turns && t.Other? ==> t in kept
  {
    RefusedLeaveNoTrace(depot, turns, AdderTo(bag), StepFn());
    OthersKept(depot, turns, AdderTo(bag), StepFn());
  }

  lemma {:induction false} OthersKept(depot: Depot, turns: seq<Turn>, add: Adder, step: Stepper)
    ensures forall t :: t in turns && t.Other? ==> t in Kept(depot, turns, add, step)
  {
    if turns != [] {
      var n := |turns| - 1;
      assert turns == turns[..n] + [turns[n]];
      OthersKept(depot, turns[..n], add, step);
    }
  }
}
