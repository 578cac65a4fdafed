/** The commission calculator: internal/commission/calculator.go. */
module Slabs {
  import opened Sums
  import opened Money

  /** A band [from, to) of basis values; no upper bound means "and above". */
  datatype Slab = Slab(from: int, to: Option<int>, amount: int, rate: Option<int>)

  const MAX_RATE := 1_000_000

  predicate Covers(s: Slab, value: int) {
    s.from <= value && (s.to.None? || value < s.to.value)
  }

  predicate NonEmpty(s: Slab) {
    s.to.None? || s.from < s.to.value
  }

  predicate LegalSlab(s: Slab) {
    s.amount >= 0 && (s.rate.Some? ==> 0 <= s.rate.value <= 1_000_000)
  }

  predicate Legal(slabs: seq<Slab>) {
    forall i :: 0 <= i < |slabs| ==> LegalSlab(slabs[i])
  }

  function CoverFn(value: int): Slab -> int {
    (s: Slab) => if Covers(s, value) then 1 else 0
  }

  /** The bands are non-empty sets of non-negative integers, and each such integer lies in exactly one. */
  ghost predicate Partition(slabs: seq<Slab>) {
    && (forall i :: 0 <= i < |slabs| ==> slabs[i].from >= 0 && NonEmpty(slabs[i]))
    && (forall value :: value >= 0 ==> Sum(slabs, CoverFn(value)) == 1)
  }

  // ----- Sorting ------------------------------------------------------------

  predicate Ordered(slabs: seq<Slab>) {
    forall i, j :: 0 <= i < j < |slabs| ==> slabs[i].from <= slabs[j].from
  }

  /** The bands that start at `from`, in table order. */
  function StartingAt(slabs: seq<Slab>, from: int): seq<Slab> {
    if slabs == [] then []
    else
      var n := |slabs| - 1;
      StartingAt(slabs[..n], from) + (if slabs[n].from == from then [slabs[n]] else [])
  }

  function Insert(sorted: seq<Slab>, s: Slab): seq<Slab> {
    if sorted == [] then [s]
    else
      var n := |sorted| - 1;
      if sorted[n].from <= s.from then sorted + [s] else Insert(sorted[..n], s) + [sorted[n]]
  }

  lemma {:induction false} InsertKeeps(sorted: seq<Slab>, s: Slab)
    ensures multiset(Insert(sorted, s)) == multiset(sorted) + multiset{s}
  {
    if sorted != [] {
      var n := |sorted| - 1;
      assert multiset(sorted) == multiset(sorted[..n]) + multiset{sorted[n]} by {
        assert sorted == sorted[..n] + [sorted[n]];
      }
      InsertKeeps(sorted[..n], s);
    }
  }

  lemma {:induction false} InsertOrders(sorted: seq<Slab>, s: Slab)
    requires Ordered(sorted)
    ensures Ordered(Insert(sorted, s))
    ensures forall t :: t in Insert(sorted, s) ==> t == s || t in sorted
  {
    if sorted != [] {
      var n := |sorted| - 1;
      InsertOrders(sorted[..n], s);
      var rest := Insert(sorted[..n], s);
      forall i | 0 <= i < |rest| && sorted[n].from > s.from
        ensures rest[i].from <= sorted[n].from
      {
        assert rest[i] in rest;
      }
    }
  }

  /** sort.SliceStable on the lower bound. */
  function SortStable(slabs: seq<Slab>): (r: seq<Slab>)
    ensures Ordered(r) && multiset(r) == multiset(slabs)
  {
    if slabs == [] then []
    else
      var n := |slabs| - 1;
      assert slabs == slabs[..n] + [slabs[n]];
      InsertKeeps(SortStable(slabs[..n]), slabs[n]);
      InsertOrders(SortStable(slabs[..n]), slabs[n]);
      Insert(SortStable(slabs[..n]), slabs[n])
  }

  lemma StartingAtAppend(slabs: seq<Slab>, s: Slab, from: int)
    ensures StartingAt(slabs + [s], from) == StartingAt(slabs, from) + (if s.from == from then [s] else [])
  {
    assert (slabs + [s])[..|slabs|] == slabs;
  }

  lemma {:induction false} InsertStable(sorted: seq<Slab>, s: Slab, from: int)
    ensures StartingAt(Insert(sorted, s), from) == StartingAt(sorted, from) + (if s.from == from then [s] else [])
  {
    if sorted == [] || sorted[|sorted| - 1].from <= s.from {
      StartingAtAppend(sorted, s, from);
      assert Insert(sorted, s) == sorted + [s];
    } else {
      var n := |sorted| - 1;
      InsertStable(sorted[..n], s, from);
      StartingAtAppend(Insert(sorted[..n], s), sorted[n], from);
      assert Insert(sorted, s) == Insert(sorted[..n], s) + [sorted[n]];
      assert s.from != from || sorted[n].from != from;
    }
  }

  /** Bands with equal lower bounds keep their table order. */
  lemma {:induction false} SortIsStable(slabs: seq<Slab>, from: int)
    ensures StartingAt(SortStable(slabs), from) == StartingAt(slabs, from)
  {
    if slabs != [] {
      var n := |slabs| - 1;
      SortIsStable(slabs[..n], from);
      InsertStable(SortStable(slabs[..n]), slabs[n], from);
    }
  }

  // ----- A contiguous table is a partition, and conversely --------------------

  /** What ValidateSlabs checks of the sorted bands, besides amounts and rates. */
  predicate Contiguous(s: seq<Slab>) {
    && s != [] && s[0].from == 0
    && (forall i :: 0 <= i < |s| ==> NonEmpty(s[i]))
    && (forall i :: 0 <= i < |s| - 1 ==> s[i].to == Some(s[i + 1].from))
    && s[|s| - 1].to.None?
  }

  /** Up to its n-th upper bound a contiguous table covers each value once. */
  lemma {:induction false} PrefixCovers(s: seq<Slab>, n: nat, value: int)
    requires Contiguous(s) && 1 <= n <= |s| && value >= 0
    ensures s[n - 1].from >= 0
    ensures Sum(s[..n], CoverFn(value)) == if s[n - 1].to.None? || value < s[n - 1].to.value then 1 else 0
  {
    assert s[..n][..n - 1] == s[..n - 1];
    if n == 1 {
      assert Sum(s[..0], CoverFn(value)) == 0;
    } else {
      PrefixCovers(s, n - 1, value);
      assert s[n - 2].to == Some(s[n - 1].from);
    }
  }

  lemma ContiguousPartitions(s: seq<Slab>)
    requires Contiguous(s)
    ensures Partition(s)
  {
    forall i | 0 <= i < |s|
      ensures s[i].from >= 0
    {
      PrefixCovers(s, i + 1, 0);
    }
    forall value | value >= 0
      ensures Sum(s, CoverFn(value)) == 1
    {
      PrefixCovers(s, |s|, value);
      assert s[..|s|] == s;
    }
  }

  lemma {:induction false} CoveredTwice(s: seq<Slab>, i: nat, j: nat, value: int)
    requires i < j < |s| && Covers(s[i], value) && Covers(s[j], value)
    ensures Sum(s, CoverFn(value)) >= 2
  {
    var n := |s| - 1;
    if j < n {
      CoveredTwice(s[..n], i, j, value);
    } else {
      CoveredOnce(s[..n], i, value);
    }
  }

  lemma {:induction false} CoveredOnce(s: seq<Slab>, i: nat, value: int)
    requires i < |s| && Covers(s[i], value)
    ensures Sum(s, CoverFn(value)) >= 1
  {
    var n := |s| - 1;
    if i < n {
      CoveredOnce(s[..n], i, value);
    } else {
      SumNonNegative(s[..n], CoverFn(value));
    }
  }

  lemma Coverer(s: seq<Slab>, value: int) returns (i: nat)
    requires Sum(s, CoverFn(value)) == 1
    ensures i < |s| && Covers(s[i], value)
  {
    if forall k :: 0 <= k < |s| ==> !Covers(s[k], value) {
      SumZero(s, CoverFn(value));
    }
    i :| 0 <= i < |s| && Covers(s[i], value);
  }

  /** In an ordered partition, whoever covers the end of a band comes after it. */
  lemma CoversEnd(s: seq<Slab>, i: nat, j: nat)
    requires Ordered(s) && Partition(s) && i < |s| && j < |s|
    requires s[i].to.Some? && Covers(s[j], s[i].to.value)
    ensures i < j
  {
    if j < i {
      CoveredTwice(s, j, i, s[i].from);
      assert false;
    }
  }

  lemma PartitionIsContiguous(s: seq<Slab>)
    requires Ordered(s) && Partition(s)
    ensures Contiguous(s)
  {
    var first := Coverer(s, 0);
    assert s[0].from <= s[first].from;
    forall i | 0 <= i < |s| - 1
      ensures s[i].to == Some(s[i + 1].from)
    {
      assert s[i].from <= s[i + 1].from && NonEmpty(s[i + 1]);
      if Covers(s[i], s[i + 1].from) {
        CoveredTwice(s, i, i + 1, s[i + 1].from);
      }
      var j := Coverer(s, s[i].to.value);
      CoversEnd(s, i, j);
      assert s[i + 1].from <= s[j].from;
    }
    var last := |s| - 1;
    if s[last].to.Some? {
      var j := Coverer(s, s[last].to.value);
      CoversEnd(s, last, j);
      assert false;
    }
  }

  lemma SumOfReordering(slabs: seq<Slab>, other: seq<Slab>)
    requires multiset(slabs) == multiset(other)
    ensures forall value :: Sum(slabs, CoverFn(value)) == Sum(other, CoverFn(value))
  {
    forall value
      ensures Sum(slabs, CoverFn(value)) == Sum(other, CoverFn(value))
    {
      SumPermutation(slabs, other, CoverFn(value));
    }
  }

  lemma SameRows(slabs: seq<Slab>, other: seq<Slab>)
    requires multiset(slabs) == multiset(other)
    ensures forall s :: s in slabs <==> s in other
  {
    assert forall s :: s in slabs <==> s in multiset(slabs);
    assert forall s :: s in other <==> s in multiset(other);
  }

  lemma PartitionReordered(slabs: seq<Slab>, other: seq<Slab>)
    requires multiset(slabs) == multiset(other) && Partition(slabs)
    ensures Partition(other)
  {
    SumOfReordering(slabs, other);
    SameRows(slabs, other);
    forall i | 0 <= i < |other|
      ensures other[i].from >= 0 && NonEmpty(other[i])
    {
      assert other[i] in slabs;
    }
  }

  lemma LegalReordered(slabs: seq<Slab>, other: seq<Slab>)
    requires multiset(slabs) == multiset(other) && Legal(slabs)
    ensures Legal(other)
  {
    SameRows(slabs, other);
    forall i | 0 <= i < |other|
      ensures LegalSlab(other[i])
    {
      assert other[i] in slabs;
    }
  }

  /** The configuration check, seen through the sort, is exactly "legal and a partition". */
  lemma ValidIff(slabs: seq<Slab>)
    ensures Legal(SortStable(slabs)) && Contiguous(SortStable(slabs)) <==> Legal(slabs) && Partition(slabs)
  {
    var sorted := SortStable(slabs);
    if Legal(sorted) && Contiguous(sorted) {
      ContiguousPartitions(sorted);
      PartitionReordered(sorted, slabs);
      LegalReordered(sorted, slabs);
    }
    if Legal(slabs) && Partition(slabs) {
      PartitionReordered(slabs, sorted);
      LegalReordered(slabs, sorted);
      PartitionIsContiguous(sorted);
    }
  }

  // ----- The two scans ------------------------------------------------------

  datatype SlabError = NoBands | FirstNotZero | NegativeAmount | RateOutOfRange | EmptyBand | LastNotOpen | OpenNotLast | Gap | NotCovered

  /** What an error says about the sorted bands. */
  predicate Justified(sorted: seq<Slab>, error: SlabError) {
    match error
    case NoBands => sorted == []
    case FirstNotZero => sorted != [] && sorted[0].from != 0
    case NegativeAmount => exists k :: 0 <= k < |sorted| && sorted[k].amount < 0
    case RateOutOfRange => exists k :: 0 <= k < |sorted| && sorted[k].rate.Some? && !(0 <= sorted[k].rate.value <= MAX_RATE)
    case EmptyBand => exists k :: 0 <= k < |sorted| && !NonEmpty(sorted[k])
    case LastNotOpen => sorted != [] && sorted[|sorted| - 1].to.Some?
    case OpenNotLast => exists k :: 0 <= k < |sorted| - 1 && sorted[k].to.None?
    case Gap => exists k :: 0 <= k < |sorted| - 1 && sorted[k].to.Some? && sorted[k].to.value != sorted[k + 1].from
    case NotCovered => false
  }

  method ScanSlabs(sorted: seq<Slab>) returns (error: Option<SlabError>)
    requires sorted != [] && sorted[0].from == 0
    ensures error.None? <==> Legal(sorted) && Contiguous(sorted)
    ensures error.Some? ==> Justified(sorted, error.value)
  {
    for i := 0 to |sorted|
      invariant forall k :: 0 <= k < i ==> LegalSlab(sorted[k]) && NonEmpty(sorted[k])
      invariant forall k :: 0 <= k < i && k < |sorted| - 1 ==> sorted[k].to == Some(sorted[k + 1].from)
      invariant i == |sorted| ==> sorted[|sorted| - 1].to.None?
    {
      var s := sorted[i];
      if s.amount < 0 { return Some(NegativeAmount); }
      if s.rate.Some? && (s.rate.value < 0 || s.rate.value > MAX_RATE) { return Some(RateOutOfRange); }
      if s.to.Some? && s.to.value <= s.from { return Some(EmptyBand); }
      if i == |sorted| - 1 {
        if s.to.Some? { return Some(LastNotOpen); }
        continue;
      }
      if s.to.None? {
        assert sorted[i].to != Some(sorted[i + 1].from);
        return Some(OpenNotLast);
      }
      if s.to.value != sorted[i + 1].from { return Some(Gap); }
    }
    error := None;
  }

  /** Accepts exactly the legal tables whose bands partition the non-negative integers. */
  method ValidateSlabs(slabs: seq<Slab>) returns (error: Option<SlabError>)
    ensures error.None? <==> Legal(slabs) && Partition(slabs)
    ensures error.Some? ==> Justified(SortStable(slabs), error.value)
  {
    ValidIff(slabs);
    var sorted := SortStable(slabs);
    assert |sorted| == |multiset(sorted)| == |slabs|;
    if |slabs| == 0 { return Some(NoBands); }
    if sorted[0].from != 0 { return Some(FirstNotZero); }
    error := ScanSlabs(sorted);
  }

  /** The first band of a sorted table that covers a value. */
  function FirstCovering(sorted: seq<Slab>, value: int): (r: Option<nat>)
    ensures r.Some? ==> r.value < |sorted| && Covers(sorted[r.value], value)
                        && forall k :: 0 <= k < r.value ==> !Covers(sorted[k], value)
    ensures r.None? ==> forall k :: 0 <= k < |sorted| ==> !Covers(sorted[k], value)
  {
    if sorted == [] then None
    else
      var n := |sorted| - 1;
      var earlier := FirstCovering(sorted[..n], value);
      if earlier.Some? then earlier else if Covers(sorted[n], value) then Some(n) else None
  }

  function Selected(slabs: seq<Slab>, value: int): Option<Slab> {
    var sorted := SortStable(slabs);
    var first := FirstCovering(sorted, value);
    if first.Some? then Some(sorted[first.value]) else None
  }

  method ScanFor(sorted: seq<Slab>, value: int) returns (found: Option<nat>)
    ensures found == FirstCovering(sorted, value)
  {
    for i := 0 to |sorted|
      invariant forall k :: 0 <= k < i ==> !Covers(sorted[k], value)
    {
      var s := sorted[i];
      if value < s.from { continue; }
      if s.to.None? || value < s.to.value { return Some(i); }
    }
    found := None;
  }

  method SelectSlab(slabs: seq<Slab>, value: int) returns (r: Result<(Slab, nat), SlabError>)
    ensures r.Success? <==> Selected(slabs, value).Some?
    ensures r.Success? ==> r.value.0 == Selected(slabs, value).value && FirstCovering(SortStable(slabs), value) == Some(r.value.1)
    ensures r.Failure? ==> r.error == if slabs == [] then NoBands else NotCovered
  {
    var sorted := SortStable(slabs);
    var found := ScanFor(sorted, value);
    if |slabs| == 0 { return Failure(NoBands); }
    if found.None? { return Failure(NotCovered); }
    r := Success((sorted[found.value], found.value));
  }

  /** Of sorted bands that cover a value once, the first that covers it is the only one. */
  lemma FirstIsOnly(sorted: seq<Slab>, value: int, k: nat)
    requires Sum(sorted, CoverFn(value)) == 1 && k < |sorted| && Covers(sorted[k], value)
    ensures FirstCovering(sorted, value) == Some(k)
  {
    var chosen := FirstCovering(sorted, value).value;
    if chosen < k {
      CoveredTwice(sorted, chosen, k, value);
    }
  }

  lemma CoveringBandIsSelected(slabs: seq<Slab>, value: int, s: Slab)
    requires Partition(slabs) && value >= 0 && s in slabs && Covers(s, value)
    ensures Selected(slabs, value) == Some(s)
  {
    var sorted := SortStable(slabs);
    SameRows(slabs, sorted);
    SumPermutation(slabs, sorted, CoverFn(value));
    var k :| 0 <= k < |sorted| && sorted[k] == s;
    FirstIsOnly(sorted, value, k);
  }

  /** On an accepted table every non-negative value finds the one band that covers it, and no negative value finds any. */
  lemma SelectsTheBand(slabs: seq<Slab>, value: int)
    requires Partition(slabs)
    ensures Selected(slabs, value).Some? <==> value >= 0
    ensures value >= 0 ==>
              && Selected(slabs, value).value in slabs
              && forall s :: s in slabs ==> (Covers(s, value) <==> s == Selected(slabs, value).value)
  {
    SameRows(slabs, SortStable(slabs));
    if value >= 0 {
      var i := Coverer(slabs, value);
      CoveringBandIsSelected(slabs, value, slabs[i]);
      forall s | s in slabs && Covers(s, value)
        ensures s == slabs[i]
      {
        CoveringBandIsSelected(slabs, value, s);
      }
    } else {
      var sorted := SortStable(slabs);
      forall k | 0 <= k < |sorted|
        ensures !Covers(sorted[k], value)
      {
        assert sorted[k] in slabs;
      }
    }
  }

  /** Configuration order does not decide money: a reordered table selects the same band. */
  lemma OrderIrrelevant(slabs: seq<Slab>, other: seq<Slab>, value: int)
    requires Partition(slabs) && multiset(slabs) == multiset(other)
    ensures Selected(slabs, value) == Selected(other, value)
  {
    PartitionReordered(slabs, other);
    SameRows(slabs, other);
    SelectsTheBand(slabs, value);
    SelectsTheBand(other, value);
  }

  /** Sorting alone is not enough: overlapping bands with one lower bound pay by table order. */
  lemma OverlapPaysByOrder()
    ensures var a, b := Slab(0, None, 100, None), Slab(0, None, 200, None);
            && multiset([a, b]) == multiset([b, a])
            && Selected([a, b], 5) == Some(a) && Selected([b, a], 5) == Some(b)
  {
    var a, b := Slab(0, None, 100, None), Slab(0, None, 200, None);
    assert [a, b][..1] == [a] && [b, a][..1] == [b] && [a][..0] == [] && [b][..0] == [];
    assert SortStable([a]) == [a] && SortStable([b]) == [b];
    assert SortStable([a, b]) == [a, b] && SortStable([b, a]) == [b, a];
    assert FirstCovering([a], 5) == Some(0) && FirstCovering([b], 5) == Some(0);
  }

  // ----- Calculate ----------------------------------------------------------

  datatype BasisName = Freight | Surcharge | FreightPlusSurcharge | TotalBeforeTax | Total | CodAmount | ChargeableWeight | ShipmentCount | UnknownBasis

  datatype Basis = Basis(
    freight: int, surcharge: int, discount: int, taxable: int, tax: int, total: int,
    codAmount: int, chargeableWeight: int, shipmentCount: int)

  datatype CalcMethod = Fixed | Percentage | SlabTable | UnknownMethod

  datatype Rule = Rule(
    calcMethod: CalcMethod, fixed: Option<int>, rate: Option<int>, basis: BasisName, slabs: seq<Slab>,
    min: Option<int>, max: Option<int>)

  datatype Outcome = Outcome(basisValue: int, rate: Option<int>, gross: int, amount: int, clamped: bool)

  datatype CalcError = MissingAmount | MissingRate | BasisUnknown | MethodUnknown | Table(error: SlabError) | NegativeCommission

  function ValueFor(b: Basis, name: BasisName): Option<int> {
    match name
    case Freight => Some(b.freight)
    case Surcharge => Some(b.surcharge)
    case FreightPlusSurcharge => Some(b.freight + b.surcharge)
    case TotalBeforeTax => Some(b.taxable)
    case Total => Some(b.total)
    case CodAmount => Some(b.codAmount)
    case ChargeableWeight => Some(b.chargeableWeight)
    case ShipmentCount => Some(b.shipmentCount)
    case UnknownBasis => None
  }

  /** The column, or the two, that a basis names. */
  lemma BasisColumns(b: Basis)
    ensures ValueFor(b, Freight) == Some(b.freight) && ValueFor(b, Surcharge) == Some(b.surcharge)
    ensures ValueFor(b, FreightPlusSurcharge) == Some(b.freight + b.surcharge)
    ensures ValueFor(b, TotalBeforeTax) == Some(b.taxable) && ValueFor(b, Total) == Some(b.total)
    ensures ValueFor(b, CodAmount) == Some(b.codAmount) && ValueFor(b, ChargeableWeight) == Some(b.chargeableWeight)
    ensures ValueFor(b, ShipmentCount) == Some(b.shipmentCount) && ValueFor(b, UnknownBasis).None?
  {
  }

  function Pays(s: Slab, value: int): int {
    s.amount + (if s.rate.Some? then ApplyBP(value, s.rate.value) else 0)
  }

  /** What a rule pays before its bounds. */
  function Gross(r: Rule, b: Basis): Option<int> {
    match r.calcMethod
    case Fixed => r.fixed
    case Percentage =>
      if r.rate.None? || ValueFor(b, r.basis).None? then None
      else Some(ApplyBP(ValueFor(b, r.basis).value, r.rate.value))
    case SlabTable =>
      if ValueFor(b, r.basis).None? then None
      else
        var value := ValueFor(b, r.basis).value;
        var band := Selected(r.slabs, value);
        if band.None? then None else Some(Pays(band.value, value))
    case UnknownMethod => None
  }

  /** What a rule pays: the bounded gross, unless that is negative. */
  function Commission(r: Rule, b: Basis): Option<int> {
    var gross := Gross(r, b);
    if gross.None? || Clamp(gross.value, r.min, r.max) < 0 then None else Some(Clamp(gross.value, r.min, r.max))
  }

  /** The part of Calculate before the bounds, field by field. */
  method ComputeGross(r: Rule, b: Basis) returns (result: Result<Outcome, CalcError>)
    ensures result.Success? <==> Gross(r, b).Some?
    ensures result.Success? ==> result.value.gross == Gross(r, b).value
    ensures result.Success? && r.calcMethod == Fixed ==> result.value.basisValue == 0 && result.value.rate.None?
    ensures result.Success? && r.calcMethod != Fixed ==> ValueFor(b, r.basis) == Some(result.value.basisValue)
    ensures result.Success? && r.calcMethod == Percentage ==> result.value.rate == r.rate
    ensures result.Success? && r.calcMethod == SlabTable ==> result.value.rate == Selected(r.slabs, result.value.basisValue).value.rate
    ensures result != Failure(NegativeCommission)
  {
    match r.calcMethod {
      case Fixed =>
        if r.fixed.None? { return Failure(MissingAmount); }
        return Success(Outcome(0, None, r.fixed.value, 0, false));
      case Percentage =>
        if r.rate.None? { return Failure(MissingRate); }
        var value := ValueFor(b, r.basis);
        if value.None? { return Failure(BasisUnknown); }
        return Success(Outcome(value.value, r.rate, ApplyBP(value.value, r.rate.value), 0, false));
      case SlabTable =>
        var value := ValueFor(b, r.basis);
        if value.None? { return Failure(BasisUnknown); }
        var selected := SelectSlab(r.slabs, value.value);
        if selected.Failure? { return Failure(Table(selected.error)); }
        var band := selected.value.0;
        var gross := band.amount;
        if band.rate.Some? {
          gross := gross + ApplyBP(value.value, band.rate.value);
        }
        return Success(Outcome(value.value, band.rate, gross, 0, false));
      case UnknownMethod =>
        return Failure(MethodUnknown);
    }
  }

  /**
   * `amount` is `gross` kept within the bounds of a rule. It is the gross when
   * that is within both, never above the ceiling, the floor when the gross is
   * below it and the ceiling leaves room, and the ceiling otherwise.
   */
  predicate Bounded(r: Rule, gross: int, amount: int) {
    && (r.max.Some? ==> amount <= r.max.value)
    && ((r.min.None? || gross >= r.min.value) && (r.max.None? || gross <= r.max.value) ==> amount == gross)
    && (r.min.Some? && gross < r.min.value && (r.max.None? || r.min.value <= r.max.value) ==> amount == r.min.value)
    && (r.max.Some? && (gross > r.max.value || (r.min.Some? && gross < r.min.value && r.min.value > r.max.value)) ==> amount == r.max.value)
  }

  /** What the method of a rule makes of the value of its basis, before the bounds. */
  predicate Charges(r: Rule, value: int, gross: int) {
    match r.calcMethod
    case Fixed => r.fixed == Some(gross)
    case Percentage => r.rate.Some? && gross == ApplyBP(value, r.rate.value)
    case SlabTable =>
      var band := Selected(r.slabs, value);
      band.Some? && gross == band.value.amount + if band.value.rate.Some? then ApplyBP(value, band.value.rate.value) else 0
    case UnknownMethod => false
  }

  method Calculate(r: Rule, b: Basis) returns (result: Result<Outcome, CalcError>)
    ensures result.Success? <==> Commission(r, b).Some?
    ensures result.Success? ==>
              && Charges(r, result.value.basisValue, result.value.gross)
              && Bounded(r, result.value.gross, result.value.amount) && result.value.amount >= 0
    ensures result.Success? ==>
              && result.value.gross == Gross(r, b).value
              && result.value.amount == Commission(r, b).value
              && (result.value.clamped <==> result.value.amount != result.value.gross)
              && (r.calcMethod == Fixed ==> result.value.basisValue == 0 && result.value.rate.None?)
              && (r.calcMethod != Fixed ==> ValueFor(b, r.basis) == Some(result.value.basisValue))
              && (r.calcMethod == Percentage ==> result.value.rate == r.rate)
              && (r.calcMethod == SlabTable ==> result.value.rate == Selected(r.slabs, result.value.basisValue).value.rate)
    ensures result == Failure(NegativeCommission) <==>
              && Gross(r, b).Some?
              && ((r.max.Some? && r.max.value < 0) || (Gross(r, b).value < 0 && (r.min.None? || r.min.value < 0)))
  {
    var computed := ComputeGross(r, b);
    if computed.Failure? { return computed; }
    var gross := computed.value.gross;
    var amount := Clamp(gross, r.min, r.max);
    if amount < 0 { return Failure(NegativeCommission); }
    result := Success(computed.value.(amount := amount, clamped := amount != gross));
  }

  /** An accepted slab rule fails to pay only for a negative basis or a negative ceiling. */
  lemma SlabRulePaysIff(r: Rule, b: Basis)
    requires r.calcMethod == SlabTable && Legal(r.slabs) && Partition(r.slabs)
    ensures Commission(r, b).Some? <==>
            && ValueFor(b, r.basis).Some? && ValueFor(b, r.basis).value >= 0
            && (r.max.Some? ==> r.max.value >= 0)
  {
    if ValueFor(b, r.basis).Some? {
      var value := ValueFor(b, r.basis).value;
      SelectsTheBand(r.slabs, value);
      if value >= 0 {
        var band := Selected(r.slabs, value).value;
        assert LegalSlab(band);
        if band.rate.Some? {
          ApplyBPSign(value, band.rate.value);
        }
      }
    }
  }

  lemma SameBandSameCommission(r: Rule, other: seq<Slab>, b: Basis)
    requires ValueFor(b, r.basis).Some? ==>
               Selected(r.slabs, ValueFor(b, r.basis).value) == Selected(other, ValueFor(b, r.basis).value)
    ensures Commission(r, b) == Commission(r.(slabs := other), b)
  {
    assert Gross(r, b) == Gross(r.(slabs := other), b);
  }

  /** Reordering an accepted table changes no commission. */
  lemma CommissionOrderIrrelevant(r: Rule, other: seq<Slab>, b: Basis)
    requires Partition(r.slabs) && multiset(r.slabs) == multiset(other)
    ensures Commission(r, b) == Commission(r.(slabs := other), b)
  {
    if ValueFor(b, r.basis).Some? {
      OrderIrrelevant(r.slabs, other, ValueFor(b, r.basis).value);
    }
    SameBandSameCommission(r, other, b);
  }
}
