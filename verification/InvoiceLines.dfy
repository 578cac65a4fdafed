/** Building an invoice from shipments: buildLines of internal/billing/billing.go. */
module InvoiceLines {
  import opened Sums
  import opened Money

  /** The charge snapshot of one shipment. */
  datatype Shipment = Shipment(freight: int, surcharge: int, discount: int)

  datatype LineKind = SummaryLine | FreightLine | TaxLine

  datatype Line = Line(kind: LineKind, amount: int, discount: int, taxable: int, tax: int, total: int)

  datatype Component = Component(rate: int, tax: int)

  datatype Header = Header(subtotal: int, discount: int, taxable: int, tax: int, total: int)

  datatype Built = Built(header: Header, lines: seq<Line>, components: seq<Component>, perShipment: seq<int>)

  // ----- Totals, independent of the form ------------------------------------

  function Net(s: Shipment): int {
    s.freight + s.surcharge - s.discount
  }

  function GrossFn(): Shipment -> int {
    (s: Shipment) => s.freight + s.surcharge
  }

  function DiscountFn(): Shipment -> int {
    (s: Shipment) => s.discount
  }

  function NetFn(): Shipment -> int {
    (s: Shipment) => Net(s)
  }

  function TaxFn(taxable: int): int -> int {
    (rate: int) => ApplyBP(taxable, rate)
  }

  /** The header a set of shipments and tax rates calls for. */
  function HeaderOf(shipments: seq<Shipment>, rates: seq<int>): Header {
    var taxable := Sum(shipments, NetFn());
    var tax := Sum(rates, TaxFn(taxable));
    Header(Sum(shipments, GrossFn()), Sum(shipments, DiscountFn()), taxable, tax, taxable + tax)
  }

  function LineDiscountFn(): Line -> int {
    (l: Line) => l.discount
  }

  function LineTaxableFn(): Line -> int {
    (l: Line) => l.taxable
  }

  function LineTaxFn(): Line -> int {
    (l: Line) => l.tax
  }

  function LineTotalFn(): Line -> int {
    (l: Line) => l.total
  }

  function Identity(): int -> int {
    (amount: int) => amount
  }

  function ComponentFn(): Component -> int {
    (c: Component) => c.tax
  }

  /** The lines say what the header says; the tax line appears only for a positive tax. */
  predicate LinesAgree(lines: seq<Line>, h: Header) {
    && Sum(lines, LineDiscountFn()) == h.discount
    && Sum(lines, LineTaxableFn()) == h.taxable
    && Sum(lines, LineTaxFn()) == Max(h.tax, 0)
    && Sum(lines, LineTotalFn()) == h.taxable + Max(h.tax, 0)
  }

  lemma LineAppend(lines: seq<Line>, l: Line)
    ensures Sum(lines + [l], LineDiscountFn()) == Sum(lines, LineDiscountFn()) + l.discount
    ensures Sum(lines + [l], LineTaxableFn()) == Sum(lines, LineTaxableFn()) + l.taxable
    ensures Sum(lines + [l], LineTaxFn()) == Sum(lines, LineTaxFn()) + l.tax
    ensures Sum(lines + [l], LineTotalFn()) == Sum(lines, LineTotalFn()) + l.total
  {
    SumAppend(lines, l, LineDiscountFn());
    SumAppend(lines, l, LineTaxableFn());
    SumAppend(lines, l, LineTaxFn());
    SumAppend(lines, l, LineTotalFn());
  }

  lemma ShipmentPrefix(shipments: seq<Shipment>, k: nat)
    requires k < |shipments|
    ensures Sum(shipments[..k + 1], GrossFn()) == Sum(shipments[..k], GrossFn()) + shipments[k].freight + shipments[k].surcharge
    ensures Sum(shipments[..k + 1], DiscountFn()) == Sum(shipments[..k], DiscountFn()) + shipments[k].discount
    ensures Sum(shipments[..k + 1], NetFn()) == Sum(shipments[..k], NetFn()) + Net(shipments[k])
  {
    assert shipments[..k + 1][..k] == shipments[..k];
  }

  // ----- The two forms ------------------------------------------------------

  /** One rolled-up line. */
  method SummaryForm(shipments: seq<Shipment>) returns (lines: seq<Line>, subtotal: int, discount: int, taxable: int)
    ensures subtotal == Sum(shipments, GrossFn()) && discount == Sum(shipments, DiscountFn()) && taxable == Sum(shipments, NetFn())
    ensures LinesAgree(lines, Header(subtotal, discount, taxable, 0, taxable))
    ensures |lines| == 1
  {
    var freight, surcharge, disc := 0, 0, 0;
    for k := 0 to |shipments|
      invariant freight + surcharge == Sum(shipments[..k], GrossFn())
      invariant disc == Sum(shipments[..k], DiscountFn())
      invariant freight + surcharge - disc == Sum(shipments[..k], NetFn())
    {
      ShipmentPrefix(shipments, k);
      freight := freight + shipments[k].freight;
      surcharge := surcharge + shipments[k].surcharge;
      disc := disc + shipments[k].discount;
    }
    assert shipments[..|shipments|] == shipments;
    var net := freight + surcharge - disc;
    var line := Line(SummaryLine, freight + surcharge, disc, net, 0, net);
    LineAppend([], line);
    lines := [] + [line];
    subtotal, discount, taxable := freight + surcharge, disc, net;
  }

  /** One line per shipment. */
  method ItemisedForm(shipments: seq<Shipment>) returns (lines: seq<Line>, subtotal: int, discount: int, taxable: int)
    ensures subtotal == Sum(shipments, GrossFn()) && discount == Sum(shipments, DiscountFn()) && taxable == Sum(shipments, NetFn())
    ensures LinesAgree(lines, Header(subtotal, discount, taxable, 0, taxable))
    ensures |lines| == |shipments|
    ensures forall k :: 0 <= k < |lines| ==> lines[k].total == Net(shipments[k])
  {
    lines, subtotal, discount, taxable := [], 0, 0, 0;
    for k := 0 to |shipments|
      invariant |lines| == k && forall l :: 0 <= l < k ==> lines[l].total == Net(shipments[l])
      invariant subtotal == Sum(shipments[..k], GrossFn())
      invariant discount == Sum(shipments[..k], DiscountFn())
      invariant taxable == Sum(shipments[..k], NetFn())
      invariant LinesAgree(lines, Header(subtotal, discount, taxable, 0, taxable))
    {
      ShipmentPrefix(shipments, k);
      var s := shipments[k];
      var net := s.freight + s.surcharge - s.discount;
      var line := Line(FreightLine, s.freight + s.surcharge, s.discount, net, 0, net);
      LineAppend(lines, line);
      lines := lines + [line];
      subtotal := subtotal + s.freight + s.surcharge;
      discount := discount + s.discount;
      taxable := taxable + net;
    }
    assert shipments[..|shipments|] == shipments;
  }

  /** One component per rate that yields a tax. */
  method TaxComponents(taxable: int, rates: seq<int>) returns (components: seq<Component>, taxTotal: int)
    ensures taxTotal == Sum(rates, TaxFn(taxable)) == Sum(components, ComponentFn())
    ensures forall c :: c in components ==> c.rate in rates && c.tax != 0 && c.tax == ApplyBP(taxable, c.rate)
  {
    components, taxTotal := [], 0;
    for k := 0 to |rates|
      invariant taxTotal == Sum(rates[..k], TaxFn(taxable)) == Sum(components, ComponentFn())
      invariant forall c :: c in components ==> c.rate in rates && c.tax != 0 && c.tax == ApplyBP(taxable, c.rate)
    {
      assert rates[..k + 1][..k] == rates[..k];
      var amount := ApplyBP(taxable, rates[k]);
      if amount == 0 { continue; }
      SumAppend(components, Component(rates[k], amount), ComponentFn());
      components := components + [Component(rates[k], amount)];
      taxTotal := taxTotal + amount;
    }
    assert rates[..|rates|] == rates;
  }

  /** What each AWB contributes. */
  method PerShipment(shipments: seq<Shipment>) returns (amounts: seq<int>)
    ensures |amounts| == |shipments|
    ensures forall k :: 0 <= k < |amounts| ==> amounts[k] == Net(shipments[k])
    ensures Sum(amounts, Identity()) == Sum(shipments, NetFn())
  {
    amounts := [];
    for k := 0 to |shipments|
      invariant |amounts| == k && forall l :: 0 <= l < k ==> amounts[l] == Net(shipments[l])
    {
      amounts := amounts + [shipments[k].freight + shipments[k].surcharge - shipments[k].discount];
    }
    SumPointwise(amounts, shipments, Identity(), NetFn());
  }

  /**
   * A summary and an itemised invoice get the same header; the lines add up to
   * its discount, taxable and tax, and to its total exactly when the tax is not
   * negative; the per-AWB amounts add up to the taxable total.
   */
  method BuildLines(shipments: seq<Shipment>, rates: seq<int>, summary: bool) returns (b: Built)
    ensures b.header == HeaderOf(shipments, rates)
    ensures LinesAgree(b.lines, b.header)
    ensures Sum(b.lines, LineTotalFn()) == b.header.total <==> b.header.tax >= 0
    ensures Sum(b.components, ComponentFn()) == b.header.tax
    ensures Sum(b.perShipment, Identity()) == b.header.taxable && |b.perShipment| == |shipments|
    ensures |b.lines| == (if summary then 1 else |shipments|) + (if b.header.tax > 0 then 1 else 0)
  {
    var lines, subtotal, discount, taxable;
    if summary {
      lines, subtotal, discount, taxable := SummaryForm(shipments);
    } else {
      lines, subtotal, discount, taxable := ItemisedForm(shipments);
    }
    var components, taxTotal := TaxComponents(taxable, rates);
    if taxTotal > 0 {
      var line := Line(TaxLine, taxTotal, 0, 0, taxTotal, taxTotal);
      LineAppend(lines, line);
      lines := lines + [line];
    }
    var perShipment := PerShipment(shipments);
    b := Built(Header(subtotal, discount, taxable, taxTotal, taxable + taxTotal), lines, components, perShipment);
  }

  // ----- The tax ------------------------------------------------------------

  /** The tax is within half a minor unit per component of the exact value. */
  lemma {:induction false} TaxNear(taxable: int, rates: seq<int>)
    ensures 2 * Abs(10000 * Sum(rates, TaxFn(taxable)) - taxable * Sum(rates, Identity())) <= 10000 * |rates|
  {
    if rates != [] {
      var n := |rates| - 1;
      TaxNear(taxable, rates[..n]);
      ApplyBPNear(taxable, rates[n]);
      ErrorsAdd(taxable, Sum(rates[..n], TaxFn(taxable)), Sum(rates[..n], Identity()), n, ApplyBP(taxable, rates[n]), rates[n]);
    }
  }

  lemma ErrorsAdd(taxable: int, tax: int, rates: int, n: nat, amount: int, rate: int)
    requires 2 * Abs(10000 * tax - taxable * rates) <= 10000 * n
    requires 2 * Abs(10000 * amount - taxable * rate) <= 10000
    ensures 2 * Abs(10000 * (tax + amount) - taxable * (rates + rate)) <= 10000 * (n + 1)
  {
    assert taxable * (rates + rate) == taxable * rates + taxable * rate;
  }

  lemma TaxNotNegative(taxable: int, rates: seq<int>)
    requires taxable >= 0 && forall k :: 0 <= k < |rates| ==> rates[k] >= 0
    ensures Sum(rates, TaxFn(taxable)) >= 0
  {
    forall k | 0 <= k < |rates|
      ensures TaxFn(taxable)(rates[k]) >= 0
    {
      ApplyBPSign(taxable, rates[k]);
    }
    SumNonNegative(rates, TaxFn(taxable));
  }

  /** Discounts are accounted for once: subtotal less discount is taxable. */
  lemma HeaderAddsUp(shipments: seq<Shipment>, rates: seq<int>)
    ensures var h := HeaderOf(shipments, rates); h.subtotal - h.discount == h.taxable && h.taxable + h.tax == h.total
  {
    SumLinear(shipments, NetFn(), DiscountFn(), GrossFn());
  }
}
