/** The amounts themselves: what a component costs in figures, what a price is the sum of, and what each row of
    a cost says, in the terms of its records. */
module CostAmounts {
  import opened Options
  import opened FoldTimeline
  import opened FoldCost
  import CostPhases

  // ---------------------------------------------------------------- one component

  function Product(figures: seq<real>): real {
    if figures == [] then 1.0 else Times(figures[0], Product(figures[1..]))
  }

  predicate AllKnown(names: seq<string>, shape: map<string, real>) {
    forall k | 0 <= k < |names| :: names[k] in shape
  }

  function Figures(names: seq<string>, shape: map<string, real>): (r: seq<real>)
    requires AllKnown(names, shape)
    ensures |r| == |names| && forall k | 0 <= k < |r| :: r[k] == shape[names[k]]
  {
    seq(|names|, k requires 0 <= k < |names| => shape[names[k]])
  }

  lemma {:induction false} ProductSnoc(figures: seq<real>, x: real)
    ensures Product(figures + [x]) == Times(Product(figures), x)
  {
    if figures == [] {
      assert figures + [x] == [x];
      assert [x][1..] == [];
      TimesOne(x);
    } else {
      hide Times;
      assert (figures + [x])[1..] == figures[1..] + [x];
      ProductSnoc(figures[1..], x);
      Associate(figures[0], Product(figures[1..]), x);
    }
  }

  lemma TimesOne(x: real)
    ensures Times(x, 1.0) == x && Times(1.0, x) == x
  {
  }

  lemma Associate(a: real, b: real, c: real)
    ensures Times(a, Times(b, c)) == Times(Times(a, b), c)
  {
    assert a * (b * c) == a * b * c;
  }

  /** A quantity is the stated one times the product of the figures it asks for, and there is none exactly when the
      shape lacks one of them. */
  lemma {:induction false} QuantityExactly(quantity: real, names: seq<string>, shape: map<string, real>)
    ensures QuantityOf(quantity, names, shape).Ok? <==> AllKnown(names, shape)
    ensures AllKnown(names, shape) ==>
              QuantityOf(quantity, names, shape) == Ok(Times(quantity, Product(Figures(names, shape))))
    decreases |names|
  {
    if names == [] {
      TimesOne(quantity);
    } else {
      hide Times;
      var n := |names| - 1;
      QuantityExactly(quantity, names[..n], shape);
      if AllKnown(names, shape) {
        var before := Figures(names[..n], shape);
        assert Figures(names, shape) == before + [shape[names[n]]];
        ProductSnoc(before, shape[names[n]]);
        Associate(quantity, Product(before), shape[names[n]]);
      }
    }
  }

  /** What one unit of a price is for: an hour, or a month of 730 hours, in seconds. */
  function UnitSeconds(perMonth: bool): real {
    if perMonth then 2628000.0 else 3600.0
  }

  /** The price of a component's whole quantity: the stated one, times its figures, times the price of one. */
  function UnitCost(c: Component, book: Book): real
    requires c.unitPrice in book.prices && AllKnown(c.quantityFrom, book.shape)
  {
    Times(Times(c.quantity, Product(Figures(c.quantityFrom, book.shape))), book.prices[c.unitPrice])
  }

  /** What a component costs: that, for each hour or month in the seconds; refused exactly when the price or a
      figure is not known. */
  lemma CostExactly(c: Component, book: Book, seconds: real)
    ensures CostOf(c, book, seconds).Ok? <==> c.unitPrice in book.prices && AllKnown(c.quantityFrom, book.shape)
    ensures CostOf(c, book, seconds).Ok? ==>
              CostOf(c, book, seconds).value == Times(UnitCost(c, book), seconds / UnitSeconds(c.perMonth))
  {
    hide Times, Product, AllKnown;
    QuantityExactly(c.quantity, c.quantityFrom, book.shape);
  }

  /** An hour of an hourly component, and 730 hours of a monthly one, cost its quantity times its figures times
      its price. */
  lemma OneUnitCosts(c: Component, book: Book)
    requires c.unitPrice in book.prices && AllKnown(c.quantityFrom, book.shape)
    ensures CostOf(c, book, if c.perMonth then 730.0 * 3600.0 else 3600.0) ==
            Ok(c.quantity * Product(Figures(c.quantityFrom, book.shape)) * book.prices[c.unitPrice])
  {
    var seconds := if c.perMonth then 730.0 * 3600.0 else 3600.0;
    CostExactly(c, book, seconds);
    TimesOne(UnitCost(c, book));
    assert seconds / UnitSeconds(c.perMonth) == 1.0;
    UnitCostIs(c, book);
    hide Times, UnitCost, CostOf;
  }

  lemma UnitCostIs(c: Component, book: Book)
    requires c.unitPrice in book.prices && AllKnown(c.quantityFrom, book.shape)
    ensures UnitCost(c, book) == c.quantity * Product(Figures(c.quantityFrom, book.shape)) * book.prices[c.unitPrice]
  {
  }

  // ---------------------------------------------------------------- all components

  /** Prices add up: of two lists of components, refused exactly when one of them is. */
  lemma {:induction false} PricesAddUp(first: seq<Component>, second: seq<Component>, book: Book, seconds: real)
    ensures var all := SumCost(first + second, book, seconds);
            var one, other := SumCost(first, book, seconds), SumCost(second, book, seconds);
            && (all.Ok? <==> one.Ok? && other.Ok?)
            && (all.Ok? ==> all.value == one.value + other.value)
    decreases |second|
  {
    hide CostOf;
    if second == [] {
      assert first + second == first;
    } else {
      var n := |second| - 1;
      assert (first + second)[..|first + second| - 1] == first + second[..n];
      PricesAddUp(first, second[..n], book, seconds);
    }
  }

  /** And a list of one costs what the one costs. */
  lemma PriceOfOne(c: Component, book: Book, seconds: real)
    ensures SumCost([c], book, seconds) == CostOf(c, book, seconds)
  {
    assert [c][..0] == [];
    hide CostOf;
  }

  /** A price is refused exactly when some component is not known. */
  lemma {:induction false} PriceRefusedExactly(cs: seq<Component>, book: Book, seconds: real)
    ensures SumCost(cs, book, seconds).Refused? <==>
            exists k :: 0 <= k < |cs| && !(cs[k].unitPrice in book.prices && AllKnown(cs[k].quantityFrom, book.shape))
    decreases |cs|
  {
    if cs == [] {
    } else {
      var n := |cs| - 1;
      PriceRefusedExactly(cs[..n], book, seconds);
      CostExactly(cs[n], book, seconds);
      hide CostOf, AllKnown;
      assert forall k | 0 <= k < n :: cs[..n][k] == cs[k];
    }
  }

  // ---------------------------------------------------------------- as printed

  /** Rounding takes the nearest whole number, and of two as near the even one. */
  lemma RoundsToTheNearest(y: real, n: int)
    ensures HalfEven(y) == n <==>
            || -0.5 < n as real - y < 0.5
            || ((n as real - y == 0.5 || n as real - y == -0.5) && n % 2 == 0)
  {
    var down := y.Floor;
    assert down as real <= y < down as real + 1.0;
    if n as real - y < 0.5 && -0.5 < n as real - y { assert n == down || n == down + 1; }
    if n as real - y == 0.5 { assert n == down + 1; }
    if n as real - y == -0.5 { assert n == down; }
  }

  /** Dollars are printed to the millionth and rates to the millionth of that. */
  lemma PrintedDigits(x: real)
    ensures Abs(Round(x, MICRO) - x) <= 0.0000005 && Abs(Round(x, PICO) - x) <= 0.0000000000005
    ensures (Round(x, MICRO) * 1000000.0).Floor as real == Round(x, MICRO) * 1000000.0
  {
    RoundIsClose(x, MICRO);
    RoundIsClose(x, PICO);
    assert Round(x, MICRO) * 1000000.0 == HalfEven(x * MICRO) as real;
    hide Round, HalfEven;
  }

  // ---------------------------------------------------------------- one row

  /** How many seconds lie between two moments, or none when either is not known or they are in the wrong order. */
  predicate Between(start: Option<int>, end: Option<int>, seconds: int) {
    if start.Some? && end.Some? && start.value < end.value then seconds == end.value - start.value else seconds == 0
  }

  /** What a row is billed for: from the end of its creation to the start of its deletion at least, from the start
      of the one to the end of the other at most - to the time of asking where it was not deleted - and
      never less than its tariff's minimum. */
  lemma BilledExactly(cycle: Cycle, a: string, low: int, high: int)
    requires a in cycle.created.at && IsMetered(cycle.book, cycle.created.at[a].kind)
    requires var gone := a in cycle.deleted.at;
             var lowEnd := if gone then cycle.deleted.at[a].startedAt else Some(cycle.asOf);
             var highEnd := if gone then cycle.deleted.at[a].finishedAt else Some(cycle.asOf);
             Between(cycle.created.at[a].finishedAt, lowEnd, low) && Between(cycle.created.at[a].startedAt, highEnd, high)
    ensures var minimum := cycle.book.priced[cycle.created.at[a].kind.value].minimum;
            BilledAt(cycle, a) == Band(if low < minimum then minimum else low, if high < minimum then minimum else high)
  {
  }

  /** Which bucket a row is in: the free kinds first, then those not metered, then those with a tariff. */
  lemma BucketExactly(cycle: Cycle, a: string)
    requires a in cycle.created.at && Priceable(cycle, a)
    ensures var kind, book, bucket := cycle.created.at[a].kind, cycle.book, BucketAt(cycle, a);
            && (bucket == Free <==> kind.Some? && kind.value in book.free)
            && (bucket == NotMetered <==> kind.Some? && kind.value !in book.free && kind.value in book.notMetered)
            && (bucket.Priced? <==>
                kind.Some? && kind.value !in book.free && kind.value !in book.notMetered && kind.value in book.priced)
  {
    hide Round, ExactAt, BilledAt;
  }

  /** What a priced row says: its seconds, its dollars each rounded once, that the minimum was applied exactly when
      there is one and its low lifetime does not exceed it, and a rate exactly for an open row past it. */
  lemma ChargeExactly(cycle: Cycle, a: string)
    requires a in cycle.created.at && Priceable(cycle, a) && BucketAt(cycle, a).Priced?
    ensures var charge, billed := BucketAt(cycle, a).charge, BilledAt(cycle, a);
            var tariff := cycle.book.priced[cycle.created.at[a].kind.value];
            var rate := SumCost(tariff.components, cycle.book, 1.0);
            && rate.Ok? && charge.seconds == billed
            && charge.usd.low == Round(Times(billed.low as real, rate.value), MICRO)
            && charge.usd.high == Round(Times(billed.high as real, rate.value), MICRO)
            && (charge.state == Closed <==> a in cycle.deleted.at)
            && (charge.state == Open <==> a !in cycle.deleted.at && !cycle.closed)
            && (charge.minimumApplied <==> tariff.minimum != 0 && billed.low <= tariff.minimum)
            && charge.perSecond == (if a !in cycle.deleted.at && !cycle.closed && !charge.minimumApplied
                                    then Some(Round(rate.value, PICO)) else None)
  {
    hide Round, BilledAt, SumCost, Times;
  }

  // ---------------------------------------------------------------- the lifetime the phases share

  /** Where the low lifetime of an address ends as it is priced. */
  function PricedEnd(cycle: Cycle, a: string): Option<int> {
    if a in cycle.deleted.at then cycle.deleted.at[a].startedAt else Some(cycle.asOf)
  }

  /** And as it is shared: a deletion whose start is not known, or that never was, lasts to the end of the cycle. */
  function SharedEnd(cycle: Cycle, a: string, cycleEnd: Option<int>): Option<int> {
    if a in cycle.deleted.at && cycle.deleted.at[a].startedAt.Some? then cycle.deleted.at[a].startedAt else cycleEnd
  }

  predicate NotAfter(end: Option<int>, start: int) {
    end.None? || end.value <= start
  }

  /** The lifetime a priced row is shared over is the low one it was priced for, exactly when both end together, or
      there is none of either: the creation's end is not known, or neither end comes after it. */
  lemma SharedLifetimeExactly(cycle: Cycle, a: string, cycleEnd: Option<int>)
    requires a in cycle.created.at && Priceable(cycle, a) && BucketAt(cycle, a).Priced?
    ensures var made, priced := cycle.created.at[a].finishedAt, PricedEnd(cycle, a);
            var shared := SharedEnd(cycle, a, cycleEnd);
            CostPhases.LifeOf(RowAt(cycle, a), cycleEnd) ==
            Lifetime(cycle.created.at[a], DeletionOf(cycle, a), cycle.asOf).low <==>
              || made.None? || priced == shared || (NotAfter(priced, made.value) && NotAfter(shared, made.value))
  {
    hide Round, BilledAt, SumCost;
  }
}
