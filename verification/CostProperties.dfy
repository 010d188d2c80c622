/** What the band is worth: nothing in it was clamped, low does not exceed high, an open row can be
    re-priced by its rate, and the printed rows add up to the printed total. */
module CostProperties {
  import opened Options
  import opened FoldTimeline
  import opened TimelineTheorems
  import opened FoldCost

  // ---------------------------------------------------------------- lifetimes

  lemma FoundIsWithin(t: Timeline, actions: set<string>, a: string)
    requires IsFold(t) && a in FoundIn(Flat(t.operations), actions).at
    ensures var r := FoundIn(Flat(t.operations), actions).at[a];
            Within(r.startedAt, t.startedAt, t.finishedAt) && Within(r.finishedAt, t.startedAt, t.finishedAt)
  {
    var k := FoundIsTheLast(Flat(t.operations), actions, a);
    var j, i := FlatHolds(t.operations, k);
    hide FoundIn, Flat;
    TimelineEncloses(t, j, i);
  }

  /** No lifetime is silently clamped: in two folded timelines that pass for one cycle, whatever was
      created and later deleted was deleted no earlier than it was created, so the low lifetime is
      the plain difference of the two times. */
  lemma NothingIsClamped(environment: string, apply: Timeline, destroy: Timeline, asOf: int, a: string)
    requires IsFold(apply) && IsFold(destroy) && OneCycle(environment, apply, Some(destroy))
    requires a in Created(apply).at && a in Deleted(Some(destroy)).at
    requires Created(apply).at[a].finishedAt.Some? && Deleted(Some(destroy)).at[a].startedAt.Some?
    ensures var made, gone := Created(apply).at[a], Deleted(Some(destroy)).at[a];
            && made.finishedAt.value <= gone.startedAt.value
            && Lifetime(made, Some(gone), asOf).low == gone.startedAt.value - made.finishedAt.value
  {
    hide FoundIn, Flat, IsFold, OneCycle, Refuses;
    NotTooSoon(environment, apply, destroy);
    FoundIsWithin(apply, CREATES, a);
    FoundIsWithin(destroy, DELETES, a);
  }

  lemma NotTooSoon(environment: string, apply: Timeline, destroy: Timeline)
    requires OneCycle(environment, apply, Some(destroy))
    ensures !BeganTooSoon(apply, destroy)
  {
    hide FoundIn, Flat;
    assert !Refuses(environment, apply, Some(destroy), DestroyBeganTooSoon);
  }

  /** A start, when there is one, is no later than the finish. */
  predicate InOrder(r: Record) {
    r.startedAt.Some? && r.finishedAt.Some? ==> r.startedAt.value <= r.finishedAt.value
  }

  /** Where the low lifetime ends, and where the high one does. */
  function EndsOf(deleted: Option<Record>, asOf: int): Band<Option<int>> {
    if deleted.Some? then Band(deleted.value.startedAt, deleted.value.finishedAt) else Band(Some(asOf), Some(asOf))
  }

  /** The start is known, the high end is known, and the start is not later than the finish by more
      than the deletion took. */
  predicate HighCovers(record: Record, deleted: Option<Record>, asOf: int) {
    var ends := EndsOf(deleted, asOf);
    && record.startedAt.Some? && ends.high.Some?
    && (record.finishedAt.Some? && ends.low.Some? ==>
          record.startedAt.value - record.finishedAt.value <= ends.high.value - ends.low.value)
  }

  /** Whatever the times are, low is at most high, in billed seconds, exactly when the high lifetime
      covers the low one or the low lifetime is within the minimum anyway. */
  lemma BandHoldsExactly(record: Record, deleted: Option<Record>, asOf: int, minimum: int)
    ensures var billed := Billed(record, deleted, asOf, minimum);
            && 0 <= billed.low
            && (billed.low <= billed.high <==>
                  HighCovers(record, deleted, asOf) || Lifetime(record, deleted, asOf).low <= Max(0, minimum))
  {
  }

  /** A teardown killed after a delete started leaves a band upside down: the resource stood for 90
      seconds at least and 0 at most. */
  lemma KilledTeardownTurnsTheBand(made: Record, gone: Record, asOf: int)
    requires made.startedAt == Some(0) && made.finishedAt == Some(10)
    requires gone.startedAt == Some(100) && gone.finishedAt.None?
    ensures Billed(made, Some(gone), asOf, 0) == Band(90, 0)
  {
  }

  /** Both ends of what was made and of what was deleted are known, and in order. */
  predicate WellTimed(cycle: Cycle, a: string)
    requires a in cycle.created.at
  {
    var made, gone := cycle.created.at[a], DeletionOf(cycle, a);
    && made.startedAt.Some? && InOrder(made)
    && (gone.Some? ==> gone.value.finishedAt.Some? && InOrder(gone.value))
  }

  lemma RowBandIsOrdered(cycle: Cycle, a: string)
    requires NonNegative(cycle.book) && a in cycle.created.at && Priceable(cycle, a) && WellTimed(cycle, a)
    ensures 0.0 <= ExactAt(cycle, a).low <= ExactAt(cycle, a).high
    ensures RowAt(cycle, a).bucket.Priced? ==>
              var c := RowAt(cycle, a).bucket.charge;
              0 <= c.seconds.low <= c.seconds.high && 0.0 <= c.usd.low <= c.usd.high
  {
    if IsMetered(cycle.book, cycle.created.at[a].kind) {
      BandHoldsExactly(cycle.created.at[a], DeletionOf(cycle, a), cycle.asOf, TariffOf(cycle, a).minimum);
      RateIsNotNegative(TariffOf(cycle, a).components, cycle.book);
      var billed, rate := BilledAt(cycle, a), RateAt(cycle, a).value;
      Monotone(billed.low as real, billed.high as real, rate);
      RoundKeepsOrder(0.0, ExactAt(cycle, a).low);
      RoundKeepsOrder(ExactAt(cycle, a).low, ExactAt(cycle, a).high);
      assert Round(0.0, MICRO) == 0.0;
      hide Times, Billed, SumCost, Round;
    }
  }

  lemma RoundKeepsOrder(x: real, y: real)
    requires x <= y
    ensures Round(x, MICRO) <= Round(y, MICRO)
  {
    HalfEvenKeepsOrder(x * MICRO, y * MICRO);
  }

  lemma HalfEvenKeepsOrder(x: real, y: real)
    requires x <= y
    ensures HalfEven(x) <= HalfEven(y)
  {
  }

  lemma {:induction false} SumIsOrdered(cycle: Cycle, addresses: seq<string>)
    requires NonNegative(cycle.book) && AllPriceable(cycle, addresses)
    requires forall a | a in addresses :: WellTimed(cycle, a)
    ensures 0.0 <= Total(cycle, addresses).low <= Total(cycle, addresses).high
  {
    if addresses == [] {
    } else {
      var last := addresses[|addresses| - 1];
      assert last in addresses;
      SumIsOrdered(cycle, addresses[..|addresses| - 1]);
      RowBandIsOrdered(cycle, last);
      hide ExactAt, RowAt;
    }
  }

  /** Seconds, row costs and totals, for rows whose records are well timed. */
  lemma WellTimedBandIsOrdered(environment: string, apply: Timeline, destroy: Option<Timeline>, cycle: Cycle,
                               cost: Cost)
    requires IsDict(cycle.created) && NonNegative(cycle.book) && AllPriceable(cycle, cycle.created.order)
    requires forall a | a in cycle.created.at :: WellTimed(cycle, a)
    requires IsCostOf(environment, apply, destroy, cycle, cost)
    ensures Ordered(cost)
  {
    SumIsOrdered(cycle, cycle.created.order);
    var total := Total(cycle, cycle.created.order);
    RoundKeepsOrder(0.0, total.low);
    RoundKeepsOrder(total.low, total.high);
    assert Round(0.0, MICRO) == 0.0;
    hide RowAt, ExactAt, Total, Round, WellTimed, Priceable;
    forall k | 0 <= k < |cost.rows| && cost.rows[k].bucket.Priced?
      ensures var c := cost.rows[k].bucket.charge; 0 <= c.seconds.low <= c.seconds.high && 0.0 <= c.usd.low <= c.usd.high
    {
      RowBandIsOrdered(cycle, cycle.created.order[k]);
    }
  }

  /** Nothing negative, low no more than high: the totals and every priced row. */
  predicate Ordered(cost: Cost) {
    && 0.0 <= cost.usd.low <= cost.usd.high
    && forall k | 0 <= k < |cost.rows| && cost.rows[k].bucket.Priced? ::
         var c := cost.rows[k].bucket.charge;
         0 <= c.seconds.low <= c.seconds.high && 0.0 <= c.usd.low <= c.usd.high
  }

  // ---------------------------------------------------------------- from the events

  /** The times of the events on one address never go back. */
  predicate TimesInOrder(events: seq<Event>, a: string) {
    forall j, k | 0 <= j < k < |events| && About(events[j], a) && About(events[k], a)
                  && events[j].ts.Some? && events[k].ts.Some? ::
      events[j].ts.value <= events[k].ts.value
  }

  /** The last start comes after the last outcome, and later in time. */
  predicate RestartedLater(events: seq<Event>, a: string) {
    exists j: nat, k: nat | j < k < |events| ::
      IsLast(events, a, OUTCOME, j) && IsLast(events, a, {Start}, k)
      && events[j].ts.Some? && events[k].ts.Some? && events[j].ts.value < events[k].ts.value
  }

  /** What the fold makes of ordered events: the record's start is no later than its finish, exactly
      when the address was not started again, later, after its last outcome. */
  lemma RecordInOrderExactly(events: seq<Event>, a: string)
    requires First(events, a).Some? && TimesInOrder(events, a)
    ensures InOrder(RecordOf(events, a)) <==> !RestartedLater(events, a)
  {
    hide Latest;
    var start, outcome := Latest(events, a, {Start}), Latest(events, a, OUTCOME);
    if start.Some? && outcome.Some? {
      var k := LatestStands(events, a, {Start});
      var j := LatestStands(events, a, OUTCOME);
      assert j != k;
      assert RestartedLater(events, a) <==>
             j < k && events[j].ts.Some? && events[k].ts.Some? && events[j].ts.value < events[k].ts.value by {
        forall i: nat | IsLast(events, a, OUTCOME, i) ensures i == j { LastIsOne(events, a, OUTCOME, i, j); }
        forall i: nat | IsLast(events, a, {Start}, i) ensures i == k { LastIsOne(events, a, {Start}, i, k); }
      }
    } else {
      NoneStands(events, a, {Start});
      NoneStands(events, a, OUTCOME);
    }
  }

  /** A stream whose records can be priced in order: on every address times run forwards and nothing is
      restarted later; what it created has a timed start, what it deleted a timed end. */
  predicate WellTimedStream(events: seq<Event>) {
    forall a | a in AddressesOf(events) ::
      && TimesInOrder(events, a) && !RestartedLater(events, a)
      && var r := RecordOf(events, a);
         (Acts(r, CREATES) ==> r.startedAt.Some?) && (Acts(r, DELETES) ==> r.finishedAt.Some?)
  }

  predicate AllWellTimed(captures: seq<Capture>) {
    forall k | 0 <= k < |captures| :: WellTimedStream(captures[k].events)
  }

  lemma FoundIsOrdered(captures: seq<Capture>, actions: set<string>, a: string)
    requires AllWellTimed(captures) && a in FoundIn(Flat(FoldAll(captures)), actions).at
    ensures var r := FoundIn(Flat(FoldAll(captures)), actions).at[a];
            && InOrder(r) && Acts(r, actions)
            && (Acts(r, CREATES) ==> r.startedAt.Some?) && (Acts(r, DELETES) ==> r.finishedAt.Some?)
  {
    hide RecordOf, FoldedOf, TimesInOrder, RestartedLater, InOrder;
    var operations := FoldAll(captures);
    var k := FoundIsTheLast(Flat(operations), actions, a);
    var j, i := FlatHolds(operations, k);
    hide FoundIn, Flat;
    RecordsAreOf(captures[j]);
    var events := captures[j].events;
    var address := AddressesOf(events)[i];
    assert address in AddressesOf(events);
    RecordInOrderExactly(events, address);
  }

  lemma RecordsAreOf(c: Capture)
    ensures FoldedOf(c).resources == RecordsOf(c.events)
  {
  }

  /** From ordered events to an ordered band: whatever streams the two timelines were folded from, if
      they are well timed and no price is negative then 0 <= low <= high, for the seconds and the cost of
      every priced row and for the totals. */
  lemma BandIsOrdered(environment: string, made: seq<Capture>, gone: seq<Capture>, apply: Timeline,
                      destroy: Option<Timeline>,
                      asOf: int, book: Book, cost: Cost)
    requires apply.operations == FoldAll(made) && (destroy.Some? ==> destroy.value.operations == FoldAll(gone))
    requires AllWellTimed(made) && AllWellTimed(gone) && NonNegative(book)
    requires AllPriceable(CycleOf(apply, destroy, asOf, book), Created(apply).order)
    requires IsCostOf(environment, apply, destroy, CycleOf(apply, destroy, asOf, book), cost)
    ensures Ordered(cost)
  {
    hide FoundIn, Flat, FoldAll, AllWellTimed, AllPriceable, IsCostOf, Ordered;
    var cycle := CycleOf(apply, destroy, asOf, book);
    FoundIsADict(Flat(apply.operations), CREATES);
    forall a | a in cycle.created.at ensures WellTimed(cycle, a) {
      FoundIsOrdered(made, CREATES, a);
      if a in cycle.deleted.at { FoundIsOrdered(gone, DELETES, a); }
    }
    WellTimedBandIsOrdered(environment, apply, destroy, cycle, cost);
  }

  function HookOn(a: string): Hook {
    Hook(a, "", None, None, Some("create"), None, None, None)
  }

  /** A stream in order and complete in every sense, whose one resource was started again after it
      had completed. */
  function Restarted(a: string): seq<Event> {
    [Event(Some(0), Hooked(Start, HookOn(a))), Event(Some(10), Hooked(Complete, HookOn(a))),
     Event(Some(20), Hooked(Start, HookOn(a))), Event(Some(30), ChangeSummary("apply", Counts(None, None, None, None)))]
  }

  /** It prices upside down: its times run forwards and it ran to its end, and yet the resource stood
      for 90 seconds at least and 80 at most. */
  lemma RestartTurnsTheBand(a: string)
    requires a != ""
    ensures TimesInOrder(Restarted(a), a) && RestartedLater(Restarted(a), a) && RanToTheEnd(Some(0), Restarted(a))
    ensures First(Restarted(a), a).Some? && Billed(RecordOf(Restarted(a), a), None, 100, 0) == Band(90, 80)
  {
    var es := Restarted(a);
    RestartedStands(a);
    assert RestartedLater(es, a);
    assert Names(es[0]) && es[0] in es;
    RestartedTimes(a);
    hide Restarted, Latest, First;
    LatestAt(es, a, OUTCOME, 1);
    LatestAt(es, a, {Start}, 2);
  }

  lemma RestartedStands(a: string)
    requires a != ""
    ensures var es := Restarted(a);
            && IsLast(es, a, OUTCOME, 1) && IsLast(es, a, {Complete}, 1) && IsLast(es, a, {Start}, 2)
            && TimesInOrder(es, a) && RanToTheEnd(Some(0), es)
  {
    var es := Restarted(a);
    assert On(es[1], a, {Complete});
    assert Terminal(es[3]);
  }

  lemma RestartedTimes(a: string)
    ensures var es := Restarted(a); |es| == 4 && es[1].ts == Some(10) && es[2].ts == Some(20)
  {
  }

  // ---------------------------------------------------------------- re-pricing

  function AskedLater(cycle: Cycle, d: nat): Cycle {
    cycle.(asOf := cycle.asOf + d)
  }

  /** The asking time is past this end, and past the minimum it buys. */
  predicate PastMinimum(end: Option<int>, asOf: int, minimum: int) {
    end.Some? && asOf - end.value >= Max(0, minimum)
  }

  /** A row that publishes its rate, asked about `d` seconds later, costs exactly `d` times that rate
      more at its low end if and only if the creation has a finish that is past, and at its high end if and
      only if it has a start as far past as the minimum. */
  lemma RepricingIsExact(cycle: Cycle, a: string, d: nat)
    requires a in cycle.created.at && Priceable(cycle, a)
    requires RowAt(cycle, a).bucket.Priced? && RowAt(cycle, a).bucket.charge.perSecond.Some?
    requires d > 0 && RateAt(cycle, a).value > 0.0
    ensures var now, then' := ExactAt(cycle, a), ExactAt(AskedLater(cycle, d), a);
            var rate, made := RateAt(cycle, a).value, cycle.created.at[a];
            && (then'.low == now.low + Times(d as real, rate) <==> PastMinimum(made.finishedAt, cycle.asOf, 0))
            && (then'.high == now.high + Times(d as real, rate) <==>
                  PastMinimum(made.startedAt, cycle.asOf, TariffOf(cycle, a).minimum))
    ensures Abs(RowAt(cycle, a).bucket.charge.perSecond.value - RateAt(cycle, a).value) * PICO <= 0.5
  {
    var rate, made, minimum := RateAt(cycle, a).value, cycle.created.at[a], TariffOf(cycle, a).minimum;
    var now, then' := BilledAt(cycle, a), BilledAt(AskedLater(cycle, d), a);
    BilledMoves(made, cycle.asOf, minimum, d);
    TimesGrows(now.low, then'.low, d, rate);
    TimesGrows(now.high, then'.high, d, rate);
    RoundIsClose(rate, PICO);
    hide Times, Billed, SumCost, Round;
  }

  lemma BilledMoves(made: Record, asOf: int, minimum: int, d: nat)
    requires d > 0 && !MinimumApplies(Billed(made, None, asOf, minimum).low, minimum)
    ensures var now, then' := Billed(made, None, asOf, minimum), Billed(made, None, asOf + d, minimum);
            && (then'.low == now.low + d <==> PastMinimum(made.finishedAt, asOf, 0))
            && (then'.high == now.high + d <==> PastMinimum(made.startedAt, asOf, minimum))
  {
  }

  lemma TimesGrows(x: int, y: int, d: nat, rate: real)
    requires rate > 0.0
    ensures Times(y as real, rate) == Times(x as real, rate) + Times(d as real, rate) <==> y == x + d
  {
    Distribute(x as real, d as real, rate);
    if y < x + d { assert ((x + d) as real - y as real) * rate > 0.0; }
    if y > x + d { assert (y as real - (x + d) as real) * rate > 0.0; }
    assert (x + d) as real == x as real + d as real;
  }

  // ---------------------------------------------------------------- printed sums

  function PrintedSum(rows: seq<Row>): Band<real> {
    if rows == [] then Band(0.0, 0.0)
    else
      var before, last := PrintedSum(rows[..|rows| - 1]), rows[|rows| - 1];
      if last.bucket.Priced? then Band(before.low + last.bucket.charge.usd.low, before.high + last.bucket.charge.usd.high)
      else before
  }

  function PricedIn(rows: seq<Row>): nat {
    if rows == [] then 0 else PricedIn(rows[..|rows| - 1]) + if rows[|rows| - 1].bucket.Priced? then 1 else 0
  }

  lemma {:induction false} RowsAddUp(cycle: Cycle, addresses: seq<string>, rows: seq<Row>)
    requires AllPriceable(cycle, addresses) && RowsAre(cycle, addresses, rows)
    ensures var printed, exact, n := PrintedSum(rows), Total(cycle, addresses), PricedIn(rows) as real;
            Abs(printed.low - exact.low) <= n * HALF_UNIT && Abs(printed.high - exact.high) <= n * HALF_UNIT
  {
    hide Round, RowAt, ExactAt, RowsAre, AllPriceable, Priceable;
    NoRows(cycle, addresses, rows);
    if rows == [] {
    } else {
      var n := |rows| - 1;
      LastRow(cycle, addresses, rows);
      RowsAddUp(cycle, addresses[..n], rows[..n]);
      RowPrints(cycle, addresses[n]);
      var before, exact, a := PrintedSum(rows[..n]), Total(cycle, addresses[..n]), ExactAt(cycle, addresses[n]);
      if rows[n].bucket.Priced? {
        CloseMore(before.low, exact.low, PricedIn(rows[..n]), a.low);
        CloseMore(before.high, exact.high, PricedIn(rows[..n]), a.high);
      }
    }
  }

  lemma NoRows(cycle: Cycle, addresses: seq<string>, rows: seq<Row>)
    requires AllPriceable(cycle, addresses) && RowsAre(cycle, addresses, rows)
    ensures |rows| == |addresses|
  {
  }

  lemma LastRow(cycle: Cycle, addresses: seq<string>, rows: seq<Row>)
    requires AllPriceable(cycle, addresses) && RowsAre(cycle, addresses, rows) && rows != []
    ensures var n := |rows| - 1;
            && addresses[n] in addresses && addresses[n] in cycle.created.at && Priceable(cycle, addresses[n])
            && rows[n] == RowAt(cycle, addresses[n])
            && AllPriceable(cycle, addresses[..n]) && RowsAre(cycle, addresses[..n], rows[..n])
  {
    hide Priceable, RowAt;
    var n := |rows| - 1;
    assert addresses[n] in addresses;
    forall k | 0 <= k < n
      ensures rows[..n][k] == rows[k] && addresses[..n][k] == addresses[k] && addresses[..n][k] in addresses[..n] {}
  }

  lemma CloseMore(printed: real, exact: real, n: nat, x: real)
    requires Abs(printed - exact) <= n as real * HALF_UNIT
    ensures Abs(printed + Round(x, MICRO) - (exact + x)) <= (n + 1) as real * HALF_UNIT
  {
    PrintedIsClose(x);
  }

  lemma RowPrints(cycle: Cycle, a: string)
    requires a in cycle.created.at && Priceable(cycle, a)
    ensures var row, exact := RowAt(cycle, a), ExactAt(cycle, a);
            if row.bucket.Priced? then row.bucket.charge.usd == Band(Round(exact.low, MICRO), Round(exact.high, MICRO))
            else exact == Band(0.0, 0.0)
  {
  }

  /** The printed costs of n priced rows sum to the printed total within n + 1 half units. */
  lemma PrintedRowsSumToTheTotal(environment: string, apply: Timeline, destroy: Option<Timeline>, cycle: Cycle,
                                 cost: Cost)
    requires AllPriceable(cycle, cycle.created.order) && IsCostOf(environment, apply, destroy, cycle, cost)
    ensures Abs(PrintedSum(cost.rows).low - cost.usd.low) <= (PricedIn(cost.rows) + 1) as real * HALF_UNIT
    ensures Abs(PrintedSum(cost.rows).high - cost.usd.high) <= (PricedIn(cost.rows) + 1) as real * HALF_UNIT
  {
    RowsAddUp(cycle, cycle.created.order, cost.rows);
    PrintedIsClose(Total(cycle, cycle.created.order).low);
    PrintedIsClose(Total(cycle, cycle.created.order).high);
    hide Round, Total, RowsAre, AllPriceable;
  }
}
