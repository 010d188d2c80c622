/** What a cycle cost, from how long its resources existed: a band, low and high, per resource.
    Money is exact reals; rounding is half to even, as printed. */
module FoldCost {
  import opened Options
  import opened FoldTimeline

  datatype Result<+T> = Ok(value: T) | Refused

  datatype Component = Component(unitPrice: string, quantity: real, quantityFrom: seq<string>, perMonth: bool)

  datatype Tariff = Tariff(minimum: int, components: seq<Component>)

  /** The rate table, the shape of the environment and the cost model. */
  datatype Book = Book(prices: map<string, real>, shape: map<string, real>,
                       free: set<string>, notMetered: set<string>, priced: map<string, Tariff>)

  datatype Window = Window(start: Option<int>, end: Option<int>)

  datatype Band<T> = Band(low: T, high: T)

  datatype RowState = Open | NeverDeleted | Closed

  datatype Charge = Charge(state: RowState, seconds: Band<int>, usd: Band<real>, minimumApplied: bool,
                           perSecond: Option<real>)

  datatype Bucket = Free | NotMetered | Unpriced | Priced(charge: Charge)

  datatype Row = Row(address: string, kind: Option<string>, created: Window, deleted: Option<Window>, bucket: Bucket)

  // ---------------------------------------------------------------- seconds

  function Max(a: int, b: int): int { if a >= b then a else b }
  function Min(a: int, b: int): int { if a <= b then a else b }

  /** `span`: clamped at zero, and zero when an end is missing. */
  function Span(start: Option<int>, end: Option<int>): nat {
    if start.None? || end.None? then 0 else Max(0, end.value - start.value)
  }

  // ---------------------------------------------------------------- rounding

  function HalfEven(y: real): int {
    var down := y.Floor;
    if y - down as real < 0.5 || (y - down as real == 0.5 && down % 2 == 0) then down else down + 1
  }

  /** Python's `round(x, digits)` where `scale` is ten to the digits. */
  function Round(x: real, scale: real): real
    requires scale > 0.0
  {
    HalfEven(x * scale) as real / scale
  }

  const MICRO := 1000000.0
  const PICO := 1000000000000.0
  const HALF_UNIT := 0.0000005

  function Abs(x: real): real { if x < 0.0 then -x else x }

  lemma RoundIsClose(x: real, scale: real)
    requires scale > 0.0
    ensures Abs(Round(x, scale) - x) * scale <= 0.5
  {
    var n := HalfEven(x * scale) as real;
    assert Abs(n - x * scale) <= 0.5;
    assert n / scale * scale == n;
    assert (n / scale - x) * scale == n - x * scale;
  }

  lemma PrintedIsClose(x: real)
    ensures Abs(Round(x, MICRO) - x) <= HALF_UNIT
  {
    RoundIsClose(x, MICRO);
  }

  // ---------------------------------------------------------------- components

  /** A product of two amounts. */
  function Times(a: real, b: real): real { a * b }

  lemma Regroup(a: real, b: real, c: real)
    ensures Times(a, Times(b, c)) == Times(b, Times(a, c))
  {
    assert a * (b * c) == b * (a * c);
  }

  lemma Distribute(a: real, b: real, c: real)
    ensures Times(a + b, c) == Times(a, c) + Times(b, c) && Times(c, a + b) == Times(c, a) + Times(c, b)
  {
  }

  lemma Monotone(a: real, b: real, c: real)
    requires a <= b && c >= 0.0
    ensures Times(a, c) <= Times(b, c) && Times(c, a) <= Times(c, b)
    ensures a >= 0.0 ==> Times(a, c) >= 0.0
  {
    assert (b - a) * c >= 0.0;
  }

  /** The quantity times every shape figure it is multiplied by. */
  function QuantityOf(quantity: real, names: seq<string>, shape: map<string, real>): Result<real> {
    if names == [] then Ok(quantity)
    else
      var before, name := QuantityOf(quantity, names[..|names| - 1], shape), names[|names| - 1];
      if before.Refused? || name !in shape then Refused else Ok(Times(before.value, shape[name]))
  }

  function Hours(perMonth: bool, seconds: real): real {
    if perMonth then seconds / 3600.0 / 730.0 else seconds / 3600.0
  }

  function CostOf(c: Component, book: Book, seconds: real): Result<real> {
    var quantity := QuantityOf(c.quantity, c.quantityFrom, book.shape);
    if c.unitPrice !in book.prices || quantity.Refused? then Refused
    else Ok(Times(Times(quantity.value, book.prices[c.unitPrice]), Hours(c.perMonth, seconds)))
  }

  function SumCost(cs: seq<Component>, book: Book, seconds: real): Result<real> {
    if cs == [] then Ok(0.0)
    else
      var before, last := SumCost(cs[..|cs| - 1], book, seconds), CostOf(cs[|cs| - 1], book, seconds);
      if before.Refused? || last.Refused? then Refused else Ok(before.value + last.value)
  }

  /** `component_cost`. */
  method ComponentCost(c: Component, book: Book, seconds: real) returns (r: Result<real>)
    ensures r == CostOf(c, book, seconds)
  {
    hide Times;
    if c.unitPrice !in book.prices { return Refused; }
    var quantity := c.quantity;
    for i := 0 to |c.quantityFrom|
      invariant QuantityOf(c.quantity, c.quantityFrom[..i], book.shape) == Ok(quantity)
    {
      assert c.quantityFrom[..i + 1][..i] == c.quantityFrom[..i];
      if c.quantityFrom[i] !in book.shape {
        MissingFigureRefuses(c.quantity, c.quantityFrom, book.shape, i);
        return Refused;
      }
      quantity := Times(quantity, book.shape[c.quantityFrom[i]]);
    }
    assert c.quantityFrom[..|c.quantityFrom|] == c.quantityFrom;
    var hours := seconds / 3600.0;
    if c.perMonth { hours := hours / 730.0; }
    r := Ok(Times(Times(quantity, book.prices[c.unitPrice]), hours));
  }

  lemma {:induction false} MissingFigureRefuses(quantity: real, names: seq<string>, shape: map<string, real>, i: nat)
    requires i < |names| && names[i] !in shape
    ensures QuantityOf(quantity, names, shape).Refused?
  {
    if i < |names| - 1 { MissingFigureRefuses(quantity, names[..|names| - 1], shape, i); }
  }

  method PriceOf(cs: seq<Component>, book: Book, seconds: real) returns (r: Result<real>)
    ensures r == SumCost(cs, book, seconds)
  {
    var total := 0.0;
    for i := 0 to |cs|
      invariant SumCost(cs[..i], book, seconds) == Ok(total)
    {
      assert cs[..i + 1][..i] == cs[..i];
      var one := ComponentCost(cs[i], book, seconds);
      if one.Refused? {
        OneRefusalRefuses(cs, book, seconds, i);
        return Refused;
      }
      total := total + one.value;
    }
    assert cs[..|cs|] == cs;
    r := Ok(total);
  }

  lemma {:induction false} OneRefusalRefuses(cs: seq<Component>, book: Book, seconds: real, i: nat)
    requires i < |cs| && CostOf(cs[i], book, seconds).Refused?
    ensures SumCost(cs, book, seconds).Refused?
  {
    if i < |cs| - 1 { OneRefusalRefuses(cs[..|cs| - 1], book, seconds, i); }
  }

  lemma HoursAreLinear(perMonth: bool, seconds: real)
    ensures Hours(perMonth, seconds) == seconds * Hours(perMonth, 1.0)
  {
  }

  lemma CostIsLinear(c: Component, book: Book, seconds: real)
    ensures CostOf(c, book, seconds).Refused? <==> CostOf(c, book, 1.0).Refused?
    ensures CostOf(c, book, seconds).Ok? ==>
            CostOf(c, book, seconds).value == Times(seconds, CostOf(c, book, 1.0).value)
  {
    HoursAreLinear(c.perMonth, seconds);
    if CostOf(c, book, 1.0).Ok? {
      var k := Times(QuantityOf(c.quantity, c.quantityFrom, book.shape).value, book.prices[c.unitPrice]);
      Regroup(k, seconds, Hours(c.perMonth, 1.0));
      assert Times(seconds, Hours(c.perMonth, 1.0)) == Hours(c.perMonth, seconds);
    }
    hide QuantityOf, Hours, Times;
  }

  /** A price is one rate times the seconds; whether it can be given does not depend on them. */
  lemma {:induction false} PriceIsLinear(cs: seq<Component>, book: Book, seconds: real)
    ensures SumCost(cs, book, seconds).Refused? <==> SumCost(cs, book, 1.0).Refused?
    ensures SumCost(cs, book, seconds).Ok? ==>
            SumCost(cs, book, seconds).value == Times(seconds, SumCost(cs, book, 1.0).value)
  {
    if cs != [] {
      PriceIsLinear(cs[..|cs| - 1], book, seconds);
      CostIsLinear(cs[|cs| - 1], book, seconds);
      if SumCost(cs, book, 1.0).Ok? {
        Distribute(SumCost(cs[..|cs| - 1], book, 1.0).value, CostOf(cs[|cs| - 1], book, 1.0).value, seconds);
      }
      hide CostOf, Times;
    } else {
      assert Times(seconds, 0.0) == 0.0;
    }
  }

  predicate NonNegative(book: Book) {
    && (forall p | p in book.prices :: book.prices[p] >= 0.0)
    && (forall n | n in book.shape :: book.shape[n] >= 0.0)
    && (forall k | k in book.priced :: forall c | c in book.priced[k].components :: c.quantity >= 0.0)
  }

  lemma {:induction false} RateIsNotNegative(cs: seq<Component>, book: Book)
    requires NonNegative(book) && (forall c | c in cs :: c.quantity >= 0.0) && SumCost(cs, book, 1.0).Ok?
    ensures SumCost(cs, book, 1.0).value >= 0.0
  {
    if cs == [] {
    } else {
      RateIsNotNegative(cs[..|cs| - 1], book);
      var c := cs[|cs| - 1];
      assert c in cs;
      QuantityIsNotNegative(c.quantity, c.quantityFrom, book);
    }
  }

  lemma {:induction false} QuantityIsNotNegative(quantity: real, names: seq<string>, book: Book)
    requires NonNegative(book) && quantity >= 0.0 && QuantityOf(quantity, names, book.shape).Ok?
    ensures QuantityOf(quantity, names, book.shape).value >= 0.0
  {
    if names == [] {
    } else {
      QuantityIsNotNegative(quantity, names[..|names| - 1], book);
    }
  }

  // ---------------------------------------------------------------- resources_of

  /** A dictionary of records in the order its keys were first set. */
  datatype Found = Found(order: seq<string>, at: map<string, Record>)

  predicate Acts(r: Record, actions: set<string>) {
    r.action.Some? && r.action.value in actions
  }

  function FoundIn(records: seq<Record>, actions: set<string>): Found {
    if records == [] then Found([], map[])
    else
      var before, r := FoundIn(records[..|records| - 1], actions), records[|records| - 1];
      if !Acts(r, actions) then before
      else Found(before.order + (if r.address in before.at then [] else [r.address]), before.at[r.address := r])
  }

  ghost predicate IsDict(f: Found) {
    (forall a :: a in f.order <==> a in f.at) && (forall j, k | 0 <= j < k < |f.order| :: f.order[j] != f.order[k])
  }

  lemma {:induction false} FoundIsADict(records: seq<Record>, actions: set<string>)
    ensures IsDict(FoundIn(records, actions))
  {
    if records == [] {
    } else {
      FoundIsADict(records[..|records| - 1], actions);
    }
  }

  /** Under each address, the last record of it that acts. */
  lemma {:induction false} FoundIsTheLast(records: seq<Record>, actions: set<string>, a: string) returns (k: nat)
    requires a in FoundIn(records, actions).at
    ensures k < |records| && records[k].address == a && Acts(records[k], actions)
    ensures FoundIn(records, actions).at[a] == records[k]
    ensures forall j | k < j < |records| :: !(records[j].address == a && Acts(records[j], actions))
  {
    var last := records[|records| - 1];
    if last.address == a && Acts(last, actions) { k := |records| - 1; }
    else { k := FoundIsTheLast(records[..|records| - 1], actions, a); }
  }

  lemma {:induction false} ActingIsFound(records: seq<Record>, actions: set<string>, k: nat)
    requires k < |records| && Acts(records[k], actions)
    ensures records[k].address in FoundIn(records, actions).at
  {
    if k < |records| - 1 { ActingIsFound(records[..|records| - 1], actions, k); }
  }

  lemma FoundMore(records: seq<Record>, r: Record, actions: set<string>)
    ensures var f := FoundIn(records, actions);
            FoundIn(records + [r], actions) ==
            if Acts(r, actions) then Found(f.order + (if r.address in f.at then [] else [r.address]), f.at[r.address := r])
            else f
  {
    assert (records + [r])[..|records + [r]| - 1] == records;
  }

  /** Every record of a timeline, operation by operation. */
  function Flat(operations: seq<Folded>): seq<Record> {
    if operations == [] then [] else Flat(operations[..|operations| - 1]) + operations[|operations| - 1].resources
  }

  /** `resources_of`. */
  method ResourcesFound(timeline: Timeline, actions: set<string>) returns (found: Found)
    ensures found == FoundIn(Flat(timeline.operations), actions)
  {
    hide FoundIn, Acts;
    EmptyFound(actions);
    found := Found([], map[]);
    var operations := timeline.operations;
    for i := 0 to |operations|
      invariant found == FoundIn(Flat(operations[..i]), actions)
    {
      assert operations[..i + 1][..i] == operations[..i];
      found := MoreFound(Flat(operations[..i]), found, operations[i].resources, actions);
    }
    assert operations[..|operations|] == operations;
  }

  lemma EmptyFound(actions: set<string>)
    ensures FoundIn([], actions) == Found([], map[])
  {
  }

  method MoreFound(ghost before: seq<Record>, found: Found, records: seq<Record>, actions: set<string>)
    returns (more: Found)
    requires found == FoundIn(before, actions)
    ensures more == FoundIn(before + records, actions)
  {
    hide FoundIn;
    more := found;
    assert before + records[..0] == before;
    for j := 0 to |records|
      invariant more == FoundIn(before + records[..j], actions)
    {
      var r := records[j];
      FoundMore(before + records[..j], r, actions);
      assert before + records[..j] + [r] == before + records[..j + 1];
      if Acts(r, actions) {
        more := Found(more.order + (if r.address in more.at then [] else [r.address]), more.at[r.address := r]);
      }
    }
    assert records[..|records|] == records;
  }

  lemma {:induction false} FlatHolds(operations: seq<Folded>, k: nat) returns (j: nat, i: nat)
    requires k < |Flat(operations)|
    ensures j < |operations| && i < |operations[j].resources| && operations[j].resources[i] == Flat(operations)[k]
  {
    var init := operations[..|operations| - 1];
    if k < |Flat(init)| { j, i := FlatHolds(init, k); }
    else { j, i := |operations| - 1, k - |Flat(init)|; }
  }

  // ---------------------------------------------------------------- pairing

  datatype Role = Apply | Destroy

  datatype Refusal =
    | NamesNoEnvironment(role: Role)
    | NamesAnother(role: Role)
    | ApplyNotComplete
    | DestroyBeganTooSoon
    | NothingInCommon

  function Created(apply: Timeline): Found { FoundIn(Flat(apply.operations), CREATES) }
  function Deleted(destroy: Option<Timeline>): Found {
    if destroy.None? then Found([], map[]) else FoundIn(Flat(destroy.value.operations), DELETES)
  }

  predicate Misnamed(environment: string, t: Timeline) {
    t.environment.Some? && t.environment.value != environment
  }

  predicate BeganTooSoon(apply: Timeline, destroy: Timeline) {
    apply.finishedAt.Some? && destroy.startedAt.Some? && destroy.startedAt.value < apply.finishedAt.value
  }

  predicate Disjoint(created: Found, deleted: Found) {
    deleted.order != [] && forall a | a in deleted.at :: a !in created.at
  }

  /** Why two timelines are not one cycle. */
  predicate Refuses(environment: string, apply: Timeline, destroy: Option<Timeline>, why: Refusal) {
    match why
    case NamesNoEnvironment(Apply) => apply.environment.None?
    case NamesNoEnvironment(Destroy) => destroy.Some? && destroy.value.environment.None?
    case NamesAnother(Apply) => Misnamed(environment, apply)
    case NamesAnother(Destroy) => destroy.Some? && Misnamed(environment, destroy.value)
    case ApplyNotComplete => apply.status != CompleteRun
    case DestroyBeganTooSoon => destroy.Some? && BeganTooSoon(apply, destroy.value)
    case NothingInCommon => destroy.Some? && Disjoint(Created(apply), Deleted(destroy))
  }

  ghost predicate OneCycle(environment: string, apply: Timeline, destroy: Option<Timeline>) {
    forall why :: !Refuses(environment, apply, destroy, why)
  }

  /** `pairing_refusals`: every reason there is, and no other. */
  method PairingRefusals(environment: string, apply: Timeline, destroy: Option<Timeline>)
    returns (problems: seq<Refusal>)
    ensures forall why :: why in problems <==> Refuses(environment, apply, destroy, why)
  {
    hide FoundIn, Flat;
    var ofApply := Misnaming(environment, Apply, apply);
    var ofDestroy := if destroy.Some? then Misnaming(environment, Destroy, destroy.value) else [];
    var incomplete := if apply.status != CompleteRun then [ApplyNotComplete] else [];
    problems := ofApply + ofDestroy + incomplete;
    if destroy.None? { return; }
    var tooSoon := if BeganTooSoon(apply, destroy.value) then [DestroyBeganTooSoon] else [];
    var created := ResourcesFound(apply, CREATES);
    var deleted := ResourcesFound(destroy.value, DELETES);
    DisjointKeys(created, deleted);
    var strangers := if deleted.order != [] && created.at.Keys * deleted.at.Keys == {} then [NothingInCommon] else [];
    problems := problems + tooSoon + strangers;
  }

  lemma DisjointKeys(created: Found, deleted: Found)
    ensures created.at.Keys * deleted.at.Keys == {} <==> forall a | a in deleted.at :: a !in created.at
  {
    if created.at.Keys * deleted.at.Keys != {} {
      var a :| a in created.at.Keys * deleted.at.Keys;
    }
    forall a | a in deleted.at && a in created.at ensures a in created.at.Keys * deleted.at.Keys {}
  }

  function Misnaming(environment: string, role: Role, t: Timeline): seq<Refusal> {
    if t.environment.None? then [NamesNoEnvironment(role)]
    else if Misnamed(environment, t) then [NamesAnother(role)] else []
  }

  // ---------------------------------------------------------------- rows

  datatype Cycle = Cycle(created: Found, deleted: Found, closed: bool, asOf: int, book: Book)

  function CycleOf(apply: Timeline, destroy: Option<Timeline>, asOf: int, book: Book): Cycle {
    Cycle(Created(apply), Deleted(destroy), destroy.Some?, asOf, book)
  }

  /** How long the resource certainly existed, and how long it may have: create finished to delete
      started, create started to delete finished; an open end is the asking time. */
  function Lifetime(record: Record, deleted: Option<Record>, asOf: int): Band<int> {
    Band(Span(record.finishedAt, if deleted.Some? then deleted.value.startedAt else Some(asOf)),
         Span(record.startedAt, if deleted.Some? then deleted.value.finishedAt else Some(asOf)))
  }

  function Billed(record: Record, deleted: Option<Record>, asOf: int, minimum: int): Band<int> {
    var life := Lifetime(record, deleted, asOf);
    Band(Max(life.low, minimum), Max(life.high, minimum))
  }

  function DeletionOf(cycle: Cycle, a: string): Option<Record> {
    if a in cycle.deleted.at then Some(cycle.deleted.at[a]) else None
  }

  function StateOf(cycle: Cycle, a: string): RowState {
    if a in cycle.deleted.at then Closed else if cycle.closed then NeverDeleted else Open
  }

  predicate IsMetered(book: Book, kind: Option<string>) {
    kind.Some? && kind.value !in book.free && kind.value !in book.notMetered && kind.value in book.priced
  }

  function TariffOf(cycle: Cycle, a: string): Tariff
    requires a in cycle.created.at && IsMetered(cycle.book, cycle.created.at[a].kind)
  {
    cycle.book.priced[cycle.created.at[a].kind.value]
  }

  function BilledAt(cycle: Cycle, a: string): Band<int>
    requires a in cycle.created.at && IsMetered(cycle.book, cycle.created.at[a].kind)
  {
    Billed(cycle.created.at[a], DeletionOf(cycle, a), cycle.asOf, TariffOf(cycle, a).minimum)
  }

  /** The whole of a resource's pricing: dollars per second. */
  function RateAt(cycle: Cycle, a: string): Result<real>
    requires a in cycle.created.at && IsMetered(cycle.book, cycle.created.at[a].kind)
  {
    SumCost(TariffOf(cycle, a).components, cycle.book, 1.0)
  }

  /** Whether every price the created resource asks for is known. */
  predicate Priceable(cycle: Cycle, a: string)
    requires a in cycle.created.at
  {
    IsMetered(cycle.book, cycle.created.at[a].kind) ==> RateAt(cycle, a).Ok?
  }

  /** What an address adds to the totals: its rate times its billed seconds, before rounding. */
  function ExactAt(cycle: Cycle, a: string): Band<real>
    requires a in cycle.created.at && Priceable(cycle, a)
  {
    if !IsMetered(cycle.book, cycle.created.at[a].kind) then Band(0.0, 0.0)
    else Band(Times(BilledAt(cycle, a).low as real, RateAt(cycle, a).value),
              Times(BilledAt(cycle, a).high as real, RateAt(cycle, a).value))
  }

  predicate MinimumApplies(billedLow: int, minimum: int) {
    minimum != 0 && billedLow <= minimum
  }

  function BucketAt(cycle: Cycle, a: string): Bucket
    requires a in cycle.created.at && Priceable(cycle, a)
  {
    var kind := cycle.created.at[a].kind;
    if kind.Some? && kind.value in cycle.book.free then Free
    else if kind.Some? && kind.value in cycle.book.notMetered then NotMetered
    else if !IsMetered(cycle.book, kind) then Unpriced
    else
      var exact, billed := ExactAt(cycle, a), BilledAt(cycle, a);
      var applied := MinimumApplies(billed.low, TariffOf(cycle, a).minimum);
      Priced(Charge(StateOf(cycle, a), billed, Band(Round(exact.low, MICRO), Round(exact.high, MICRO)), applied,
                    if StateOf(cycle, a) == Open && !applied then Some(Round(RateAt(cycle, a).value, PICO)) else None))
  }

  function RowAt(cycle: Cycle, a: string): (row: Row)
    requires a in cycle.created.at && Priceable(cycle, a)
    ensures row.address == a
  {
    var r, bucket := cycle.created.at[a], BucketAt(cycle, a);
    Row(a, r.kind, Window(r.startedAt, r.finishedAt),
        if bucket.Priced? && a in cycle.deleted.at then Some(Window(cycle.deleted.at[a].startedAt, cycle.deleted.at[a].finishedAt))
        else None,
        bucket)
  }

  ghost predicate AllPriceable(cycle: Cycle, addresses: seq<string>) {
    forall a | a in addresses :: a in cycle.created.at && Priceable(cycle, a)
  }

  /** The sum of what the addresses add. */
  ghost function Total(cycle: Cycle, addresses: seq<string>): Band<real>
    requires AllPriceable(cycle, addresses)
  {
    if addresses == [] then Band(0.0, 0.0)
    else
      var last := addresses[|addresses| - 1];
      assert last in addresses;
      var before := Total(cycle, addresses[..|addresses| - 1]);
      Band(before.low + ExactAt(cycle, last).low, before.high + ExactAt(cycle, last).high)
  }

  datatype Cost = Cost(environment: string, rows: seq<Row>, usd: Band<real>, closed: bool, startedAt: Option<int>,
                       finishedAt: Option<int>,
                       unpriced: seq<string>, orphanDeletes: set<string>)

  function UnpricedIn(rows: seq<Row>): seq<string> {
    if rows == [] then []
    else UnpricedIn(rows[..|rows| - 1]) + if rows[|rows| - 1].bucket.Unpriced? then [rows[|rows| - 1].address] else []
  }

  /** One created resource: its row and what it adds to the totals. */
  method PriceRow(cycle: Cycle, a: string) returns (r: Result<(Row, Band<real>)>)
    requires a in cycle.created.at
    ensures r.Ok? <==> Priceable(cycle, a)
    ensures r.Ok? ==> r.value == (RowAt(cycle, a), ExactAt(cycle, a))
  {
    hide SumCost, Round, Times;
    var record, book := cycle.created.at[a], cycle.book;
    var row := Row(a, record.kind, Window(record.startedAt, record.finishedAt), None, Unpriced);
    if record.kind.Some? && record.kind.value in book.free { return Ok((row.(bucket := Free), Band(0.0, 0.0))); }
    if record.kind.Some? && record.kind.value in book.notMetered { return Ok((row.(bucket := NotMetered), Band(0.0, 0.0))); }
    if record.kind.None? || record.kind.value !in book.priced { return Ok((row, Band(0.0, 0.0))); }
    var tariff := book.priced[record.kind.value];
    var state, lowEnd, highEnd := Open, Some(cycle.asOf), Some(cycle.asOf);
    if a in cycle.deleted.at {
      var gone := cycle.deleted.at[a];
      row := row.(deleted := Some(Window(gone.startedAt, gone.finishedAt)));
      state, lowEnd, highEnd := Closed, gone.startedAt, gone.finishedAt;
    } else if cycle.closed {
      state := NeverDeleted;
    }
    var low := Max(Span(record.finishedAt, lowEnd), tariff.minimum);
    var high := Max(Span(record.startedAt, highEnd), tariff.minimum);
    PriceIsLinear(tariff.components, book, low as real);
    PriceIsLinear(tariff.components, book, high as real);
    var usdLow := PriceOf(tariff.components, book, low as real);
    if usdLow.Refused? { return Refused; }
    var usdHigh := PriceOf(tariff.components, book, high as real);
    if usdHigh.Refused? { return Refused; }
    var applied := tariff.minimum != 0 && low <= tariff.minimum;
    var perSecond := None;
    if state == Open && !applied {
      var rate := PriceOf(tariff.components, book, 1.0);
      if rate.Refused? { return Refused; }
      perSecond := Some(Round(rate.value, PICO));
    }
    var printed := Band(Round(usdLow.value, MICRO), Round(usdHigh.value, MICRO));
    row := row.(bucket := Priced(Charge(state, Band(low, high), printed, applied, perSecond)));
    assert StateOf(cycle, a) == state && BilledAt(cycle, a) == Band(low, high);
    assert ExactAt(cycle, a) == Band(usdLow.value, usdHigh.value);
    r := Ok((row, Band(usdLow.value, usdHigh.value)));
  }

  /** The rows of these addresses, in order. */
  ghost predicate RowsAre(cycle: Cycle, addresses: seq<string>, rows: seq<Row>)
    requires AllPriceable(cycle, addresses)
  {
    |rows| == |addresses| && forall k | 0 <= k < |rows| ::
                               addresses[k] in addresses && rows[k] == RowAt(cycle, addresses[k])
  }

  lemma OneMoreRow(cycle: Cycle, addresses: seq<string>, a: string, rows: seq<Row>)
    requires AllPriceable(cycle, addresses) && RowsAre(cycle, addresses, rows)
    requires a in cycle.created.at && Priceable(cycle, a)
    ensures AllPriceable(cycle, addresses + [a]) && RowsAre(cycle, addresses + [a], rows + [RowAt(cycle, a)])
    ensures var before := Total(cycle, addresses);
            Total(cycle, addresses + [a]) ==
                Band(before.low + ExactAt(cycle, a).low, before.high + ExactAt(cycle, a).high)
    ensures UnpricedIn(rows + [RowAt(cycle, a)]) == UnpricedIn(rows) + if RowAt(cycle, a).bucket.Unpriced? then [a]
                                                                       else []
  {
    hide Priceable, RowAt, ExactAt;
    var more := addresses + [a];
    assert more[..|more| - 1] == addresses;
    assert (rows + [RowAt(cycle, a)])[..|rows|] == rows;
    assert forall b :: b in more <==> b in addresses || b == a;
  }

  /** Every row, and the exact sum; refused when one price is missing. */
  method PriceAll(cycle: Cycle) returns (r: Result<(seq<Row>, Band<real>, seq<string>)>)
    requires IsDict(cycle.created)
    ensures r.Ok? <==> AllPriceable(cycle, cycle.created.order)
    ensures r.Ok? ==> RowsAre(cycle, cycle.created.order, r.value.0) && r.value.1 == Total(cycle, cycle.created.order)
                      && r.value.2 == UnpricedIn(r.value.0)
  {
    hide Priceable, RowAt, ExactAt, RowsAre, Total, UnpricedIn;
    var order := cycle.created.order;
    var rows, unpriced, low, high := [], [], 0.0, 0.0;
    NothingYet(cycle);
    assert order[..0] == [];
    for i := 0 to |order|
      invariant AllPriceable(cycle, order[..i]) && Total(cycle, order[..i]) == Band(low, high)
      invariant RowsAre(cycle, order[..i], rows) && unpriced == UnpricedIn(rows)
    {
      var a := order[i];
      assert a in order;
      assert order[..i] + [a] == order[..i + 1];
      var one := PriceRow(cycle, a);
      if one.Refused? { return Refused; }
      OneMoreRow(cycle, order[..i], a, rows);
      if one.value.0.bucket.Unpriced? { unpriced := unpriced + [a]; }
      rows := rows + [one.value.0];
      low, high := low + one.value.1.low, high + one.value.1.high;
    }
    assert order[..|order|] == order;
    r := Ok((rows, Band(low, high), unpriced));
  }

  lemma NothingYet(cycle: Cycle)
    ensures AllPriceable(cycle, []) && RowsAre(cycle, [], []) && Total(cycle, []) == Band(0.0, 0.0)
    ensures UnpricedIn([]) == []
  {
  }

  /** `build`: refused exactly when the timelines are not one cycle or a price is missing; otherwise one
      row per created address, in order, and their exact sum, rounded once. */
  method BuildCost(environment: string, apply: Timeline, destroy: Option<Timeline>, book: Book, asOf: int)
    returns (r: Result<Cost>)
    ensures var cycle := CycleOf(apply, destroy, asOf, book);
            && (r.Ok? <==> OneCycle(environment, apply, destroy) && AllPriceable(cycle, cycle.created.order))
            && (r.Ok? ==> IsCostOf(environment, apply, destroy, cycle, r.value))
  {
    hide FoundIn, Flat, RowsAre, Round, Refuses, AllPriceable;
    var problems := PairingRefusals(environment, apply, destroy);
    if problems != [] {
      assert Refuses(environment, apply, destroy, problems[0]);
      return Refused;
    }
    FoundIsADict(Flat(apply.operations), CREATES);
    var created := ResourcesFound(apply, CREATES);
    var deleted := Found([], map[]);
    if destroy.Some? { deleted := ResourcesFound(destroy.value, DELETES); }
    var all := PriceAll(Cycle(created, deleted, destroy.Some?, asOf, book));
    if all.Refused? { return Refused; }
    var (rows, total, unpriced) := all.value;
    r := Ok(Cost(environment, rows, Band(Round(total.low, MICRO), Round(total.high, MICRO)), destroy.Some?, apply.startedAt,
                 if destroy.Some? then destroy.value.finishedAt
                 else Some(asOf), unpriced, deleted.at.Keys - created.at.Keys));
  }

  ghost predicate IsCostOf(environment: string, apply: Timeline, destroy: Option<Timeline>, cycle: Cycle, cost: Cost)
    requires AllPriceable(cycle, cycle.created.order)
  {
    && cost.environment == environment
    && RowsAre(cycle, cycle.created.order, cost.rows)
    && cost.usd == Band(Round(Total(cycle, cycle.created.order).low, MICRO), Round(Total(cycle, cycle.created.order).high, MICRO))
    && cost.closed == destroy.Some?
    && cost.startedAt == apply.startedAt
    && cost.finishedAt == (if destroy.Some? then destroy.value.finishedAt else Some(cycle.asOf))
    && cost.unpriced == UnpricedIn(cost.rows)
    && cost.orphanDeletes == cycle.deleted.at.Keys - cycle.created.at.Keys
  }
}
