/** What a run of terraform did, folded from its event stream.  The fold updates one record per
    address in place; what it ends with is stated here by looking at the whole stream at once. */
module FoldTimeline {
  import opened Options

  datatype HookKind = Start | Progress | Complete | Errored

  /** An address that is missing, null or empty is the empty string. */
  datatype Hook = Hook(address: string, inModule: string, kind: Option<string>, name: Option<string>,
                       action: Option<string>,
                       elapsed: Option<int>, idKey: Option<string>, idValue: Option<string>)

  datatype Counts = Counts(add: Option<int>, change: Option<int>, remove: Option<int>, imported: Option<int>)

  datatype Payload =
    | ChangeSummary(operation: string, counts: Counts)
    | PlannedChange(address: string, planned: Option<string>)
    | Hooked(step: HookKind, hook: Hook)
    | Other

  /** Time is whole seconds; a timestamp that is missing or cannot be read is none. */
  datatype Event = Event(ts: Option<int>, payload: Payload)

  datatype Line = Blank | Unparsed | Parsed(event: Event)

  datatype RecordStatus = IsIncomplete | IsComplete | IsErrored

  datatype Record = Record(address: string, inModule: string, kind: Option<string>, name: Option<string>,
                           action: Option<string>,
                           status: RecordStatus, startedAt: Option<int>, finishedAt: Option<int>, elapsed: Option<int>,
                           lastProgress: Option<int>, idKey: Option<string>, idValue: Option<string>)

  datatype Status = CompleteRun | ErroredRun | IncompleteRun

  // ---------------------------------------------------------------- the stream, looked at whole

  predicate Terminal(e: Event) {
    e.payload.ChangeSummary? && e.payload.operation in {"apply", "destroy"}
  }

  /** A hook event that names an address. */
  predicate Names(e: Event) {
    e.payload.Hooked? && e.payload.hook.address != ""
  }

  predicate About(e: Event, address: string) {
    Names(e) && e.payload.hook.address == address
  }

  predicate On(e: Event, address: string, steps: set<HookKind>) {
    About(e, address) && e.payload.step in steps
  }

  const OUTCOME := {Complete, Errored}

  /** The last event of these kinds on this address. */
  function Latest(events: seq<Event>, address: string, steps: set<HookKind>): (r: Option<Event>)
    ensures r.Some? ==> On(r.value, address, steps)
    ensures r.None? <==> forall e | e in events :: !On(e, address, steps)
  {
    if events == [] then None
    else if On(events[|events| - 1], address, steps) then Some(events[|events| - 1])
    else Latest(events[..|events| - 1], address, steps)
  }

  /** ... and where it stands. */
  lemma {:induction false} LatestIsLast(events: seq<Event>, address: string, steps: set<HookKind>) returns (k: nat)
    requires Latest(events, address, steps).Some?
    ensures k < |events| && Latest(events, address, steps) == Some(events[k])
    ensures forall j | k < j < |events| :: !On(events[j], address, steps)
  {
    if On(events[|events| - 1], address, steps) { k := |events| - 1; }
    else { k := LatestIsLast(events[..|events| - 1], address, steps); }
  }

  /** The first event on this address. */
  function First(events: seq<Event>, address: string): (r: Option<Event>)
    ensures r.Some? ==> About(r.value, address)
    ensures r.None? <==> forall e | e in events :: !About(e, address)
  {
    if events == [] then None
    else
      var before := First(events[..|events| - 1], address);
      if before.Some? then before
      else if About(events[|events| - 1], address) then Some(events[|events| - 1]) else None
  }

  predicate Truthy(text: Option<string>) { text.Some? && text.value != "" }

  /** The last action a hook on this address named; failing that, what the first hook had. */
  function ActionOf(events: seq<Event>, address: string): Option<string>
  {
    if events == [] then None
    else
      var init, e := events[..|events| - 1], events[|events| - 1];
      if About(e, address) && (Truthy(e.payload.hook.action) || First(init, address).None?) then e.payload.hook.action
      else ActionOf(init, address)
  }

  function StatusAfter(outcome: Option<Event>): RecordStatus
    requires outcome.Some? ==> outcome.value.payload.Hooked?
  {
    if outcome.None? then IsIncomplete else if outcome.value.payload.step == Complete then IsComplete else IsErrored
  }

  function TimeOf(e: Option<Event>): Option<int> {
    if e.None? then None else e.value.ts
  }

  function ElapsedOf(e: Option<Event>): Option<int>
    requires e.Some? ==> e.value.payload.Hooked?
  {
    if e.None? then None else e.value.payload.hook.elapsed
  }

  /** What the stream says of one address. */
  function RecordOf(events: seq<Event>, address: string): Record
    requires First(events, address).Some?
  {
    var first := First(events, address).value.payload.hook;
    var outcome := Latest(events, address, OUTCOME);
    var completion := Latest(events, address, {Complete});
    Record(address, first.inModule, first.kind, first.name, ActionOf(events, address), StatusAfter(outcome),
           TimeOf(Latest(events, address, {Start})), TimeOf(outcome), ElapsedOf(outcome),
           ElapsedOf(Latest(events, address, {Progress})),
           if completion.None? then None else completion.value.payload.hook.idKey,
           if completion.None? then None else completion.value.payload.hook.idValue)
  }

  /** The addresses the hooks name, in order of first mention, each once. */
  function AddressesOf(events: seq<Event>): (r: seq<string>)
    ensures forall a :: a in r <==> First(events, a).Some?
    ensures forall j, k | 0 <= j < k < |r| :: r[j] != r[k]
  {
    if events == [] then []
    else
      var before, e := AddressesOf(events[..|events| - 1]), events[|events| - 1];
      if Names(e) && e.payload.hook.address !in before then before + [e.payload.hook.address] else before
  }

  function ResourcesOf(events: seq<Event>): map<string, Record> {
    map a | a in AddressesOf(events) :: RecordOf(events, a)
  }

  predicate Plans(e: Event) {
    e.payload.PlannedChange? && e.payload.address != ""
  }

  /** The last plan of each planned address, and the order of first mention. */
  function PlannedOf(events: seq<Event>): map<string, Option<string>> {
    if events == [] then map[]
    else
      var before, e := PlannedOf(events[..|events| - 1]), events[|events| - 1];
      if Plans(e) then before[e.payload.address := e.payload.planned] else before
  }

  function PlannedOrder(events: seq<Event>): (r: seq<string>)
    ensures forall a :: a in r <==> a in PlannedOf(events)
    ensures forall j, k | 0 <= j < k < |r| :: r[j] != r[k]
  {
    if events == [] then []
    else
      var before, e := PlannedOrder(events[..|events| - 1]), events[|events| - 1];
      if Plans(e) && e.payload.address !in before then before + [e.payload.address] else before
  }

  /** The last terminal summary. */
  function Summary(events: seq<Event>): (r: Option<Event>)
    ensures r.Some? ==> Terminal(r.value)
    ensures r.None? <==> forall e | e in events :: !Terminal(e)
  {
    if events == [] then None
    else if Terminal(events[|events| - 1]) then Some(events[|events| - 1])
    else Summary(events[..|events| - 1])
  }

  /** What the stream got as far as saying: a terminal summary outranks a plan. */
  function CommandOf(events: seq<Event>): Option<string> {
    if Summary(events).Some? then Some(Summary(events).value.payload.operation)
    else if exists e :: e in events && e.payload.ChangeSummary? && e.payload.operation == "plan" then Some("plan")
    else None
  }

  function CountsOf(events: seq<Event>): Option<Counts> {
    if Summary(events).Some? then Some(Summary(events).value.payload.counts) else None
  }

  function Earlier(a: Option<int>, b: Option<int>): Option<int> {
    if a.None? then b else if b.None? || a.value <= b.value then a else b
  }

  function Later(a: Option<int>, b: Option<int>): Option<int> {
    if a.None? then b else if b.None? || a.value >= b.value then a else b
  }

  function EarliestOf(times: seq<Option<int>>): (r: Option<int>)
    ensures r.None? <==> forall t | t in times :: t.None?
    ensures r.Some? ==> r in times && forall t | t in times && t.Some? :: r.value <= t.value
  {
    if times == [] then None
    else
      assert times == times[..|times| - 1] + [times[|times| - 1]];
      Earlier(EarliestOf(times[..|times| - 1]), times[|times| - 1])
  }

  function LatestOf(times: seq<Option<int>>): (r: Option<int>)
    ensures r.None? <==> forall t | t in times :: t.None?
    ensures r.Some? ==> r in times && forall t | t in times && t.Some? :: t.value <= r.value
  {
    if times == [] then None
    else
      assert times == times[..|times| - 1] + [times[|times| - 1]];
      Later(LatestOf(times[..|times| - 1]), times[|times| - 1])
  }

  function TimesOf(events: seq<Event>): (r: seq<Option<int>>)
    ensures |r| == |events| && forall k | 0 <= k < |r| :: r[k] == events[k].ts
  {
    seq(|events|, k requires 0 <= k < |events| => events[k].ts)
  }

  // ---------------------------------------------------------------- one more event

  lemma OneMore(events: seq<Event>, e: Event)
    ensures (events + [e])[..|events + [e]| - 1] == events && (events + [e])[|events + [e]| - 1] == e
  {
  }

  /** An event leaves every address it is not about as it was. */
  lemma OtherRecordsStay(events: seq<Event>, e: Event, a: string)
    requires First(events, a).Some? && !About(e, a)
    ensures First(events + [e], a).Some? && RecordOf(events + [e], a) == RecordOf(events, a)
  {
    OneMore(events, e);
  }

  lemma OtherAddressesStay(events: seq<Event>, e: Event)
    requires !Names(e)
    ensures AddressesOf(events + [e]) == AddressesOf(events) && ResourcesOf(events + [e]) == ResourcesOf(events)
  {
    OneMore(events, e);
    forall a | a in AddressesOf(events) ensures RecordOf(events + [e], a) == RecordOf(events, a) {
      OtherRecordsStay(events, e, a);
    }
  }

  /** A record that has just been made. */
  function Made(hook: Hook): Record {
    Record(hook.address, hook.inModule, hook.kind, hook.name, hook.action, IsIncomplete, None, None, None, None, None,
           None)
  }

  lemma LookupsMore(events: seq<Event>, e: Event, a: string, steps: set<HookKind>)
    ensures Latest(events + [e], a, steps) == if On(e, a, steps) then Some(e) else Latest(events, a, steps)
    ensures First(events + [e], a) == if First(events, a).None? && About(e, a) then Some(e) else First(events, a)
    ensures ActionOf(events + [e], a) ==
            if About(e, a) && (Truthy(e.payload.hook.action) || First(events, a).None?) then e.payload.hook.action
            else ActionOf(events, a)
  {
    OneMore(events, e);
  }

  /** What one hook event does to its own record. */
  lemma OwnRecordMoves(events: seq<Event>, step: HookKind, hook: Hook, ts: Option<int>)
    requires hook.address != ""
    ensures First(events + [Event(ts, Hooked(step, hook))], hook.address).Some?
    ensures var before := if First(events, hook.address).Some? then RecordOf(events, hook.address) else Made(hook);
            var record := if Truthy(hook.action) then before.(action := hook.action) else before;
            RecordOf(events + [Event(ts, Hooked(step, hook))], hook.address) ==
            match step {
              case Start => record.(startedAt := ts)
              case Progress => record.(lastProgress := hook.elapsed)
              case Complete => record.(status := IsComplete, finishedAt := ts, elapsed := hook.elapsed,
                                       idKey := hook.idKey, idValue := hook.idValue)
              case Errored => record.(status := IsErrored, finishedAt := ts, elapsed := hook.elapsed)
            }
  {
    var e, a := Event(ts, Hooked(step, hook)), hook.address;
    LookupsMore(events, e, a, OUTCOME);
    LookupsMore(events, e, a, {Start});
    LookupsMore(events, e, a, {Progress});
    LookupsMore(events, e, a, {Complete});
    if First(events, a).None? { NothingBefore(events, a); }
    hide Latest, First, ActionOf;
  }

  lemma NothingBefore(events: seq<Event>, a: string)
    requires First(events, a).None?
    ensures Latest(events, a, OUTCOME).None? && Latest(events, a, {Start}).None?
    ensures Latest(events, a, {Progress}).None? && Latest(events, a, {Complete}).None?
  {
  }

  /** Only the record of its address changes. */
  lemma OneRecordMoves(events: seq<Event>, e: Event)
    requires Names(e)
    ensures var a := e.payload.hook.address;
            && AddressesOf(events + [e]) == AddressesOf(events) + (if a in AddressesOf(events) then [] else [a])
            && First(events + [e], a).Some?
            && ResourcesOf(events + [e]) == ResourcesOf(events)[a := RecordOf(events + [e], a)]
  {
    OneMore(events, e);
    var a := e.payload.hook.address;
    forall b | b in AddressesOf(events) && b != a
      ensures First(events + [e], b).Some? && RecordOf(events + [e], b) == RecordOf(events, b) {
      OtherRecordsStay(events, e, b);
    }
    hide RecordOf;
  }

  // ---------------------------------------------------------------- what the fields hold

  predicate ResourcesAre(events: seq<Event>, order: seq<string>, resources: map<string, Record>) {
    order == AddressesOf(events) && resources == ResourcesOf(events)
  }

  predicate PlanIs(events: seq<Event>, order: seq<string>, planned: map<string, Option<string>>) {
    order == PlannedOrder(events) && planned == PlannedOf(events)
  }

  ghost predicate SummaryIs(events: seq<Event>, saw: bool, command: Option<string>, counts: Option<Counts>) {
    saw == Summary(events).Some? && command == CommandOf(events) && counts == CountsOf(events)
  }

  predicate WindowIs(events: seq<Event>, first: Option<int>, last: Option<int>) {
    first == EarliestOf(TimesOf(events)) && last == LatestOf(TimesOf(events))
  }

  /** An event changes only the part it speaks of. */
  lemma RestStays(events: seq<Event>, e: Event)
    ensures !e.payload.Hooked? ==> forall o, r :: ResourcesAre(events, o, r) ==> ResourcesAre(events + [e], o, r)
    ensures !e.payload.PlannedChange? ==> forall o, p :: PlanIs(events, o, p) ==> PlanIs(events + [e], o, p)
    ensures !e.payload.ChangeSummary? ==> forall s, c, n ::
                                            SummaryIs(events, s, c, n) ==> SummaryIs(events + [e], s, c, n)
  {
    SeenMore(events, e);
    if !e.payload.Hooked? { OtherAddressesStay(events, e); }
  }

  // ---------------------------------------------------------------- the operation

  /** `Operation.status`. */
  function StatusOf(exitCode: Option<int>, sawTerminalSummary: bool, resources: map<string, Record>): Status {
    if exitCode.None? then IncompleteRun
    else if exists a :: a in resources && resources[a].status == IsErrored then ErroredRun
    else if exitCode.value != 0 then ErroredRun
    else if !sawTerminalSummary then IncompleteRun
    else if exists a :: a in resources && resources[a].status != IsComplete then IncompleteRun
    else CompleteRun
  }

  /** One operation as the timeline holds it. */
  datatype Folded = Folded(command: Option<string>, reached: Option<string>, status: Status, exitCode: Option<int>,
                           startedAt: Option<int>, finishedAt: Option<int>, counts: Option<Counts>,
                           planned: Option<seq<(string, Option<string>)>>, resources: seq<Record>)

  /** What was captured of one invocation. */
  datatype Capture = Capture(invoked: Option<string>, exitCode: Option<int>, events: seq<Event>)

  function FoldedOf(c: Capture): Folded {
    var events := c.events;
    var order := PlannedOrder(events);
    Folded(if c.invoked.Some? then c.invoked else CommandOf(events), CommandOf(events),
           StatusOf(c.exitCode, Summary(events).Some?, ResourcesOf(events)), c.exitCode,
           EarliestOf(TimesOf(events)), LatestOf(TimesOf(events)), CountsOf(events),
           if order == [] then None else Some(PlanOf(events)), RecordsOf(events))
  }

  function PlanOf(events: seq<Event>): (r: seq<(string, Option<string>)>)
    ensures |r| == |PlannedOrder(events)|
    ensures forall k | 0 <= k < |r| ::
              var a := PlannedOrder(events)[k]; a in PlannedOf(events) && r[k] == (a, PlannedOf(events)[a])
  {
    var order := PlannedOrder(events);
    seq(|order|, k requires 0 <= k < |order| => assert order[k] in order; (order[k], PlannedOf(events)[order[k]]))
  }

  /** The records in the order their addresses were first met. */
  function RecordsOf(events: seq<Event>): (r: seq<Record>)
    ensures |r| == |AddressesOf(events)|
    ensures forall k | 0 <= k < |r| ::
              First(events, AddressesOf(events)[k]).Some? && r[k] == RecordOf(events, AddressesOf(events)[k])
  {
    var order := AddressesOf(events);
    assert forall k | 0 <= k < |order| :: order[k] in order;
    seq(|order|, k requires 0 <= k < |order| => RecordOf(events, order[k]))
  }

  class Operation {
    var exitCode: Option<int>
    var invoked: Option<string>
    var command: Option<string>
    var counts: Option<Counts>
    var sawTerminalSummary: bool
    var resources: map<string, Record>
    var orderSeen: seq<string>
    var planned: map<string, Option<string>>
    var plannedOrder: seq<string>
    var unparsedLines: nat
    var firstTs: Option<int>
    var lastTs: Option<int>

    ghost var seen: seq<Event>

    /** The fields are what the events consumed so far say. */
    ghost predicate Valid() reads this {
      && ResourcesAre(seen, orderSeen, resources) && PlanIs(seen, plannedOrder, planned)
      && SummaryIs(seen, sawTerminalSummary, command, counts) && WindowIs(seen, firstTs, lastTs)
    }

    constructor ()
      ensures Valid() && seen == [] && exitCode.None? && invoked.None? && unparsedLines == 0
    {
      exitCode, invoked, command, counts := None, None, None, None;
      sawTerminalSummary, unparsedLines := false, 0;
      resources, orderSeen, planned, plannedOrder := map[], [], map[], [];
      firstTs, lastTs := None, None;
      seen := [];
    }

    /** `consume_hook`: the record of the address, made if it is new, updated in place. */
    method ConsumeHook(step: HookKind, hook: Hook, ts: Option<int>)
      requires ResourcesAre(seen, orderSeen, resources)
      modifies this`resources, this`orderSeen
      ensures ResourcesAre(seen + [Event(ts, Hooked(step, hook))], orderSeen, resources)
    {
      ghost var e := Event(ts, Hooked(step, hook));
      if hook.address == "" {
        OtherAddressesStay(seen, e);
        return;
      }
      OwnRecordMoves(seen, step, hook, ts);
      OneRecordMoves(seen, e);
      hide RecordOf, AddressesOf, Latest, First, ActionOf;
      var record;
      if hook.address in resources {
        record := resources[hook.address];
      } else {
        record := Record(hook.address, hook.inModule, hook.kind, hook.name, hook.action, IsIncomplete, None, None,
                         None, None, None, None);
        orderSeen := orderSeen + [hook.address];
      }
      if Truthy(hook.action) { record := record.(action := hook.action); }
      match step {
        case Start => record := record.(startedAt := ts);
        case Progress => record := record.(lastProgress := hook.elapsed);
        case Complete => record := record.(status := IsComplete, finishedAt := ts, elapsed := hook.elapsed,
                                           idKey := hook.idKey, idValue := hook.idValue);
        case Errored => record := record.(status := IsErrored, finishedAt := ts, elapsed := hook.elapsed);
      }
      resources := resources[hook.address := record];
    }

    method Stretch(event: Event)
      requires WindowIs(seen, firstTs, lastTs)
      modifies this`firstTs, this`lastTs
      ensures WindowIs(seen + [event], firstTs, lastTs)
    {
      SeenMore(seen, event);
      var ts := event.ts;
      if ts.Some? {
        if firstTs.None? || ts.value < firstTs.value { firstTs := ts; }
        if lastTs.None? || ts.value > lastTs.value { lastTs := ts; }
      }
    }

    method Summarise(event: Event)
      requires event.payload.ChangeSummary? && SummaryIs(seen, sawTerminalSummary, command, counts)
      modifies this`sawTerminalSummary, this`command, this`counts
      ensures SummaryIs(seen + [event], sawTerminalSummary, command, counts)
    {
      SeenMore(seen, event);
      var operation := event.payload.operation;
      if operation in {"apply", "destroy"} {
        sawTerminalSummary, command, counts := true, Some(operation), Some(event.payload.counts);
      } else if operation == "plan" && command.None? {
        command := Some("plan");
      }
    }

    method Plan(event: Event)
      requires event.payload.PlannedChange? && PlanIs(seen, plannedOrder, planned)
      modifies this`planned, this`plannedOrder
      ensures PlanIs(seen + [event], plannedOrder, planned)
    {
      SeenMore(seen, event);
      var address := event.payload.address;
      if address != "" {
        if address !in planned { plannedOrder := plannedOrder + [address]; }
        planned := planned[address := event.payload.planned];
      }
    }

    /** `consume`. */
    method Consume(event: Event)
      requires Valid()
      modifies this
      ensures Valid() && seen == old(seen) + [event]
      ensures exitCode == old(exitCode) && invoked == old(invoked) && unparsedLines == old(unparsedLines)
    {
      RestStays(seen, event);
      hide ResourcesAre, PlanIs, SummaryIs, WindowIs;
      Stretch(event);
      match event.payload {
        case ChangeSummary(_, _) => Summarise(event);
        case PlannedChange(_, _) => Plan(event);
        case Hooked(step, hook) => ConsumeHook(step, hook, event.ts);
        case Other =>
      }
      seen := seen + [event];
    }

    /** `read`: whatever is on the stream, only its parsed lines are folded. */
    method Read(argv: Option<string>, rc: Option<int>, lines: seq<Line>)
      requires Valid() && seen == [] && unparsedLines == 0
      modifies this
      ensures Valid() && seen == EventsOn(lines) && unparsedLines == UnparsedOn(lines)
      ensures invoked == argv && exitCode == rc
    {
      invoked, exitCode := argv, rc;
      for i := 0 to |lines|
        invariant Valid() && seen == EventsOn(lines[..i]) && unparsedLines == UnparsedOn(lines[..i])
        invariant invoked == argv && exitCode == rc
      {
        assert lines[..i + 1][..i] == lines[..i];
        match lines[i] {
          case Blank =>
          case Unparsed => unparsedLines := unparsedLines + 1;
          case Parsed(event) => Consume(event);
        }
      }
      assert lines[..|lines|] == lines;
    }

    /** `to_json`. */
    method ToJson() returns (folded: Folded)
      requires Valid()
      ensures folded == FoldedOf(Capture(invoked, exitCode, seen))
    {
      assert forall k | 0 <= k < |orderSeen| :: orderSeen[k] in orderSeen;
      assert forall k | 0 <= k < |plannedOrder| :: plannedOrder[k] in plannedOrder;
      var records := seq(|orderSeen|, k requires 0 <= k < |orderSeen| && orderSeen[k] in resources reads this =>
                           resources[orderSeen[k]]);
      var plan := seq(|plannedOrder|, k requires 0 <= k < |plannedOrder| && plannedOrder[k] in planned reads this =>
                        (plannedOrder[k], planned[plannedOrder[k]]));
      assert records == RecordsOf(seen);
      assert plan == PlanOf(seen);
      folded := Folded(if invoked.Some? then invoked else command, command,
                       StatusOf(exitCode, sawTerminalSummary, resources),
                       exitCode, firstTs, lastTs, counts, if plannedOrder == [] then None else Some(plan), records);
    }
  }

  function EventsOn(lines: seq<Line>): seq<Event> {
    if lines == [] then []
    else
      var before, last := EventsOn(lines[..|lines| - 1]), lines[|lines| - 1];
      if last.Parsed? then before + [last.event] else before
  }

  function UnparsedOn(lines: seq<Line>): nat {
    if lines == [] then 0 else UnparsedOn(lines[..|lines| - 1]) + if lines[|lines| - 1].Unparsed? then 1 else 0
  }

  /** What one more event does to the plan, the summary and the window. */
  lemma SeenMore(events: seq<Event>, e: Event)
    ensures PlannedOf(events + [e]) == if Plans(e) then PlannedOf(events)[e.payload.address := e.payload.planned]
                                       else PlannedOf(events)
    ensures PlannedOrder(events + [e]) ==
            PlannedOrder(events) + if Plans(e) && e.payload.address !in PlannedOrder(events) then [e.payload.address]
                                   else []
    ensures Summary(events + [e]) == if Terminal(e) then Some(e) else Summary(events)
    ensures CommandOf(events + [e]) ==
            if Terminal(e) then Some(e.payload.operation)
            else if CommandOf(events).None? && e.payload.ChangeSummary? && e.payload.operation == "plan" then Some("plan")
            else CommandOf(events)
    ensures CountsOf(events + [e]) == if Terminal(e) then Some(e.payload.counts) else CountsOf(events)
    ensures EarliestOf(TimesOf(events + [e])) == Earlier(EarliestOf(TimesOf(events)), e.ts)
    ensures LatestOf(TimesOf(events + [e])) == Later(LatestOf(TimesOf(events)), e.ts)
  {
    OneMore(events, e);
    assert TimesOf(events + [e]) == TimesOf(events) + [e.ts];
    var times := TimesOf(events + [e]);
    assert times[..|times| - 1] == TimesOf(events);
    assert e in events + [e];
    assert forall x :: x in events + [e] <==> x in events || x == e;
  }

  // ---------------------------------------------------------------- the verdict

  function Verdict(exitCode: Option<int>, events: seq<Event>): Status {
    StatusOf(exitCode, Summary(events).Some?, ResourcesOf(events))
  }

  /** The last completed-or-errored event on this address is a completion. */
  predicate EndsCompleted(events: seq<Event>, address: string) {
    exists k :: 0 <= k < |events| && On(events[k], address, {Complete})
             && forall j | k < j < |events| :: !On(events[j], address, OUTCOME)
  }

  lemma RecordIsComplete(events: seq<Event>, a: string)
    requires First(events, a).Some?
    ensures RecordOf(events, a).status == IsComplete <==> EndsCompleted(events, a)
  {
    var outcome := Latest(events, a, OUTCOME);
    if outcome.Some? {
      var k := LatestIsLast(events, a, OUTCOME);
      if EndsCompleted(events, a) {
        var j :| 0 <= j < |events| && On(events[j], a, {Complete}) && forall i | j < i < |events| ::
                                                            !On(events[i], a, OUTCOME);
        assert On(events[j], a, OUTCOME) && On(events[k], a, OUTCOME);
        assert j == k;
      }
    } else {
      assert forall k | 0 <= k < |events| :: events[k] in events;
      assert forall e :: On(e, a, {Complete}) ==> On(e, a, OUTCOME);
    }
  }

  /** The process returned zero, an apply or destroy summary was seen, and every address any hook
      named ends completed. */
  predicate RanToTheEnd(exitCode: Option<int>, events: seq<Event>) {
    && exitCode == Some(0)
    && (exists k :: 0 <= k < |events| && Terminal(events[k]))
    && (forall k | 0 <= k < |events| && Names(events[k]) :: EndsCompleted(events, events[k].payload.hook.address))
  }

  /** That, and nothing less, is what folds to `complete`. */
  lemma CompleteExactly(exitCode: Option<int>, events: seq<Event>)
    ensures Verdict(exitCode, events) == CompleteRun <==> RanToTheEnd(exitCode, events)
  {
    var resources := ResourcesOf(events);
    assert Summary(events).Some? <==> exists k :: 0 <= k < |events| && Terminal(events[k]);
    forall a
      ensures a in resources <==> exists k ::
                                    0 <= k < |events| && Names(events[k]) && events[k].payload.hook.address == a {
      assert a in resources <==> First(events, a).Some?;
      assert forall k | 0 <= k < |events| :: events[k] in events;
    }
    forall a | a in resources ensures resources[a].status == IsComplete <==> EndsCompleted(events, a) {
      RecordIsComplete(events, a);
    }
  }

  /** A stream cut anywhere before its summary is not complete, whatever its exit code; and with no
      exit code nothing is. */
  lemma CutShortIsNotComplete(exitCode: Option<int>, events: seq<Event>, cut: nat)
    requires cut <= |events| && (exitCode.None? || forall k | 0 <= k < cut :: !Terminal(events[k]))
    ensures Verdict(exitCode, events[..cut]) != CompleteRun
    ensures exitCode.None? ==> Verdict(exitCode, events[..cut]) == IncompleteRun
  {
    CompleteExactly(exitCode, events[..cut]);
  }

  /** The last start was followed by a completion, and nothing ended it since. */
  predicate LastStartWasAnswered(events: seq<Event>, address: string) {
    exists k :: 0 <= k < |events| && On(events[k], address, {Complete})
             && forall j | k < j < |events| :: !On(events[j], address, {Start, Complete, Errored})
  }

  predicate RestartedAfterCompleting(events: seq<Event>, address: string) {
    exists j, k :: 0 <= j < k < |events| && On(events[j], address, {Complete}) && On(events[k], address, {Start})
             && forall i | j < i < |events| :: !On(events[i], address, OUTCOME)
  }

  lemma AnsweredIsNotRestarted(events: seq<Event>, a: string)
    requires LastStartWasAnswered(events, a)
    ensures EndsCompleted(events, a) && !RestartedAfterCompleting(events, a)
  {
    assert forall e :: On(e, a, {Start, Complete, Errored}) <==> On(e, a, OUTCOME) || On(e, a, {Start});
    assert forall e :: On(e, a, {Complete}) ==> On(e, a, OUTCOME);
  }

  /** "Complete only if its start was answered" is what the record says, except for an address that
      was started again after it had completed: the second start does not reopen the record. */
  lemma CompleteMeansAnswered(events: seq<Event>, a: string)
    requires First(events, a).Some?
    ensures (RecordOf(events, a).status == IsComplete <==> LastStartWasAnswered(events, a)) <==>
            !RestartedAfterCompleting(events, a)
  {
    RecordIsComplete(events, a);
    assert forall e :: On(e, a, {Start, Complete, Errored}) <==> On(e, a, OUTCOME) || On(e, a, {Start});
    if LastStartWasAnswered(events, a) {
      AnsweredIsNotRestarted(events, a);
    } else if EndsCompleted(events, a) {
      var k :| 0 <= k < |events| && On(events[k], a, {Complete}) && forall j | k < j < |events| ::
                                                            !On(events[j], a, OUTCOME);
      var j :| k < j < |events| && On(events[j], a, {Start, Complete, Errored});
      assert On(events[j], a, {Start});
      assert RestartedAfterCompleting(events, a);
    } else if RestartedAfterCompleting(events, a) {
      assert EndsCompleted(events, a);
    }
  }

  // ---------------------------------------------------------------- the timeline

  datatype Timeline = Timeline(environment: Option<string>, status: Status, startedAt: Option<int>,
                               finishedAt: Option<int>,
                               created: nat, destroyed: nat, operations: seq<Folded>)

  /** `timeline_status`. */
  function TimelineStatus(statuses: seq<Status>): Status {
    if statuses == [] || IncompleteRun in statuses then IncompleteRun
    else if ErroredRun in statuses then ErroredRun
    else CompleteRun
  }

  function StatusesOf(operations: seq<Folded>): seq<Status> {
    seq(|operations|, k requires 0 <= k < |operations| => operations[k].status)
  }

  function StartsOf(operations: seq<Folded>): seq<Option<int>> {
    seq(|operations|, k requires 0 <= k < |operations| => operations[k].startedAt)
  }

  function EndsOf(operations: seq<Folded>): seq<Option<int>> {
    seq(|operations|, k requires 0 <= k < |operations| => operations[k].finishedAt)
  }

  /** How many completed records have an action of these. */
  function CompletedBy(records: seq<Record>, actions: set<string>): nat {
    if records == [] then 0
    else
      var last := records[|records| - 1];
      CompletedBy(records[..|records| - 1], actions)
      + if last.status == IsComplete && last.action.Some? && last.action.value in actions then 1 else 0
  }

  function AllCompletedBy(operations: seq<Folded>, actions: set<string>): nat {
    if operations == [] then 0
    else AllCompletedBy(operations[..|operations| - 1], actions) + CompletedBy(operations[|operations| - 1].resources, actions)
  }

  const CREATES := {"create", "replace"}
  const DELETES := {"delete"}

  /** `build`. */
  method Build(environment: Option<string>, operations: seq<Folded>) returns (timeline: Timeline)
    ensures timeline == TimelineOf(environment, operations)
  {
    var created, destroyed := 0, 0;
    for i := 0 to |operations|
      invariant created == AllCompletedBy(operations[..i], CREATES)
      invariant destroyed == AllCompletedBy(operations[..i], DELETES)
    {
      var records := operations[i].resources;
      assert operations[..i + 1][..i] == operations[..i];
      ghost var c, d := created, destroyed;
      for j := 0 to |records|
        invariant created == c + CompletedBy(records[..j], CREATES)
        invariant destroyed == d + CompletedBy(records[..j], DELETES)
      {
        assert records[..j + 1][..j] == records[..j];
        if records[j].status == IsComplete {
          if records[j].action in {Some("create"), Some("replace")} {
            created := created + 1;
          } else if records[j].action == Some("delete") {
            destroyed := destroyed + 1;
          }
        }
      }
      assert records[..|records|] == records;
    }
    assert operations[..|operations|] == operations;
    timeline := Timeline(environment, TimelineStatus(StatusesOf(operations)), EarliestOf(StartsOf(operations)),
                         LatestOf(EndsOf(operations)),
                         created, destroyed, operations);
  }

  function TimelineOf(environment: Option<string>, operations: seq<Folded>): Timeline {
    Timeline(environment, TimelineStatus(StatusesOf(operations)), EarliestOf(StartsOf(operations)),
             LatestOf(EndsOf(operations)),
             AllCompletedBy(operations, CREATES), AllCompletedBy(operations, DELETES), operations)
  }

  function FoldAll(captures: seq<Capture>): (r: seq<Folded>)
    ensures |r| == |captures| && forall k | 0 <= k < |r| :: r[k] == FoldedOf(captures[k])
  {
    seq(|captures|, k requires 0 <= k < |captures| => FoldedOf(captures[k]))
  }

  /** A timeline is complete when it has operations and every one of them ran to its end. */
  lemma TimelineCompleteExactly(environment: Option<string>, captures: seq<Capture>)
    ensures TimelineOf(environment, FoldAll(captures)).status == CompleteRun <==>
            captures != [] && forall c | c in captures :: RanToTheEnd(c.exitCode, c.events)
  {
    hide FoldedOf, RanToTheEnd, TimelineStatus;
    var folds := FoldAll(captures);
    var statuses := StatusesOf(folds);
    StatusIsTheWorst(statuses);
    forall k | 0 <= k < |captures|
      ensures statuses[k] == CompleteRun <==> RanToTheEnd(captures[k].exitCode, captures[k].events) {
      FoldIsComplete(captures[k]);
    }
    assert forall c :: c in captures <==> exists k :: 0 <= k < |captures| && captures[k] == c;
    assert TimelineOf(environment, folds).status == TimelineStatus(statuses);
  }

  lemma StatusIsTheWorst(statuses: seq<Status>)
    ensures TimelineStatus(statuses) == CompleteRun <==> |statuses| > 0 && forall k | 0 <= k < |statuses| ::
                                                            statuses[k] == CompleteRun
  {
  }

  lemma FoldIsComplete(c: Capture)
    ensures FoldedOf(c).status == CompleteRun <==> RanToTheEnd(c.exitCode, c.events)
  {
    CompleteExactly(c.exitCode, c.events);
    hide ResourcesOf, RanToTheEnd, StatusOf;
  }

  /** The operations are folds of captured streams. */
  ghost predicate IsFold(t: Timeline) {
    t == TimelineOf(t.environment, t.operations) && forall k | 0 <= k < |t.operations| ::
                                                      exists c :: t.operations[k] == FoldedOf(c)
  }

  predicate Within(t: Option<int>, first: Option<int>, last: Option<int>) {
    t.Some? ==> first.Some? && last.Some? && first.value <= t.value <= last.value
  }

  lemma EventIsWithin(events: seq<Event>, e: Option<Event>)
    requires e.Some? ==> e.value in events
    ensures Within(TimeOf(e), EarliestOf(TimesOf(events)), LatestOf(TimesOf(events)))
  {
    if e.Some? {
      var k :| 0 <= k < |events| && events[k] == e.value;
      assert TimesOf(events)[k] in TimesOf(events);
    }
  }

  /** The window of an operation encloses the times of its records. */
  lemma OperationEncloses(c: Capture, k: nat)
    requires k < |FoldedOf(c).resources|
    ensures var f := FoldedOf(c); var r := f.resources[k];
            Within(r.startedAt, f.startedAt, f.finishedAt) && Within(r.finishedAt, f.startedAt, f.finishedAt)
  {
    var a := AddressesOf(c.events)[k];
    var start, outcome := Latest(c.events, a, {Start}), Latest(c.events, a, OUTCOME);
    if start.Some? { var i := LatestIsLast(c.events, a, {Start}); }
    if outcome.Some? { var i := LatestIsLast(c.events, a, OUTCOME); }
    EventIsWithin(c.events, start);
    EventIsWithin(c.events, outcome);
  }

  /** The window of a folded timeline encloses the times of every record in it. */
  lemma TimelineEncloses(t: Timeline, j: nat, k: nat)
    requires IsFold(t) && j < |t.operations| && k < |t.operations[j].resources|
    ensures var r := t.operations[j].resources[k];
            Within(r.startedAt, t.startedAt, t.finishedAt) && Within(r.finishedAt, t.startedAt, t.finishedAt)
  {
    var c :| t.operations[j] == FoldedOf(c);
    OperationEncloses(c, k);
    assert StartsOf(t.operations)[j] in StartsOf(t.operations);
    assert EndsOf(t.operations)[j] in EndsOf(t.operations);
  }
}
