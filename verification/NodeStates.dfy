/** The join of a folded timeline with the map of the estate: every record in one bucket, every node's state, every
    phase's span. */
module NodeStates {
  import opened Options
  import opened FoldTimeline
  import FoldCost

  // ---------------------------------------------------------------- addresses

  /** Where the first closing bracket is, or the length. */
  function Closing(s: string): (i: nat)
    ensures i <= |s| && ']' !in s[..i] && (i < |s| ==> s[i] == ']')
  {
    if s == "" || s[0] == ']' then 0
    else
      var i := Closing(s[1..]);
      assert s[..i + 1] == [s[0]] + s[1..][..i];
      i + 1
  }

  /** `base_address`: every index, `[` to the first `]` after it, taken out. */
  function BaseAddress(s: string): string
    decreases |s|
  {
    if s == "" then ""
    else if s[0] == '[' && Closing(s[1..]) < |s| - 1 then BaseAddress(s[Closing(s[1..]) + 2..])
    else [s[0]] + BaseAddress(s[1..])
  }

  lemma {:induction false} NoBracketAppears(s: string)
    requires ']' !in s
    ensures BaseAddress(s) == s
    decreases |s|
  {
    if s == "" {
    } else {
      var i := Closing(s[1..]);
      assert forall k | 0 <= k < |s| :: s[k] in s;
      assert s == [s[0]] + s[1..];
      NoBracketAppears(s[1..]);
    }
  }

  /** No index is left: stripping again takes nothing. */
  lemma {:induction false} StrippingIsIdempotent(s: string)
    ensures BaseAddress(BaseAddress(s)) == BaseAddress(s)
    decreases |s|
  {
    if s == "" {
    } else {
      if s[0] == '[' && Closing(s[1..]) < |s| - 1 {
        StrippingIsIdempotent(s[Closing(s[1..]) + 2..]);
      } else {
        StrippingIsIdempotent(s[1..]);
        var rest := BaseAddress(s[1..]);
        if s[0] == '[' {
          assert s[1..][..Closing(s[1..])] == s[1..];
          NoBracketAppears(s[1..]);
        }
        assert ([s[0]] + rest)[1..] == rest;
      }
    }
  }

  // ---------------------------------------------------------------- the map

  datatype EstateNode = EstateNode(id: string, env: string, members: seq<string>)
  datatype CycleNode = CycleNode(id: string, env: string, service: string)
  datatype Touch = Touch(verb: string, node: string)
  datatype Phase = Phase(id: string, nodes: seq<CycleNode>, touches: seq<Touch>)
  datatype Topology = Topology(estate: seq<EstateNode>, phases: seq<Phase>, hidden: seq<seq<string>>)

  /** A dictionary filled in this order: the last word on a key stands. */
  function Filled(pairs: seq<(string, string)>): map<string, string> {
    if pairs == [] then map[] else Filled(pairs[..|pairs| - 1])[pairs[|pairs| - 1].0 := pairs[|pairs| - 1].1]
  }

  function MemberPairs(members: seq<string>, id: string): (r: seq<(string, string)>)
    ensures |r| == |members|
  {
    seq(|members|, k requires 0 <= k < |members| => (BaseAddress(members[k]), id))
  }

  function EstatePairs(nodes: seq<EstateNode>, environment: string): seq<(string, string)> {
    if nodes == [] then []
    else
      var last := nodes[|nodes| - 1];
      EstatePairs(nodes[..|nodes| - 1], environment) + if last.env == environment then MemberPairs(last.members, last.id)
                                                       else []
  }

  lemma OneMorePair(pairs: seq<(string, string)>, p: (string, string))
    ensures Filled(pairs + [p]) == Filled(pairs)[p.0 := p.1]
  {
    assert (pairs + [p])[..|pairs|] == pairs;
  }

  /** `index_members`, over the nodes of one environment. */
  method IndexMembers(topology: Topology, environment: string) returns (index: map<string, string>)
    ensures index == Filled(EstatePairs(topology.estate, environment))
  {
    hide BaseAddress, Filled;
    index := map[];
    var nodes := topology.estate;
    assert Filled([]) == map[] by { NothingFilled(); }
    assert nodes[..0] == [];
    for i := 0 to |nodes|
      invariant index == Filled(EstatePairs(nodes[..i], environment))
    {
      assert nodes[..i + 1][..i] == nodes[..i];
      if nodes[i].env != environment {
        assert EstatePairs(nodes[..i + 1], environment) == EstatePairs(nodes[..i], environment);
        continue;
      }
      ghost var before, pairs := EstatePairs(nodes[..i], environment), MemberPairs(nodes[i].members, nodes[i].id);
      assert before + pairs[..0] == before;
      for j := 0 to |nodes[i].members|
        invariant index == Filled(before + pairs[..j])
      {
        OneMorePair(before + pairs[..j], pairs[j]);
        assert before + pairs[..j] + [pairs[j]] == before + pairs[..j + 1];
        index := index[BaseAddress(nodes[i].members[j]) := nodes[i].id];
      }
      assert pairs[..|pairs|] == pairs;
    }
    assert nodes[..|nodes|] == nodes;
  }

  lemma NothingFilled() ensures Filled([]) == map[] {}

  /** `index_hidden`'s keys. */
  function HiddenIn(groups: seq<seq<string>>): set<string> {
    set g, m | 0 <= g < |groups| && 0 <= m < |groups[g]| :: BaseAddress(groups[g][m])
  }

  function NodePhases(nodes: seq<CycleNode>, environment: string, phase: string): seq<(string, string)> {
    if nodes == [] then []
    else
      var last := nodes[|nodes| - 1];
      NodePhases(nodes[..|nodes| - 1], environment, phase) + if last.env == environment then [(last.id, phase)] else []
  }

  function TouchPhases(touches: seq<Touch>, owned: set<string>, phase: string): seq<(string, string)> {
    if touches == [] then []
    else
      var last := touches[|touches| - 1];
      var drawn := last.verb == "creates" && last.node in owned;
      TouchPhases(touches[..|touches| - 1], owned, phase) + if drawn then [(last.node, phase)] else []
  }

  function AllNodePhases(phases: seq<Phase>, environment: string): seq<(string, string)> {
    if phases == [] then []
    else
      var last := phases[|phases| - 1];
      AllNodePhases(phases[..|phases| - 1], environment) + NodePhases(last.nodes, environment, last.id)
  }

  function AllTouchPhases(phases: seq<Phase>, owned: set<string>): seq<(string, string)> {
    if phases == [] then []
    else AllTouchPhases(phases[..|phases| - 1], owned) + TouchPhases(phases[|phases| - 1].touches, owned, phases[|phases| - 1].id)
  }

  /** `phase_of`: the phase that draws a node; a node of the estate is drawn where it is created. */
  function PhaseOf(topology: Topology, environment: string): map<string, string> {
    var owned := set k | 0 <= k < |topology.estate| && topology.estate[k].env == environment :: topology.estate[k].id;
    Filled(AllNodePhases(topology.phases, environment) + AllTouchPhases(topology.phases, owned))
  }

  /** `destroy_node`: the first teardown node of the environment. */
  function FirstDestroy(nodes: seq<CycleNode>, environment: string): Option<string> {
    if nodes == [] then None
    else if nodes[0].service == "destroy" && nodes[0].env == environment then Some(nodes[0].id)
    else FirstDestroy(nodes[1..], environment)
  }

  function DestroyNode(phases: seq<Phase>, environment: string): Option<string> {
    if phases == [] then None
    else
      var here := FirstDestroy(phases[0].nodes, environment);
      if here.Some? then here else DestroyNode(phases[1..], environment)
  }

  // ---------------------------------------------------------------- classification

  /** What the records and plans are held against. */
  datatype Index = Index(members: map<string, string>, hidden: set<string>, teardown: Option<string>)

  datatype Bucket = Matched(node: string) | NotShown | Read | Unknown

  /** The node an action on this address belongs to: a delete is the teardown's. */
  function NodeFor(index: Index, action: Option<string>, base: string): Option<string> {
    if action == Some("delete") then index.teardown
    else if base in index.members then Some(index.members[base]) else None
  }

  /** The one bucket of a record. */
  function BucketOf(index: Index, r: Record): Bucket {
    var base := BaseAddress(r.address);
    var node := NodeFor(index, r.action, base);
    if r.action == Some("read") then Read
    else if Truthy(node) then Matched(node.value)
    else if base in index.hidden then NotShown
    else Unknown
  }

  function InBucket(records: seq<Record>, index: Index, bucket: Bucket): seq<Record> {
    if records == [] then []
    else
      var last := records[|records| - 1];
      InBucket(records[..|records| - 1], index, bucket) + if BucketOf(index, last) == bucket then [last] else []
  }

  function MatchedIn(records: seq<Record>, index: Index): nat {
    if records == [] then 0
    else MatchedIn(records[..|records| - 1], index) + if BucketOf(index, records[|records| - 1]).Matched? then 1 else 0
  }

  function AddressesIn(records: seq<Record>): seq<string> {
    seq(|records|, k requires 0 <= k < |records| => records[k].address)
  }

  ghost predicate CollectedIs(collected: map<string, seq<Record>>, records: seq<Record>, index: Index) {
    forall id ::
      && (id in collected <==> InBucket(records, index, Matched(id)) != [])
      && (id in collected ==> collected[id] == InBucket(records, index, Matched(id)))
  }

  lemma OneMoreRecord(records: seq<Record>, r: Record, index: Index, bucket: Bucket)
    ensures InBucket(records + [r], index, bucket) == InBucket(records, index, bucket) + if BucketOf(index, r) == bucket then [r]
                                                                                         else []
    ensures MatchedIn(records + [r], index) == MatchedIn(records, index) + if BucketOf(index, r).Matched? then 1 else 0
  {
    assert (records + [r])[..|records|] == records;
  }

  lemma CollectedMore(collected: map<string, seq<Record>>, records: seq<Record>, r: Record, index: Index)
    requires CollectedIs(collected, records, index)
    ensures !BucketOf(index, r).Matched? ==> CollectedIs(collected, records + [r], index)
    ensures BucketOf(index, r).Matched? ==>
              var id := BucketOf(index, r).node;
              CollectedIs(collected[id := (if id in collected then collected[id] else []) + [r]], records + [r], index)
  {
    hide BucketOf, InBucket;
    forall id
      ensures InBucket(records + [r], index, Matched(id)) ==
              InBucket(records, index, Matched(id)) + if BucketOf(index, r) == Matched(id) then [r] else []
    {
      OneMoreRecord(records, r, index, Matched(id));
    }
  }

  datatype Sorted = Sorted(collected: map<string, seq<Record>>, matched: nat, notShown: seq<string>,
                           dataSources: seq<string>, unknown: seq<string>)

  /** The classifying loop of `join`: each list holds its bucket's records, in order. */
  method Classify(records: seq<Record>, index: Index) returns (s: Sorted)
    ensures CollectedIs(s.collected, records, index) && s.matched == MatchedIn(records, index)
    ensures s.notShown == AddressesIn(InBucket(records, index, NotShown))
    ensures s.dataSources == AddressesIn(InBucket(records, index, Read))
    ensures s.unknown == AddressesIn(InBucket(records, index, Unknown))
  {
    hide InBucket, MatchedIn, BaseAddress, CollectedIs;
    var collected: map<string, seq<Record>>, matched, notShown, dataSources, unknown := map[], 0, [], [], [];
    NothingYet(index);
    assert records[..0] == [];
    for i := 0 to |records|
      invariant CollectedIs(collected, records[..i], index) && matched == MatchedIn(records[..i], index)
      invariant notShown == AddressesIn(InBucket(records[..i], index, NotShown))
      invariant dataSources == AddressesIn(InBucket(records[..i], index, Read))
      invariant unknown == AddressesIn(InBucket(records[..i], index, Unknown))
    {
      var r := records[i];
      var base := BaseAddress(r.address);
      assert records[..i + 1] == records[..i] + [r];
      CollectedMore(collected, records[..i], r, index);
      OneMoreRecord(records[..i], r, index, NotShown);
      OneMoreRecord(records[..i], r, index, Read);
      OneMoreRecord(records[..i], r, index, Unknown);
      if r.action == Some("read") {
        dataSources := dataSources + [r.address];
        continue;
      }
      var node := if r.action == Some("delete") then index.teardown
                  else if base in index.members then Some(index.members[base]) else None;
      if Truthy(node) {
        collected := collected[node.value := (if node.value in collected then collected[node.value] else []) + [r]];
        matched := matched + 1;
        continue;
      }
      if base in index.hidden {
        notShown := notShown + [r.address];
        continue;
      }
      unknown := unknown + [r.address];
    }
    assert records[..|records|] == records;
    s := Sorted(collected, matched, notShown, dataSources, unknown);
  }

  lemma NothingYet(index: Index)
    ensures CollectedIs(map[], [], index) && MatchedIn([], index) == 0
    ensures InBucket([], index, NotShown) == [] && InBucket([], index, Read) == [] && InBucket([], index, Unknown) == []
  {
  }

  /** Exactly one bucket each: the four totals sum to the input. */
  lemma {:induction false} BucketsSumToTheInput(records: seq<Record>, index: Index)
    ensures MatchedIn(records, index) + |InBucket(records, index, NotShown)| + |InBucket(records, index, Read)|
            + |InBucket(records, index, Unknown)| == |records|
  {
    if records == [] {
    } else {
      BucketsSumToTheInput(records[..|records| - 1], index);
    }
  }

  // ---------------------------------------------------------------- plans

  datatype Planned = Planned(address: string, action: Option<string>)

  /** A planned instance that counts towards this node. */
  predicate CountsFor(index: Index, p: Planned, id: string) {
    p.action != Some("read") && id != "" && NodeFor(index, p.action, BaseAddress(p.address)) == Some(id)
  }

  function PlannedFor(plans: seq<Planned>, index: Index, id: string): nat {
    if plans == [] then 0
    else PlannedFor(plans[..|plans| - 1], index, id) + if CountsFor(index, plans[|plans| - 1], id) then 1 else 0
  }

  ghost predicate CountsAre(counts: map<string, nat>, plans: seq<Planned>, index: Index) {
    forall id :: PlannedFor(plans, index, id) == if id in counts then counts[id] else 0
  }

  /** The planned counts: none at all when the stream carried no plan, which is not a count of nothing. */
  method CountPlans(plans: seq<Planned>, index: Index) returns (counts: Option<map<string, nat>>)
    ensures counts.None? <==> plans == []
    ensures counts.Some? ==> CountsAre(counts.value, plans, index)
  {
    hide PlannedFor, BaseAddress;
    counts := None;
    for i := 0 to |plans|
      invariant counts.None? <==> i == 0
      invariant counts.Some? ==> CountsAre(counts.value, plans[..i], index)
    {
      if counts.None? {
        NoPlans(index);
        assert plans[..i] == [];
        counts := Some(map[]);
      }
      var p := plans[i];
      assert plans[..i + 1] == plans[..i] + [p];
      OneMorePlan(plans[..i], p, index);
      if p.action == Some("read") { continue; }
      var node := NodeFor(index, p.action, BaseAddress(p.address));
      if !Truthy(node) { continue; }
      counts := Some(counts.value[node.value := (if node.value in counts.value then counts.value[node.value] else 0) + 1]);
    }
    assert plans[..|plans|] == plans;
  }

  lemma NoPlans(index: Index)
    ensures CountsAre(map[], [], index)
  {
  }

  lemma OneMorePlan(plans: seq<Planned>, p: Planned, index: Index)
    ensures forall id ::
              PlannedFor(plans + [p], index, id) == PlannedFor(plans, index, id) + if CountsFor(index, p, id) then 1
                                                                                              else 0
  {
    assert (plans + [p])[..|plans|] == plans;
  }

  // ---------------------------------------------------------------- one node

  datatype NodeState = NodeState(measured: bool, duration: Option<int>, identifier: Option<string>,
                                 identifierFrom: Option<string>,
                                 observed: nat, complete: nat, planned: Option<nat>)

  function Starts(records: seq<Record>): seq<Option<int>> {
    seq(|records|, k requires 0 <= k < |records| => records[k].startedAt)
  }

  function Ends(records: seq<Record>): seq<Option<int>> {
    seq(|records|, k requires 0 <= k < |records| => records[k].finishedAt)
  }

  function CompleteIn(records: seq<Record>): nat {
    if records == [] then 0
    else CompleteIn(records[..|records| - 1]) + if records[|records| - 1].status == IsComplete then 1 else 0
  }

  lemma {:induction false} AllCompleteExactly(records: seq<Record>)
    ensures CompleteIn(records) <= |records|
    ensures CompleteIn(records) == |records| <==> forall k | 0 <= k < |records| :: records[k].status == IsComplete
  {
    if records == [] {
    } else {
      AllCompleteExactly(records[..|records| - 1]);
      assert forall k | 0 <= k < |records| - 1 :: records[..|records| - 1][k] == records[k];
    }
  }

  function ElapsedOr0(r: Record): int { if r.elapsed.Some? then r.elapsed.value else 0 }

  predicate Identifies(r: Record) { r.status == IsComplete && Truthy(r.idValue) }

  /** The member that took the longest among those that finished and carry an id; the first of equals. */
  method DominantOf(records: seq<Record>) returns (d: Option<Record>)
    ensures d.None? <==> forall k | 0 <= k < |records| :: !Identifies(records[k])
    ensures d.Some? ==> exists k :: 0 <= k < |records| && records[k] == d.value && Identifies(records[k])
                                    && (forall j | 0 <= j < |records| && Identifies(records[j]) ::
                                          ElapsedOr0(records[j]) <= ElapsedOr0(records[k]))
                                    && (forall j | 0 <= j < k && Identifies(records[j]) ::
                                          ElapsedOr0(records[j]) < ElapsedOr0(records[k]))
  {
    d := None;
    ghost var at := 0;
    for i := 0 to |records|
      invariant d.None? ==> forall k | 0 <= k < i :: !Identifies(records[k])
      invariant d.Some? ==> 0 <= at < i && records[at] == d.value && Identifies(records[at])
                            && (forall j | 0 <= j < i && Identifies(records[j]) ::
                                  ElapsedOr0(records[j]) <= ElapsedOr0(records[at]))
                            && (forall j | 0 <= j < at && Identifies(records[j]) ::
                                  ElapsedOr0(records[j]) < ElapsedOr0(records[at]))
    {
      if !Identifies(records[i]) { continue; }
      if d.None? || ElapsedOr0(records[i]) > ElapsedOr0(d.value) {
        d := Some(records[i]);
        at := i;
      }
    }
  }

  /** The identifier and where it is from are those of this member, and none that finished with an id
      took longer. */
  predicate IsDominant(records: seq<Record>, k: nat, identifier: Option<string>, from: Option<string>)
    requires k < |records|
  {
    && Identifies(records[k]) && records[k].idValue == identifier && from == Some(records[k].address)
    && forall j | 0 <= j < |records| && Identifies(records[j]) :: ElapsedOr0(records[j]) <= ElapsedOr0(records[k])
  }

  function DurationOf(records: seq<Record>): Option<int> {
    var first, last := EarliestOf(Starts(records)), LatestOf(Ends(records));
    if first.Some? && last.Some? then Some(last.value - first.value) else None
  }

  /** One node: measured exactly when all its records completed and they number at least the plan, if there is one;
      busy from its first start to its last finish. */
  method StateOf(records: seq<Record>, planned: Option<nat>) returns (s: NodeState)
    ensures s.measured <==>
            (forall k | 0 <= k < |records| :: records[k].status == IsComplete) && (planned.Some? ==> |records| >= planned.value)
    ensures s.duration == DurationOf(records) && s.observed == |records| && s.complete == CompleteIn(records)
    ensures s.planned == planned
    ensures s.identifier.None? <==> forall k | 0 <= k < |records| :: !Identifies(records[k])
    ensures s.identifier.Some? ==>
            exists k :: 0 <= k < |records| && IsDominant(records, k, s.identifier, s.identifierFrom)
  {
    var done := 0;
    for i := 0 to |records|
      invariant done == CompleteIn(records[..i])
    {
      assert records[..i + 1][..i] == records[..i];
      if records[i].status == IsComplete { done := done + 1; }
    }
    assert records[..|records|] == records;
    AllCompleteExactly(records);
    var dominant := DominantOf(records);
    if dominant.Some? {
      var k :| 0 <= k < |records| && records[k] == dominant.value && Identifies(records[k])
               && (forall j | 0 <= j < |records| && Identifies(records[j]) :: ElapsedOr0(records[j]) <= ElapsedOr0(records[k]))
               && (forall j | 0 <= j < k && Identifies(records[j]) :: ElapsedOr0(records[j]) < ElapsedOr0(records[k]));
      assert IsDominant(records, k, dominant.value.idValue, Some(dominant.value.address));
    }
    var settled := done == |records| && (planned.None? || done >= planned.value);
    s := NodeState(settled, DurationOf(records), if dominant.Some? then dominant.value.idValue else None,
                   if dominant.Some? then Some(dominant.value.address) else None, |records|, done, planned);
  }

  // ---------------------------------------------------------------- phases

  datatype Span = Span(first: int, last: int, nodes: nat)

  /** The node is drawn in this phase and has both a start and a finish. */
  predicate Contributes(collected: map<string, seq<Record>>, phaseOf: map<string, string>, phase: string, id: string) {
    id in collected && id in phaseOf && phaseOf[id] == phase && phase != "" && DurationOf(collected[id]).Some?
  }

  ghost predicate HasStart(records: seq<Record>, t: int) {
    exists k :: 0 <= k < |records| && records[k].startedAt == Some(t)
  }

  ghost predicate HasFinish(records: seq<Record>, t: int) {
    exists k :: 0 <= k < |records| && records[k].finishedAt == Some(t)
  }

  ghost predicate Inside(records: seq<Record>, first: int, last: int) {
    forall k | 0 <= k < |records| ::
      && (records[k].startedAt.Some? ==> first <= records[k].startedAt.value)
      && (records[k].finishedAt.Some? ==> records[k].finishedAt.value <= last)
  }

  /** The nodes among these that contribute to the phase. */
  ghost function Contributors(collected: map<string, seq<Record>>, phaseOf: map<string, string>, phase: string,
                              among: set<string>): (ids: set<string>)
    ensures forall id | id in ids :: id in collected
  {
    set id | id in among && Contributes(collected, phaseOf, phase, id)
  }

  /** The flat first start and last finish over every record of every contributing node. */
  ghost predicate IsSpan(span: Span, collected: map<string, seq<Record>>, phaseOf: map<string, string>, phase: string,
                         among: set<string>) {
    var ids := Contributors(collected, phaseOf, phase, among);
    && (exists id :: id in ids && HasStart(collected[id], span.first))
    && (exists id :: id in ids && HasFinish(collected[id], span.last))
    && (forall id | id in ids :: Inside(collected[id], span.first, span.last))
    && span.nodes == |ids|
  }

  /** Each phase has a span exactly when some node contributes, and it is theirs. */
  ghost predicate SpansAre(phases: map<string, Span>, collected: map<string, seq<Record>>, phaseOf: map<string,
                           string>, among: set<string>) {
    forall p :: if p in phases then IsSpan(phases[p], collected, phaseOf, p, among)
                else Contributors(collected, phaseOf, p, among) == {}
  }

  function Widened(entry: Option<Span>, low: int, high: int): Span {
    match entry
    case None => Span(low, high, 1)
    case Some(e) => Span(if low < e.first then low else e.first, if high > e.last then high else e.last, e.nodes + 1)
  }

  lemma BoundsOf(records: seq<Record>)
    requires DurationOf(records).Some?
    ensures var low, high := EarliestOf(Starts(records)), LatestOf(Ends(records));
            && low.Some? && high.Some? && HasStart(records, low.value) && HasFinish(records, high.value)
            && Inside(records, low.value, high.value)
  {
    hide EarliestOf, LatestOf;
    var starts, ends := Starts(records), Ends(records);
    var low, high := EarliestOf(starts), LatestOf(ends);
    var i :| 0 <= i < |starts| && starts[i] == low;
    var j :| 0 <= j < |ends| && ends[j] == high;
    assert records[i].startedAt == low && records[j].finishedAt == high;
    forall k | 0 <= k < |records|
      ensures (records[k].startedAt.Some? ==> low.value <= records[k].startedAt.value)
      ensures (records[k].finishedAt.Some? ==> records[k].finishedAt.value <= high.value)
    {
      assert starts[k] in starts && ends[k] in ends;
    }
  }

  lemma InsideWider(records: seq<Record>, first: int, last: int, low: int, high: int)
    requires Inside(records, first, last) && low <= first && last <= high
    ensures Inside(records, low, high)
  {
  }

  lemma WidenedIsSpan(span: Span, collected: map<string, seq<Record>>, phaseOf: map<string, string>, phase: string,
                      among: set<string>,
                      id: string, low: int, high: int)
    requires IsSpan(span, collected, phaseOf, phase, among) && id !in among
    requires Contributes(collected, phaseOf, phase, id)
    requires HasStart(collected[id], low) && HasFinish(collected[id], high) && Inside(collected[id], low, high)
    ensures IsSpan(Widened(Some(span), low, high), collected, phaseOf, phase, among + {id})
  {
    hide HasStart, HasFinish, Inside, Contributes;
    var ids := Contributors(collected, phaseOf, phase, among);
    assert Contributors(collected, phaseOf, phase, among + {id}) == ids + {id};
    var wide := Widened(Some(span), low, high);
    forall other | other in ids + {id} ensures Inside(collected[other], wide.first, wide.last) {
      if other == id { InsideWider(collected[other], low, high, wide.first, wide.last); }
      else { InsideWider(collected[other], span.first, span.last, wide.first, wide.last); }
    }
  }

  lemma FirstIsSpan(collected: map<string, seq<Record>>, phaseOf: map<string, string>, phase: string,
                    among: set<string>, id: string, low: int, high: int)
    requires Contributors(collected, phaseOf, phase, among) == {} && Contributes(collected, phaseOf, phase, id)
    requires HasStart(collected[id], low) && HasFinish(collected[id], high) && Inside(collected[id], low, high)
    ensures IsSpan(Widened(None, low, high), collected, phaseOf, phase, among + {id})
  {
    hide HasStart, HasFinish, Inside, Contributes;
    assert Contributors(collected, phaseOf, phase, among + {id}) == {id} by {
      forall other | other in among ensures !Contributes(collected, phaseOf, phase, other) {
        assert other !in Contributors(collected, phaseOf, phase, among);
      }
    }
    assert id in {id};
  }

  lemma OthersKeepTheirSpans(phases: map<string, Span>, collected: map<string, seq<Record>>, phaseOf: map<string,
                             string>, among: set<string>, id: string)
    requires SpansAre(phases, collected, phaseOf, among)
    ensures forall p | !Contributes(collected, phaseOf, p, id) ::
              if p in phases then IsSpan(phases[p], collected, phaseOf, p, among + {id})
              else Contributors(collected, phaseOf, p, among + {id}) == {}
  {
    forall p | !Contributes(collected, phaseOf, p, id)
      ensures Contributors(collected, phaseOf, p, among + {id}) == Contributors(collected, phaseOf, p, among) {}
    hide Contributors, Contributes;
  }

  /** The phase spans of `join`. */
  method SpanPhases(collected: map<string, seq<Record>>, phaseOf: map<string, string>)
    returns (phases: map<string, Span>)
    ensures SpansAre(phases, collected, phaseOf, collected.Keys)
  {
    hide IsSpan, Contributors, HasStart, HasFinish, Inside;
    phases := map[];
    var todo := collected.Keys;
    NoSpans(collected, phaseOf);
    assert collected.Keys - todo == {};
    while todo != {}
      invariant todo <= collected.Keys && SpansAre(phases, collected, phaseOf, collected.Keys - todo)
      decreases |todo|
    {
      var id :| id in todo;
      ghost var among := collected.Keys - todo;
      OthersKeepTheirSpans(phases, collected, phaseOf, among, id);
      assert among + {id} == collected.Keys - (todo - {id});
      todo := todo - {id};
      var records := collected[id];
      if id !in phaseOf || phaseOf[id] == "" { continue; }
      var low, high := EarliestOf(Starts(records)), LatestOf(Ends(records));
      if low.None? || high.None? { continue; }
      var phase := phaseOf[id];
      BoundsOf(records);
      if phase in phases { WidenedIsSpan(phases[phase], collected, phaseOf, phase, among, id, low.value, high.value); }
      else { FirstIsSpan(collected, phaseOf, phase, among, id, low.value, high.value); }
      phases := phases[phase := Widened(if phase in phases then Some(phases[phase]) else None, low.value, high.value)];
    }
    assert collected.Keys - todo == collected.Keys;
  }

  lemma NoSpans(collected: map<string, seq<Record>>, phaseOf: map<string, string>)
    ensures SpansAre(map[], collected, phaseOf, {})
  {
  }

  // ---------------------------------------------------------------- join

  function IndexFor(topology: Topology, environment: string): Index {
    Index(Filled(EstatePairs(topology.estate, environment)), HiddenIn(topology.hidden),
          DestroyNode(topology.phases, environment))
  }

  function PlansOf(operations: seq<Folded>): seq<Planned> {
    if operations == [] then []
    else
      var last := operations[|operations| - 1].planned;
      var plan := if last.None? then [] else last.value;
      PlansOf(operations[..|operations| - 1]) + seq(|plan|, k requires 0 <= k < |plan| => Planned(plan[k].0, plan[k].1))
  }

  /** What the join says of a node is right: measured exactly when all its records completed and they number at
      least what the run's plan, if it had one, named for it. */
  ghost predicate NodeIs(s: NodeState, id: string, records: seq<Record>, plans: seq<Planned>, index: Index) {
    && (s.measured <==>
          && (forall k | 0 <= k < |records| :: records[k].status == IsComplete)
          && (plans != [] ==> |records| >= PlannedFor(plans, index, id)))
    && (s.identifier.None? <==> forall k | 0 <= k < |records| :: !Identifies(records[k]))
    && (s.identifier.Some? ==> exists k :: 0 <= k < |records| && IsDominant(records, k, s.identifier, s.identifierFrom))
    && s.duration == DurationOf(records) && s.observed == |records| && s.complete == CompleteIn(records)
    && s.planned == if plans == [] then None else Some(PlannedFor(plans, index, id))
  }

  datatype Joined = Joined(nodes: map<string, NodeState>, phases: map<string, Span>, sorted: Sorted)

  /** `join`: the buckets, the nodes and the phases of one timeline. */
  method Join(topology: Topology, environment: string, operations: seq<Folded>) returns (j: Joined)
    ensures var records, index := FoldCost.Flat(operations), IndexFor(topology, environment);
            && CollectedIs(j.sorted.collected, records, index)
            && j.sorted.matched + |j.sorted.notShown| + |j.sorted.dataSources| + |j.sorted.unknown| == |records|
            && j.nodes.Keys == j.sorted.collected.Keys
            && (forall id | id in j.nodes ::
                  NodeIs(j.nodes[id], id, j.sorted.collected[id], PlansOf(operations), index))
            && SpansAre(j.phases, j.sorted.collected, PhaseOf(topology, environment), j.sorted.collected.Keys)
  {
    hide InBucket, MatchedIn, PlannedFor, PlansOf, CollectedIs, SpansAre, FoldCost.Flat, PhaseOf, Filled, EstatePairs,
         CompleteIn, DurationOf, IsDominant, Identifies;
    var members := IndexMembers(topology, environment);
    var index := Index(members, HiddenIn(topology.hidden), DestroyNode(topology.phases, environment));
    var counts := CountPlans(PlansOf(operations), index);
    var records := FoldCost.Flat(operations);
    var s := Classify(records, index);
    BucketsSumToTheInput(records, index);
    var nodes: map<string, NodeState> := map[];
    var todo := s.collected.Keys;
    while todo != {}
      invariant todo <= s.collected.Keys && nodes.Keys == s.collected.Keys - todo
      invariant forall id | id in nodes :: NodeIs(nodes[id], id, s.collected[id], PlansOf(operations), index)
      decreases |todo|
    {
      var id :| id in todo;
      var planned := if counts.None? then None else Some(if id in counts.value then counts.value[id] else 0);
      var state := StateOf(s.collected[id], planned);
      nodes := nodes[id := state];
      todo := todo - {id};
    }
    var phases := SpanPhases(s.collected, PhaseOf(topology, environment));
    j := Joined(nodes, phases, s);
  }
}
