/** What the join's tables say, in the terms of the map itself: which part of an address is taken out, which
    node a member names, which phase draws a node, and so where every record and every planned change lands. */
module NodeTheorems {
  import opened Options
  import opened FoldTimeline
  import opened NodeStates

  // ---------------------------------------------------------------- addresses

  lemma {:induction false} ClosesAfter(key: string, rest: string)
    requires ']' !in key
    ensures Closing(key + "]" + rest) == |key|
  {
    var s := key + "]" + rest;
    if key == "" {
      assert s[0] == ']';
    } else {
      assert s[1..] == key[1..] + "]" + rest && s[0] == key[0] && key[0] in key;
      ClosesAfter(key[1..], rest);
    }
  }

  /** The first index of an address is taken out whole, and what is before it stays. */
  lemma {:induction false} IndexIsTakenOut(before: string, key: string, after: string)
    requires '[' !in before && ']' !in key
    ensures BaseAddress(before + "[" + key + "]" + after) == before + BaseAddress(after)
    decreases |before|
  {
    var s := before + "[" + key + "]" + after;
    if before == "" {
      assert s[0] == '[' && s[1..] == key + "]" + after;
      ClosesAfter(key, after);
      assert s[|key| + 2..] == after;
    } else {
      assert s[0] == before[0] && before[0] in before;
      assert s[1..] == before[1..] + "[" + key + "]" + after;
      IndexIsTakenOut(before[1..], key, after);
      assert [before[0]] + (before[1..] + BaseAddress(after)) == before + BaseAddress(after);
    }
  }

  /** An opening bracket with a closing one after it. */
  predicate Indexed(s: string) {
    exists i, j :: 0 <= i < j < |s| && s[i] == '[' && s[j] == ']'
  }

  lemma ClosedExactly(s: string)
    ensures Closing(s) < |s| <==> ']' in s
  {
    assert s[..|s|] == s;
  }

  lemma IndexedStep(s: string)
    requires s != ""
    ensures Indexed(s) <==> Indexed(s[1..]) || (s[0] == '[' && ']' in s[1..])
  {
    var tail := s[1..];
    if i, j :| 0 <= i < j < |tail| && tail[i] == '[' && tail[j] == ']' {
      assert s[i + 1] == '[' && s[j + 1] == ']';
    }
    if s[0] == '[' && ']' in tail {
      var j :| 0 <= j < |tail| && tail[j] == ']';
      assert s[j + 1] == ']';
    }
    if i, j :| 0 <= i < j < |s| && s[i] == '[' && s[j] == ']' {
      assert tail[j - 1] == ']';
      if i > 0 { assert tail[i - 1] == '['; }
    }
  }

  /** Exactly the addresses with no index stay as they are. */
  lemma {:induction false} UnchangedExactly(s: string)
    ensures |BaseAddress(s)| <= |s|
    ensures BaseAddress(s) == s <==> !Indexed(s)
    decreases |s|
  {
    if s == "" {
    } else {
      var tail := s[1..];
      UnchangedExactly(tail);
      ClosedExactly(tail);
      IndexedStep(s);
      hide Indexed, Closing;
      if s[0] == '[' && Closing(tail) < |tail| {
        UnchangedExactly(s[Closing(tail) + 2..]);
      } else {
        assert s == [s[0]] + tail;
        assert BaseAddress(s)[1..] == BaseAddress(tail);
      }
    }
  }

  /** No index is left. */
  lemma StrippedHasNoIndex(s: string)
    ensures !Indexed(BaseAddress(s))
  {
    StrippingIsIdempotent(s);
    UnchangedExactly(BaseAddress(s));
  }

  // ---------------------------------------------------------------- tables

  function Get(index: map<string, string>, key: string): Option<string> {
    if key in index then Some(index[key]) else None
  }

  predicate Has(pairs: seq<(string, string)>, key: string) {
    exists k :: 0 <= k < |pairs| && pairs[k].0 == key
  }

  lemma HasSnoc(pairs: seq<(string, string)>, p: (string, string), key: string)
    ensures Has(pairs + [p], key) <==> Has(pairs, key) || p.0 == key
  {
    var all := pairs + [p];
    assert all[|pairs|] == p;
    if k :| 0 <= k < |pairs| && pairs[k].0 == key { assert all[k].0 == key; }
  }

  /** More entries on a table, all of them the same word. */
  lemma {:induction false} FilledWith(before: seq<(string, string)>, pairs: seq<(string, string)>, word: string,
                                      key: string)
    requires forall k | 0 <= k < |pairs| :: pairs[k].1 == word
    ensures Get(Filled(before + pairs), key) == if Has(pairs, key) then Some(word) else Get(Filled(before), key)
    decreases |pairs|
  {
    hide Filled, Has;
    if pairs == [] {
      assert before + pairs == before;
      assert !Has(pairs, key) by { HasNone(key); }
    } else {
      var n := |pairs| - 1;
      FilledWith(before, pairs[..n], word, key);
      assert before + pairs == before + pairs[..n] + [pairs[n]];
      OneMorePair(before + pairs[..n], pairs[n]);
      assert pairs == pairs[..n] + [pairs[n]];
      HasSnoc(pairs[..n], pairs[n], key);
    }
  }

  lemma HasNone(key: string) ensures !Has([], key) {}

  /** The last word said, if any was. */
  predicate IsLast(word: Option<string>, said: seq<Option<string>>) {
    match word
    case None => forall k | 0 <= k < |said| :: said[k].None?
    case Some(_) => exists i :: 0 <= i < |said| && said[i] == word && forall k | i < k < |said| :: said[k].None?
  }

  lemma IsLastSnoc(word: Option<string>, said: seq<Option<string>>, next: Option<string>)
    requires IsLast(word, said)
    ensures IsLast(if next.Some? then next else word, said + [next])
  {
    var all := said + [next];
    if next.Some? {
      assert all[|said|] == next;
    } else if word.Some? {
      var i :| 0 <= i < |said| && said[i] == word && forall k | i < k < |said| :: said[k].None?;
      assert all[i] == word;
    }
  }

  // ---------------------------------------------------------------- members

  predicate HasMember(node: EstateNode, environment: string, base: string) {
    node.env == environment && exists j :: 0 <= j < |node.members| && BaseAddress(node.members[j]) == base
  }

  /** Node by node, the id of one of this environment that has a member with this stripped address. */
  function Owners(nodes: seq<EstateNode>, environment: string, base: string): (r: seq<Option<string>>)
    ensures |r| == |nodes|
  {
    seq(|nodes|, k requires 0 <= k < |nodes| =>
          if HasMember(nodes[k], environment, base) then Some(nodes[k].id) else None)
  }

  lemma MemberPairsHave(node: EstateNode, environment: string, base: string)
    requires node.env == environment
    ensures Has(MemberPairs(node.members, node.id), base) <==> HasMember(node, environment, base)
  {
    var pairs := MemberPairs(node.members, node.id);
    if j :| 0 <= j < |node.members| && BaseAddress(node.members[j]) == base { assert pairs[j].0 == base; }
  }

  /** What the index says of a stripped address: the last node of this environment - and of no other - that has
      a member with the same stripped address. */
  lemma {:induction false} MembersExactly(nodes: seq<EstateNode>, environment: string, base: string)
    ensures IsLast(Get(Filled(EstatePairs(nodes, environment)), base), Owners(nodes, environment, base))
    decreases |nodes|
  {
    if nodes == [] {
    } else {
      hide HasMember, Filled, BaseAddress, IsLast, Get, Has;
      var n := |nodes| - 1;
      var last, rest := nodes[n], nodes[..n];
      var before := EstatePairs(rest, environment);
      MembersExactly(rest, environment, base);
      var owner := if HasMember(last, environment, base) then Some(last.id) else None;
      IsLastSnoc(Get(Filled(before), base), Owners(rest, environment, base), owner);
      assert Owners(nodes, environment, base) == Owners(rest, environment, base) + [owner];
      if last.env == environment {
        MemberPairsHave(last, environment, base);
        FilledWith(before, MemberPairs(last.members, last.id), last.id, base);
      } else {
        assert EstatePairs(nodes, environment) == before;
        assert !HasMember(last, environment, base) by { NoneElsewhere(last, environment, base); }
      }
    }
  }

  lemma NoneElsewhere(node: EstateNode, environment: string, base: string)
    requires node.env != environment
    ensures !HasMember(node, environment, base)
  {
  }

  // ---------------------------------------------------------------- phases

  predicate Draws(nodes: seq<CycleNode>, environment: string, id: string) {
    exists k :: 0 <= k < |nodes| && nodes[k].env == environment && nodes[k].id == id
  }

  predicate Creates(touches: seq<Touch>, id: string) {
    exists k :: 0 <= k < |touches| && touches[k].verb == "creates" && touches[k].node == id
  }

  lemma DrawsSnoc(nodes: seq<CycleNode>, n: CycleNode, environment: string, id: string)
    ensures Draws(nodes + [n], environment, id) <==> Draws(nodes, environment, id) || (n.env == environment && n.id == id)
  {
    var all := nodes + [n];
    assert all[|nodes|] == n;
    if k :| 0 <= k < |nodes| && nodes[k].env == environment && nodes[k].id == id { assert all[k] == nodes[k]; }
  }

  lemma CreatesSnoc(touches: seq<Touch>, t: Touch, id: string)
    ensures Creates(touches + [t], id) <==> Creates(touches, id) || (t.verb == "creates" && t.node == id)
  {
    var all := touches + [t];
    assert all[|touches|] == t;
    if k :| 0 <= k < |touches| && touches[k].verb == "creates" && touches[k].node == id { assert all[k] == touches[k]; }
  }

  predicate InEstate(nodes: seq<EstateNode>, environment: string, id: string) {
    exists k :: 0 <= k < |nodes| && nodes[k].env == environment && nodes[k].id == id
  }

  /** Phase by phase, the phase's id where it draws this node of the cycle. */
  function Drawn(phases: seq<Phase>, environment: string, id: string): (r: seq<Option<string>>)
    ensures |r| == |phases|
  {
    seq(|phases|, k requires 0 <= k < |phases| =>
          if Draws(phases[k].nodes, environment, id) then Some(phases[k].id) else None)
  }

  function CreatedBy(phase: Phase, id: string): Option<string> {
    if Creates(phase.touches, id) then Some(phase.id) else None
  }

  /** And where it creates this node of the estate. */
  function Created(phases: seq<Phase>, id: string): (r: seq<Option<string>>)
    ensures |r| == |phases|
  {
    seq(|phases|, k requires 0 <= k < |phases| => CreatedBy(phases[k], id))
  }

  lemma {:induction false} NodePhasesHave(nodes: seq<CycleNode>, environment: string, phase: string, id: string)
    ensures var pairs := NodePhases(nodes, environment, phase);
            && (forall k | 0 <= k < |pairs| :: pairs[k].1 == phase)
            && (Has(pairs, id) <==> Draws(nodes, environment, id))
    decreases |nodes|
  {
    if nodes == [] {
    } else {
      hide Has, Draws;
      var last, rest := nodes[|nodes| - 1], nodes[..|nodes| - 1];
      NodePhasesHave(rest, environment, phase, id);
      assert NodePhases(rest, environment, phase) + [] == NodePhases(rest, environment, phase);
      HasSnoc(NodePhases(rest, environment, phase), (last.id, phase), id);
      assert nodes == rest + [last];
      DrawsSnoc(rest, last, environment, id);
    }
  }

  lemma {:induction false} TouchPhasesHave(touches: seq<Touch>, owned: set<string>, phase: string, id: string)
    ensures var pairs := TouchPhases(touches, owned, phase);
            && (forall k | 0 <= k < |pairs| :: pairs[k].1 == phase)
            && (Has(pairs, id) <==> id in owned && Creates(touches, id))
    decreases |touches|
  {
    if touches == [] {
    } else {
      hide Has, Creates;
      var last, rest := touches[|touches| - 1], touches[..|touches| - 1];
      TouchPhasesHave(rest, owned, phase, id);
      assert TouchPhases(rest, owned, phase) + [] == TouchPhases(rest, owned, phase);
      HasSnoc(TouchPhases(rest, owned, phase), (last.node, phase), id);
      assert touches == rest + [last];
      CreatesSnoc(rest, last, id);
    }
  }

  lemma {:induction false} DrawnExactly(phases: seq<Phase>, environment: string, id: string)
    ensures IsLast(Get(Filled(AllNodePhases(phases, environment)), id), Drawn(phases, environment, id))
    decreases |phases|
  {
    if phases == [] {
    } else {
      hide Draws, Filled, IsLast, Get, Has, NodePhases;
      var n := |phases| - 1;
      var last, rest := phases[n], phases[..n];
      var before := AllNodePhases(rest, environment);
      DrawnExactly(rest, environment, id);
      var here := if Draws(last.nodes, environment, id) then Some(last.id) else None;
      IsLastSnoc(Get(Filled(before), id), Drawn(rest, environment, id), here);
      assert Drawn(phases, environment, id) == Drawn(rest, environment, id) + [here];
      NodePhasesHave(last.nodes, environment, last.id, id);
      FilledWith(before, NodePhases(last.nodes, environment, last.id), last.id, id);
    }
  }

  /** What a table says when a word may have been said over what it said before. */
  predicate Overrides(now: Option<string>, was: Option<string>, said: seq<Option<string>>) {
    if IsLast(None, said) then now == was else now.Some? && IsLast(now, said)
  }

  lemma OverridesSnoc(now: Option<string>, was: Option<string>, said: seq<Option<string>>, next: Option<string>)
    requires Overrides(now, was, said)
    ensures Overrides(if next.Some? then next else now, was, said + [next])
  {
    LaterSaid(said, next);
    hide IsLast;
    if !IsLast(None, said) { IsLastSnoc(now, said, next); }
  }

  lemma OnePhaseCreates(before: seq<(string, string)>, phase: Phase, owned: set<string>, id: string)
    ensures var was, by_ := Get(Filled(before), id), CreatedBy(phase, id);
            Get(Filled(before + TouchPhases(phase.touches, owned, phase.id)), id) ==
            if id in owned && by_.Some? then by_ else was
  {
    hide Creates, Filled, Get, Has, TouchPhases;
    TouchPhasesHave(phase.touches, owned, phase.id, id);
    FilledWith(before, TouchPhases(phase.touches, owned, phase.id), phase.id, id);
  }

  lemma CreatedSnoc(phases: seq<Phase>, id: string)
    requires phases != []
    ensures Created(phases, id) == Created(phases[..|phases| - 1], id) + [CreatedBy(phases[|phases| - 1], id)]
  {
    hide CreatedBy;
  }

  lemma {:induction false} CreatedExactly(before: seq<(string, string)>, phases: seq<Phase>, owned: set<string>,
                                          id: string)
    ensures var was, now := Get(Filled(before), id), Get(Filled(before + AllTouchPhases(phases, owned)), id);
            if id in owned then Overrides(now, was, Created(phases, id)) else now == was
    decreases |phases|
  {
    if phases == [] {
      assert before + AllTouchPhases(phases, owned) == before;
    } else {
      hide Created, CreatedBy, Filled, Get, TouchPhases, Overrides;
      var n := |phases| - 1;
      var last, rest := phases[n], phases[..n];
      var so, pairs := AllTouchPhases(rest, owned), TouchPhases(last.touches, owned, last.id);
      CreatedExactly(before, rest, owned, id);
      OnePhaseCreates(before + so, last, owned, id);
      assert before + (so + pairs) == before + so + pairs;
      if id in owned {
        CreatedSnoc(phases, id);
        OverridesSnoc(Get(Filled(before + so), id), Get(Filled(before), id), Created(rest, id), CreatedBy(last, id));
      }
    }
  }

  lemma LaterSaid(said: seq<Option<string>>, next: Option<string>)
    ensures IsLast(None, said + [next]) <==> IsLast(None, said) && next.None?
    ensures next.Some? ==> IsLast(next, said + [next])
  {
    var all := said + [next];
    assert all[|said|] == next;
    assert forall k | 0 <= k < |said| :: all[k] == said[k];
  }

  /** The phase a node is drawn in: for a node of this environment's estate that some phase creates, the last
      phase that creates it; for any other, the last phase whose cycle draws it. */
  lemma PhaseOfExactly(topology: Topology, environment: string, id: string)
    ensures var phase := Get(PhaseOf(topology, environment), id);
            if InEstate(topology.estate, environment, id) && !IsLast(None, Created(topology.phases, id))
            then phase.Some? && IsLast(phase, Created(topology.phases, id))
            else IsLast(phase, Drawn(topology.phases, environment, id))
  {
    hide IsLast, Get, Filled, AllNodePhases, AllTouchPhases;
    var owned := set k | 0 <= k < |topology.estate| && topology.estate[k].env == environment :: topology.estate[k].id;
    CreatedExactly(AllNodePhases(topology.phases, environment), topology.phases, owned, id);
    DrawnExactly(topology.phases, environment, id);
  }

  // ---------------------------------------------------------------- the teardown node

  predicate IsTeardown(nodes: seq<CycleNode>, k: nat, environment: string)
    requires k < |nodes|
  {
    nodes[k].service == "destroy" && nodes[k].env == environment
  }

  lemma {:induction false} FirstDestroyExactly(nodes: seq<CycleNode>, environment: string)
    ensures match FirstDestroy(nodes, environment)
            case None => forall k | 0 <= k < |nodes| :: !IsTeardown(nodes, k, environment)
            case Some(id) => exists k :: 0 <= k < |nodes| && IsTeardown(nodes, k, environment) && nodes[k].id == id
                                         && forall j | 0 <= j < k :: !IsTeardown(nodes, j, environment)
  {
    if nodes == [] {
    } else {
      FirstDestroyExactly(nodes[1..], environment);
      assert forall k | 1 <= k < |nodes| :: nodes[1..][k - 1] == nodes[k];
      if !IsTeardown(nodes, 0, environment) && FirstDestroy(nodes, environment).Some? {
        var rest := nodes[1..];
        var k :| 0 <= k < |rest| && IsTeardown(rest, k, environment) && rest[k].id == FirstDestroy(nodes, environment).value
                 && forall j | 0 <= j < k :: !IsTeardown(rest, j, environment);
        assert IsTeardown(nodes, k + 1, environment);
        forall j | 0 <= j < k + 1 ensures !IsTeardown(nodes, j, environment) {
          assert j > 0 ==> !IsTeardown(rest, j - 1, environment);
        }
      } else if IsTeardown(nodes, 0, environment) {
        assert nodes[0].id == FirstDestroy(nodes, environment).value;
      } else {
        forall k | 0 <= k < |nodes| ensures !IsTeardown(nodes, k, environment) {
          assert k > 0 ==> !IsTeardown(nodes[1..], k - 1, environment);
        }
      }
    }
  }

  predicate Tears(phase: Phase, environment: string) {
    exists k :: 0 <= k < |phase.nodes| && IsTeardown(phase.nodes, k, environment)
  }

  /** The teardown a delete belongs to: the first one of the first phase that has one for this environment. */
  lemma {:induction false} TeardownExactly(phases: seq<Phase>, environment: string)
    ensures match DestroyNode(phases, environment)
            case None => forall p | 0 <= p < |phases| :: !Tears(phases[p], environment)
            case Some(id) => exists p :: 0 <= p < |phases| && Tears(phases[p], environment)
                                         && FirstDestroy(phases[p].nodes, environment) == Some(id)
                                         && forall q | 0 <= q < p :: !Tears(phases[q], environment)
  {
    if phases == [] {
    } else {
      hide IsTeardown, FirstDestroy;
      var rest, here := phases[1..], FirstDestroy(phases[0].nodes, environment);
      TeardownExactly(rest, environment);
      FirstDestroyExactly(phases[0].nodes, environment);
      assert Tears(phases[0], environment) <==> here.Some?;
      assert forall p | 1 <= p < |phases| :: phases[p] == rest[p - 1];
      if here.None? && DestroyNode(rest, environment).Some? {
        var p :| 0 <= p < |rest| && Tears(rest[p], environment)
                 && FirstDestroy(rest[p].nodes, environment) == DestroyNode(rest, environment)
                 && forall q | 0 <= q < p :: !Tears(rest[q], environment);
        assert phases[p + 1] == rest[p];
      }
    }
  }

  // ---------------------------------------------------------------- where a record lands

  predicate IsHidden(groups: seq<seq<string>>, base: string) {
    exists g, m :: 0 <= g < |groups| && 0 <= m < |groups[g]| && BaseAddress(groups[g][m]) == base
  }

  /** A record lands on a node exactly when it is a delete and the node is the teardown, or it is neither a
      delete nor a read and the node is the last of the environment with its stripped address among its
      members; it is left undrawn when it lands on none and a hidden group has its stripped address; a read
      is a read whatever its address; and only the rest is unknown. */
  lemma RecordLandsExactly(topology: Topology, environment: string, r: Record)
    ensures var base := BaseAddress(r.address);
            var bucket := BucketOf(IndexFor(topology, environment), r);
            && (bucket == Read <==> r.action == Some("read"))
            && (r.action != Some("read") ==>
                  exists node: Option<string> ::
                    && (if r.action == Some("delete") then node == DestroyNode(topology.phases, environment)
                        else IsLast(node, Owners(topology.estate, environment, base)))
                    && (if node.Some? && node.value != "" then bucket == Matched(node.value)
                        else bucket == if IsHidden(topology.hidden, base) then NotShown else Unknown))
  {
    var base := BaseAddress(r.address);
    var index := IndexFor(topology, environment);
    MembersExactly(topology.estate, environment, base);
    hide BaseAddress, Filled, EstatePairs, DestroyNode, Owners, IsLast;
    assert base in index.hidden <==> IsHidden(topology.hidden, base);
    var node := if r.action == Some("delete") then index.teardown else Get(index.members, base);
    assert node == NodeFor(index, r.action, base);
  }

  /** Only one last word can have been said: the node of a record is determined. */
  lemma LastIsOne(one: Option<string>, other: Option<string>, said: seq<Option<string>>)
    requires IsLast(one, said) && IsLast(other, said)
    ensures one == other
  {
    if one.Some? && other.Some? {
      var i :| 0 <= i < |said| && said[i] == one && forall k | i < k < |said| :: said[k].None?;
      var j :| 0 <= j < |said| && said[j] == other && forall k | j < k < |said| :: said[k].None?;
      assert i == j;
    }
  }

  // ---------------------------------------------------------------- counts

  /** Sorting the records into a bucket loses none of it and invents none. */
  lemma {:induction false} BucketKeeps(records: seq<Record>, index: Index, bucket: Bucket, r: Record)
    ensures multiset(InBucket(records, index, bucket))[r] ==
            if BucketOf(index, r) == bucket then multiset(records)[r] else 0
    decreases |records|
  {
    if records == [] {
    } else {
      hide BucketOf;
      var last, rest := records[|records| - 1], records[..|records| - 1];
      BucketKeeps(rest, index, bucket, r);
      assert records == rest + [last];
      CountSnoc(rest, last, r);
      CountSnoc(InBucket(rest, index, bucket), last, r);
      if BucketOf(index, last) != bucket { assert InBucket(records, index, bucket) == InBucket(rest, index, bucket); }
    }
  }

  lemma CountSnoc(records: seq<Record>, last: Record, r: Record)
    ensures multiset(records + [last])[r] == multiset(records)[r] + if last == r then 1 else 0
  {
  }

  predicate PlanHas(op: Folded, p: Planned) {
    op.planned.Some? && (p.address, p.action) in op.planned.value
  }

  /** What is counted as planned is what the operations' plans name. */
  lemma {:induction false} PlansExactly(operations: seq<Folded>, p: Planned)
    ensures p in PlansOf(operations) <==> exists i :: 0 <= i < |operations| && PlanHas(operations[i], p)
    decreases |operations|
  {
    if operations == [] {
    } else {
      var n := |operations| - 1;
      PlansExactly(operations[..n], p);
      OnePlan(operations[n], p);
      hide PlanHas;
      assert forall i | 0 <= i < n :: operations[..n][i] == operations[i];
    }
  }

  lemma OnePlan(op: Folded, p: Planned)
    ensures var plan := if op.planned.None? then [] else op.planned.value;
            p in seq(|plan|, k requires 0 <= k < |plan| => Planned(plan[k].0, plan[k].1)) <==> PlanHas(op, p)
  {
    var plan := if op.planned.None? then [] else op.planned.value;
    var all := seq(|plan|, k requires 0 <= k < |plan| => Planned(plan[k].0, plan[k].1));
    if PlanHas(op, p) {
      var k :| 0 <= k < |plan| && plan[k] == (p.address, p.action);
      assert all[k] == p;
    }
    if p in all {
      var k :| 0 <= k < |all| && all[k] == p;
      assert plan[k] == (p.address, p.action);
    }
  }

  /** A plan counts by the same rule as the records do: when every planned change was carried out, each node was
      planned exactly as many as it then has. */
  lemma {:induction false} PlannedAsObserved(records: seq<Record>, plans: seq<Planned>, index: Index, id: string)
    requires |plans| == |records| && id != ""
    requires forall k | 0 <= k < |plans| :: plans[k] == Planned(records[k].address, records[k].action)
    ensures PlannedFor(plans, index, id) == |InBucket(records, index, Matched(id))|
    decreases |records|
  {
    if records == [] {
    } else {
      hide BaseAddress;
      var n := |records| - 1;
      PlannedAsObserved(records[..n], plans[..n], index, id);
    }
  }

  /** The places of the completed records. */
  function CompleteAt(records: seq<Record>): set<nat> {
    set k: nat | k < |records| && records[k].status == IsComplete
  }

  lemma CompleteAtSnoc(records: seq<Record>)
    requires records != []
    ensures var n := |records| - 1;
            && n !in CompleteAt(records[..n])
            && CompleteAt(records) == CompleteAt(records[..n]) + if records[n].status == IsComplete then {n} else {}
  {
  }

  lemma {:induction false} CompleteCount(records: seq<Record>)
    ensures CompleteIn(records) == |CompleteAt(records)|
    decreases |records|
  {
    if records == [] {
    } else {
      CompleteAtSnoc(records);
      hide CompleteAt;
      CompleteCount(records[..|records| - 1]);
    }
  }

  lemma HasSome(times: seq<Option<int>>)
    ensures EarliestOf(times).Some? <==> exists k :: 0 <= k < |times| && times[k].Some?
    ensures LatestOf(times).Some? <==> exists k :: 0 <= k < |times| && times[k].Some?
  {
    hide EarliestOf, LatestOf;
    if k :| 0 <= k < |times| && times[k].Some? { assert times[k] in times; }
  }

  /** How long a node was busy is known exactly when some record has a start and some record a finish. */
  lemma DurationKnownExactly(records: seq<Record>)
    ensures DurationOf(records).Some? <==>
            && (exists k :: 0 <= k < |records| && records[k].startedAt.Some?)
            && (exists k :: 0 <= k < |records| && records[k].finishedAt.Some?)
  {
    hide EarliestOf, LatestOf;
    HasSome(Starts(records));
    HasSome(Ends(records));
    assert forall k | 0 <= k < |records| :: Starts(records)[k] == records[k].startedAt;
    assert forall k | 0 <= k < |records| :: Ends(records)[k] == records[k].finishedAt;
  }

  /** And it is the time from the first start among its records to the last finish. */
  lemma DurationIsTheSpan(records: seq<Record>, first: int, last: int)
    requires HasStart(records, first) && HasFinish(records, last) && Inside(records, first, last)
    ensures DurationOf(records) == Some(last - first)
  {
    hide EarliestOf, LatestOf;
    DurationKnownExactly(records);
    var low, high := EarliestOf(Starts(records)).value, LatestOf(Ends(records)).value;
    BoundsOf(records);
    BoundsAreOne(records, first, last, low, high);
  }

  lemma BoundsAreOne(records: seq<Record>, first: int, last: int, low: int, high: int)
    requires HasStart(records, first) && HasFinish(records, last) && Inside(records, first, last)
    requires HasStart(records, low) && HasFinish(records, high) && Inside(records, low, high)
    ensures first == low && last == high
  {
  }
}
