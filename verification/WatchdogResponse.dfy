/** Bounded response, over runs of the machine: invocations that nothing disturbs, one after the other, each
    finding whatever lock there is. */
module WatchdogResponse {
  import opened Options
  import opened ControlStore
  import opened SweepDecision
  import opened Watchdog

  /** One visit of the watchdog: the lock it will find, when it comes, and what is there. */
  datatype Visit = Visit(id: nat, lock: Option<Lock>, now: int, found: seq<Resource>)

  const CALLS := 5

  function Calls(id: nat, n: nat): seq<Step> {
    if n == 0 then [] else [Next(id, Fine)] + Calls(id, n - 1)
  }

  /** The lock changes, the invocation begins, and every call it makes is answered. */
  function VisitSteps(v: Visit): seq<Step> {
    [LockChanges(v.lock), Invoke(v.id, v.now, v.found)] + Calls(v.id, CALLS)
  }

  function CycleOf(v: Visit): Cycle {
    Cycle(Observed(v.found), v.lock, v.now)
  }

  /** What it decides, given the record. */
  function DecisionAt(record: Option<Sweep>, v: Visit, grace: int): Decision {
    Decide(Observed(v.found), v.lock, record, v.now, grace)
  }

  // ---------------------------------------------------------------- one visit

  function Moves(s: State, id: nat, n: nat, grace: int): State
    requires id in s.invocations
    decreases n
  {
    if n == 0 then s else Moves(Move(s, id, s.invocations[id], Fine, grace), id, n - 1, grace)
  }

  lemma {:induction false} CallsMove(s: State, id: nat, n: nat, t: State, grace: int)
    requires id in s.invocations && Run(s, Calls(id, n), t, grace)
    ensures t == Moves(s, id, n, grace)
    decreases n
  {
    hide Move;
    if n == 0 {
    } else {
      assert Calls(id, n)[1..] == Calls(id, n - 1);
      MoveStays(s, id, grace);
      CallsMove(Move(s, id, s.invocations[id], Fine, grace), id, n - 1, t, grace);
    }
  }

  lemma MoveStays(s: State, id: nat, grace: int)
    requires id in s.invocations
    ensures id in Move(s, id, s.invocations[id], Fine, grace).invocations
  {
  }

  /** The effects of a decision, all together. */
  function Effects(s: State, id: nat, i: Invocation, d: Decision): State {
    var this_ := (LaunchSet(i.alive), i.now);
    State(if d.releaseLock then None else s.lock,
          if d.clearRecord then None else if d.action == Dispatch then Some(Sweep(d.scope, Some(i.now))) else s.record,
          s.invocations[id := Went(i, Over)],
          if d.action == Dispatch then s.asked + {this_} else s.asked,
          if d.action == Dispatch then s.noted + {this_} else s.noted,
          if d.action == Blunt then s.torn + {this_} else s.torn)
  }

  lemma EffectsFollow(s: State, id: nat, i: Invocation, d: Decision, grace: int)
    requires id in s.invocations && s.invocations[id] == i && i.phase == AfterDecision(d)
    requires d.action == Dispatch ==> !d.releaseLock && !d.clearRecord
    ensures Moves(s, id, 3, grace) == Effects(s, id, i, d)
  {
    hide Decide, LaunchSet;
    var s1 := Move(s, id, i, Fine, grace);
    var s2 := Move(s1, id, s1.invocations[id], Fine, grace);
    var s3 := Move(s2, id, s2.invocations[id], Fine, grace);
    assert Moves(s, id, 3, grace) == s3;
  }

  /** What an undisturbed visit leaves: the record the decision says, the asking and the teardown it made. */
  lemma VisitLeaves(s: State, v: Visit, t: State, grace: int)
    requires Run(s, VisitSteps(v), t, grace)
    ensures var d := DecisionAt(s.record, v, grace);
            && t.record == RecordAfter(s.record, CycleOf(v), grace)
            && t.asked == (if d.action == Dispatch then s.asked + {(LaunchSet(Observed(v.found)), v.now)} else s.asked)
            && t.torn == (if d.action == Blunt then s.torn + {(LaunchSet(Observed(v.found)), v.now)} else s.torn)
  {
    var calls := Calls(v.id, CALLS);
    var locked := s.(lock := v.lock);
    assert VisitSteps(v)[1..] == [Invoke(v.id, v.now, v.found)] + calls;
    assert ([Invoke(v.id, v.now, v.found)] + calls)[1..] == calls;
    hide Run, Moves, Effects, Decide, Calls, LaunchSet, Observed;
    VisitBegins(s, v, t, grace);
    var begun := Apply(locked, Invoke(v.id, v.now, v.found), grace);
    CallsMove(begun, v.id, CALLS, t, grace);
    TwoReads(begun, v.id, grace);
    var d := DecisionAt(s.record, v, grace);
    var i := Invocation(v.now, Observed(v.found), AfterDecision(d));
    var read := begun.(invocations := begun.invocations[v.id := i]);
    DecisionsFit(s.record, v, grace);
    EffectsFollow(read, v.id, i, d, grace);
    EffectsAre(read, v.id, i, d);
  }

  lemma VisitBegins(s: State, v: Visit, t: State, grace: int)
    requires Run(s, VisitSteps(v), t, grace)
    ensures v.id !in s.invocations
    ensures Run(Apply(s.(lock := v.lock), Invoke(v.id, v.now, v.found), grace), Calls(v.id, CALLS), t, grace)
  {
    hide Calls;
    var calls := Calls(v.id, CALLS);
    assert VisitSteps(v)[1..] == [Invoke(v.id, v.now, v.found)] + calls;
    assert ([Invoke(v.id, v.now, v.found)] + calls)[1..] == calls;
  }

  lemma TwoReads(s: State, id: nat, grace: int)
    requires id in s.invocations && s.invocations[id].phase == Phase.ReadLock
    ensures var i := s.invocations[id];
            var d := Decide(i.alive, s.lock, s.record, i.now, grace);
            var read := s.(invocations := s.invocations[id := Went(i, AfterDecision(d))]);
            Moves(s, id, CALLS, grace) == Moves(read, id, 3, grace)
  {
    hide Decide, LaunchSet;
    var i := s.invocations[id];
    var s1 := Move(s, id, i, Fine, grace);
    var s2 := Move(s1, id, s1.invocations[id], Fine, grace);
    var read := s.(invocations := s.invocations[id := Went(i, AfterDecision(Decide(i.alive, s.lock, s.record, i.now, grace)))]);
    assert s2 == read;
    assert Moves(s, id, 5, grace) == Moves(s1, id, 4, grace) == Moves(s2, id, 3, grace);
  }

  lemma EffectsAre(s: State, id: nat, i: Invocation, d: Decision)
    ensures var t := Effects(s, id, i, d);
            && t.record == (if d.clearRecord then None
                            else if d.action == Dispatch then Some(Sweep(d.scope, Some(i.now))) else s.record)
            && t.asked == (if d.action == Dispatch then s.asked + {(LaunchSet(i.alive), i.now)} else s.asked)
            && t.torn == (if d.action == Blunt then s.torn + {(LaunchSet(i.alive), i.now)} else s.torn)
  {
  }

  lemma DecisionsFit(record: Option<Sweep>, v: Visit, grace: int)
    ensures var d := DecisionAt(record, v, grace);
            && (d.action == Dispatch ==> !d.releaseLock && !d.clearRecord)
            && (d.noteDispatch <==> d.action == Dispatch)
            && RecordAfter(record, CycleOf(v), grace) ==
               if d.clearRecord then None
               else if d.action == Dispatch then Some(Sweep(d.scope, Some(v.now))) else record
  {
    hide ScopeOf, AnyPassed, Observed;
  }

  // ---------------------------------------------------------------- visit after visit

  function AllSteps(visits: seq<Visit>): seq<Step> {
    if visits == [] then [] else VisitSteps(visits[0]) + AllSteps(visits[1..])
  }

  function Cycles(visits: seq<Visit>): (r: seq<Cycle>)
    ensures |r| == |visits| && forall k | 0 <= k < |r| :: r[k] == CycleOf(visits[k])
  {
    seq(|visits|, k requires 0 <= k < |visits| => CycleOf(visits[k]))
  }

  lemma {:induction false} RunSplits(s: State, first: seq<Step>, second: seq<Step>, t: State, grace: int)
    returns (mid: State)
    requires Run(s, first + second, t, grace)
    ensures Run(s, first, mid, grace) && Run(mid, second, t, grace)
    decreases first
  {
    hide Enabled, Apply;
    if first == [] {
      assert first + second == second;
      mid := s;
    } else {
      assert (first + second)[1..] == first[1..] + second;
      mid := RunSplits(Apply(s, first[0], grace), first[1..], second, t, grace);
    }
  }

  function Mark(v: Visit): (Launches, int) {
    (LaunchSet(Observed(v.found)), v.now)
  }

  /** The visits that took this action: what was there, and when. */
  function By(action: Action, visits: seq<Visit>, actions: seq<Action>): set<(Launches, int)>
    requires |visits| == |actions|
  {
    set k | 0 <= k < |visits| && actions[k] == action :: Mark(visits[k])
  }

  lemma OneMoreVisit(action: Action, v: Visit, visits: seq<Visit>, decided: Action, actions: seq<Action>)
    requires |visits| == |actions|
    ensures By(action, [v] + visits, [decided] + actions) ==
            (if decided == action then {Mark(v)} else {}) + By(action, visits, actions)
  {
    hide Mark;
    var all, acts := [v] + visits, [decided] + actions;
    forall x | x in By(action, visits, actions) ensures x in By(action, all, acts) {
      var k :| 0 <= k < |visits| && actions[k] == action && x == Mark(visits[k]);
      assert all[k + 1] == visits[k] && acts[k + 1] == actions[k];
    }
    forall x | x in By(action, all, acts) && !(decided == action && x == Mark(v))
      ensures x in By(action, visits, actions) {
      var k :| 0 <= k < |all| && acts[k] == action && x == Mark(all[k]);
      assert k > 0;
      assert all[k] == visits[k - 1] && acts[k] == actions[k - 1];
    }
    assert all[0] == v && acts[0] == decided;
  }

  /** A run of undisturbed visits does exactly what the decisions, each from the record the one before left,
      say: it asks where they ask, and tears down where they are blunt. */
  lemma {:induction false} VisitsDoWhatIsDecided(s: State, visits: seq<Visit>, t: State, grace: int)
    requires Run(s, AllSteps(visits), t, grace)
    ensures var actions := Actions(s.record, Cycles(visits), grace);
            t.asked == s.asked + By(Dispatch, visits, actions) && t.torn == s.torn + By(Blunt, visits, actions)
    decreases visits
  {
    hide VisitSteps, RecordAfter, LaunchSet, Observed, Decide, By;
    if visits == [] {
      NoVisits();
    } else {
      var v, rest := visits[0], visits[1..];
      var mid := RunSplits(s, VisitSteps(v), AllSteps(rest), t, grace);
      VisitLeaves(s, v, mid, grace);
      VisitsDoWhatIsDecided(mid, rest, t, grace);
      assert Cycles(visits)[1..] == Cycles(rest) && Cycles(visits)[0] == CycleOf(v);
      assert visits == [v] + rest;
      var decided, actions := DecisionAt(s.record, v, grace).action, Actions(mid.record, Cycles(rest), grace);
      OneMoreVisit(Dispatch, v, rest, decided, actions);
      OneMoreVisit(Blunt, v, rest, decided, actions);
    }
  }

  lemma NoVisits()
    ensures By(Dispatch, [], []) == {} && By(Blunt, [], []) == {}
  {
  }

  /** While one scope stays alive and overdue, and there was no record of it, over any run of undisturbed visits
      up to the first past the grace period: Actions is asked once, by the first visit; nothing is torn
      down before the grace period is out; and the first visit at or past it tears down. */
  lemma BoundedResponseOverRuns(scope: string, s: State, visits: seq<Visit>, t: State, grace: int)
    requires Run(s, AllSteps(visits), t, grace) && visits != []
    requires Overdue(scope, Cycles(visits)) && DispatchedAtFor(s.record, scope) == 0
    requires forall j | 0 < j < |visits| - 1 :: visits[j].now < visits[0].now + grace
    ensures var first, last := visits[0], visits[|visits| - 1];
            && t.asked == s.asked + {(LaunchSet(Observed(first.found)), first.now)}
            && t.torn == s.torn + if |visits| > 1 && last.now >= first.now + grace
                                  then {(LaunchSet(Observed(last.found)), last.now)} else {}
  {
    hide ScopeOf, OutOfTime, LaunchSet, Observed, Decide, Run, AllSteps;
    var cycles := Cycles(visits);
    var actions := Actions(s.record, cycles, grace);
    VisitsDoWhatIsDecided(s, visits, t, grace);
    forall k | 0 <= k < |visits|
      ensures actions[k] == if k == 0 then Dispatch else if visits[k].now < visits[0].now + grace then Wait else Blunt
    {
      BoundedResponse(scope, s.record, cycles, grace, k);
    }
    assert actions[0] == Dispatch;
  }
}
