/** The watchdog's handler as it is written: it observes and executes, in order, what was decided. */
module WatchdogHandler {
  import opened Options
  import opened ControlStore
  import opened Scope
  import opened SweepDecision
  import Launch
  import Watchdog

  /** Every id the launch endpoint lets through is one a scope can spell. */
  lemma AcceptedIdsArePlain(id: string)
    requires Launch.LaunchIdOk(id)
    ensures Plain(id)
  {
  }

  /** Without that, two different situations would share a record. */
  lemma CommasConfuseScopes()
    ensures ScopeOfIds(["a,b"]) == ScopeOfIds(["a", "b"])
  {
    assert ["a", "b"][1..] == ["b"];
    assert SortedSet(["b"]) == ["b"] && SortedSet(["a,b"]) == ["a,b"];
    assert Less("a", "b");
    assert Insert("a", ["b"]) == ["a"] + ["b"];
    assert SortedSet(["a", "b"]) == ["a", "b"];
    assert Join(["a", "b"]) == "a" + "," + Join(["b"]);
  }

  // ---------------------------------------------------------------- observing

  lemma {:induction false} ObservedSnoc(found: seq<Resource>, r: Resource)
    ensures Watchdog.Observed(found + [r]) == Watchdog.Observed(found) + if r.launch != "" then [r] else []
  {
    if found == [] {
    } else {
      assert (found + [r])[1..] == found[1..] + [r];
      ObservedSnoc(found[1..], r);
    }
  }

  /** `observe`: only what carries a Launch tag. */
  method Observe(found: seq<Resource>) returns (alive: seq<Resource>)
    ensures alive == Watchdog.Observed(found)
  {
    alive := [];
    for k := 0 to |found|
      invariant alive == Watchdog.Observed(found[..k])
    {
      assert found[..k + 1] == found[..k] + [found[k]];
      ObservedSnoc(found[..k], found[k]);
      if found[k].launch != "" { alive := alive + [found[k]]; }
    }
    assert found[..|found|] == found;
  }

  // ---------------------------------------------------------------- tearing down

  function OfKind(alive: seq<Resource>, kind: Kind): seq<Resource> {
    if alive == [] then [] else (if alive[0].kind == kind then [alive[0]] else []) + OfKind(alive[1..], kind)
  }

  /** The order of the blunt path: services, then load balancers, then databases. */
  function Attempts(alive: seq<Resource>): seq<Resource> {
    OfKind(alive, Ecs) + OfKind(alive, Alb) + OfKind(alive, Rds)
  }

  lemma {:induction false} OfKindCounts(alive: seq<Resource>, kind: Kind, r: Resource)
    ensures multiset(OfKind(alive, kind))[r] == if r.kind == kind then multiset(alive)[r] else 0
  {
    if alive == [] {
    } else {
      OfKindCounts(alive[1..], kind, r);
      assert alive == [alive[0]] + alive[1..];
    }
  }

  /** Nothing alive is skipped, and nothing is tried twice. */
  lemma EverythingIsAttempted(alive: seq<Resource>)
    ensures multiset(Attempts(alive)) == multiset(alive)
  {
    hide OfKind;
    forall r: Resource ensures multiset(Attempts(alive))[r] == multiset(alive)[r] {
      OfKindCounts(alive, Ecs, r);
      OfKindCounts(alive, Alb, r);
      OfKindCounts(alive, Rds, r);
    }
  }

  function Worked(resources: seq<Resource>, works: Resource -> bool): seq<string> {
    if resources == [] then []
    else (if works(resources[0]) then [resources[0].id] else []) + Worked(resources[1..], works)
  }

  lemma {:induction false} OfKindSnoc(alive: seq<Resource>, r: Resource, kind: Kind)
    ensures OfKind(alive + [r], kind) == OfKind(alive, kind) + if r.kind == kind then [r] else []
  {
    if alive == [] {
      assert alive + [r] == [r] && [r][1..] == [];
    } else {
      var last := if r.kind == kind then [r] else [];
      var head := if alive[0].kind == kind then [alive[0]] else [];
      assert (alive + [r])[1..] == alive[1..] + [r] && (alive + [r])[0] == alive[0];
      OfKindSnoc(alive[1..], r, kind);
      assert head + (OfKind(alive[1..], kind) + last) == head + OfKind(alive[1..], kind) + last;
    }
  }

  lemma {:induction false} WorkedSnoc(resources: seq<Resource>, r: Resource, works: Resource -> bool)
    ensures Worked(resources + [r], works) == Worked(resources, works) + if works(r) then [r.id] else []
  {
    if resources == [] {
      assert resources + [r] == [r] && [r][1..] == [];
    } else {
      var last := if works(r) then [r.id] else [];
      var head := if works(resources[0]) then [resources[0].id] else [];
      assert (resources + [r])[1..] == resources[1..] + [r] && (resources + [r])[0] == resources[0];
      WorkedSnoc(resources[1..], r, works);
      assert head + (Worked(resources[1..], works) + last) == head + Worked(resources[1..], works) + last;
    }
  }

  method DeleteKind(alive: seq<Resource>, kind: Kind, works: Resource -> bool) returns (deleted: seq<string>)
    ensures deleted == Worked(OfKind(alive, kind), works)
  {
    deleted := [];
    for k := 0 to |alive|
      invariant deleted == Worked(OfKind(alive[..k], kind), works)
    {
      assert alive[..k + 1] == alive[..k] + [alive[k]];
      OfKindSnoc(alive[..k], alive[k], kind);
      if alive[k].kind == kind {
        WorkedSnoc(OfKind(alive[..k], kind), alive[k], works);
        if works(alive[k]) { deleted := deleted + [alive[k].id]; }
      } else {
        assert OfKind(alive[..k + 1], kind) == OfKind(alive[..k], kind);
      }
    }
    assert alive[..|alive|] == alive;
  }

  /** A deletion that fails stops nothing: the others are still tried. */
  method BluntTeardown(alive: seq<Resource>, works: Resource -> bool)
    returns (ecs: seq<string>, alb: seq<string>, rds: seq<string>)
    ensures ecs == Worked(OfKind(alive, Ecs), works)
    ensures alb == Worked(OfKind(alive, Alb), works)
    ensures rds == Worked(OfKind(alive, Rds), works)
  {
    ecs := DeleteKind(alive, Ecs, works);
    alb := DeleteKind(alive, Alb, works);
    rds := DeleteKind(alive, Rds, works);
  }

  // ---------------------------------------------------------------- the handler

  datatype Faults = Faults(lock: Fault, record: Fault, note: Fault, release: Fault, clear: Fault)

  datatype Outcome = Raised | Did(action: Action, deleted: seq<string>)

  /** Store calls that are retried by nobody: what each leaves of the table when it fails. */
  function Left<T>(before: T, after: T, fault: Fault): T {
    if fault == FailsBefore then before else after
  }

  /** The machine's state after the next call of invocation `id`, with the steps so far. */
  ghost method Follow(start: Watchdog.State, steps: seq<Watchdog.Step>, s: Watchdog.State, e: Watchdog.Step, grace: int)
    returns (more: seq<Watchdog.Step>, next: Watchdog.State)
    requires Watchdog.Run(start, steps, s, grace) && Watchdog.Enabled(s, e)
    ensures Watchdog.Run(start, more, next, grace) && next == Watchdog.Apply(s, e, grace)
  {
    Watchdog.RunSnoc(start, steps, s, e, grace);
    more, next := steps + [e], Watchdog.Apply(s, e, grace);
  }

  /** Something is alive, its lock is there and in time, and every tag can be read and lies ahead. */
  predicate InTime(alive: seq<Resource>, lock: Option<Lock>, now: int) {
    && alive != [] && lock.Some? && lock.value.expiresAt > now
    && forall k | 0 <= k < |alive| :: alive[k].expires.At? && alive[k].expires.moment > now
  }

  lemma Quietly(alive: seq<Resource>, lock: Option<Lock>, record: Option<Sweep>, now: int, grace: int)
    ensures var d := Decide(alive, lock, record, now, grace);
            && (d.action == WithinDeadline <==> InTime(alive, lock, now))
            && (d.action == WithinDeadline ==> !d.releaseLock && !d.clearRecord && !d.noteDispatch)
  {
    WithinDeadlineExactly(alive, lock, record, now, grace);
    hide Decide;
    if Decide(alive, lock, record, now, grace).action == WithinDeadline {
      WithinDeadlineIsQuiet(alive, lock, record, now, grace);
    }
  }

  /** `handler`: the decision's effects, in order.  A record that could not be written ends the
      invocation; a lock or a record that could not be dropped does not.  The calls it makes are a
      run of the machine, from any state of it with this lock and this record. */
  method Handler(table: ControlTable, found: seq<Resource>, now: int, grace: int, works: Resource -> bool, f: Faults,
                 ghost start: Watchdog.State, ghost id: nat)
    returns (outcome: Outcome, ghost steps: seq<Watchdog.Step>, ghost end: Watchdog.State)
    requires start.lock == table.lock && start.record == table.sweep
    requires Watchdog.Enabled(start, Watchdog.Invoke(id, now, found))
    modifies table`lock, table`sweep
    ensures f.lock != Fine || f.record != Fine ==> outcome == Raised && table.Value() == old(table.Value())
    ensures f.lock == Fine && f.record == Fine ==>
              var alive := Watchdog.Observed(found);
              var d := Decide(alive, old(table.lock), old(table.sweep), now, grace);
              && (outcome == Raised <==> d.action == Action.Dispatch && f.note != Fine)
              && (outcome.Did? ==> outcome.action == d.action && outcome.deleted == Deleted(d, alive, works))
              && table.lock == (if d.releaseLock then Left(old(table.lock), None, f.release) else old(table.lock))
              && table.sweep == (if d.noteDispatch then Left(old(table.sweep), Some(Sweep(ScopeOf(alive), Some(now))), f.note)
                                 else if d.clearRecord then Left(old(table.sweep), None, f.clear) else old(table.sweep))
    ensures f.lock == Fine && f.record == Fine && Watchdog.Observed(found) == [] ==>
              var stale := old(table.lock).Some? && old(table.lock).value.expiresAt <= now;
              && outcome == Did(if stale then ReleasedStaleLock else NoAction, [])
              && table.lock == (if stale then Left(old(table.lock), None, f.release) else old(table.lock))
              && table.sweep == Left(old(table.sweep), None, f.clear)
    ensures f.lock == Fine && f.record == Fine ==>
              (outcome == Did(WithinDeadline, []) <==> InTime(Watchdog.Observed(found), old(table.lock), now))
    ensures f.lock == Fine && f.record == Fine && InTime(Watchdog.Observed(found), old(table.lock), now) ==>
              table.Value() == old(table.Value())
    ensures Watchdog.Run(start, steps, end, grace) && end.lock == table.lock && end.record == table.sweep
    ensures outcome.Did? && outcome.action == Blunt ==> (Watchdog.LaunchSet(Watchdog.Observed(found)), now) in end.torn
  {
    hide Watchdog.Run, Decide, ScopeOf, InTime;
    end := start;
    assert Watchdog.Run(start, [], start, grace) by { EmptyRun(start, grace); }
    steps, end := Follow(start, [], end, Watchdog.Invoke(id, now, found), grace);
    steps, end := Follow(start, steps, end, Watchdog.Next(id, f.lock), grace);
    var lock := table.ReadLock(f.lock);
    if lock.Unavailable? { return Raised, steps, end; }
    steps, end := Follow(start, steps, end, Watchdog.Next(id, f.record), grace);
    var record := table.ReadSweep(f.record);
    if record.Unavailable? { return Raised, steps, end; }
    var alive := Observe(found);
    var d := Decide(alive, lock.value, record.value, now, grace);
    DecisionShapes(alive, lock.value, record.value, now, grace);
    Quietly(alive, lock.value, record.value, now, grace);
    NothingAliveExactly(lock.value, record.value, now, grace);
    outcome, steps, end := Execute(table, d, alive, now, grace, works, f, start, id, steps, end);
  }

  lemma EmptyRun(s: Watchdog.State, grace: int)
    ensures Watchdog.Run(s, [], s, grace)
  {
  }

  function Deleted(d: Decision, alive: seq<Resource>, works: Resource -> bool): seq<string> {
    if d.action == Blunt
    then Worked(OfKind(alive, Ecs), works) + Worked(OfKind(alive, Alb), works) + Worked(OfKind(alive, Rds), works)
    else []
  }

  lemma {:induction false} WorkedExactly(resources: seq<Resource>, works: Resource -> bool, id: string)
    ensures id in Worked(resources, works) <==> exists r :: r in resources && works(r) && r.id == id
  {
    if resources == [] {
    } else {
      WorkedExactly(resources[1..], works, id);
      assert resources == [resources[0]] + resources[1..];
    }
  }

  lemma {:induction false} OfKindExactly(alive: seq<Resource>, kind: Kind, r: Resource)
    ensures r in OfKind(alive, kind) <==> r in alive && r.kind == kind
  {
    if alive == [] {
    } else {
      OfKindExactly(alive[1..], kind, r);
      assert alive == [alive[0]] + alive[1..];
    }
  }

  /** What a run reports as deleted: exactly the ids of what was alive and could be deleted, and only when it
      tears down. */
  lemma DeletedExactly(d: Decision, alive: seq<Resource>, works: Resource -> bool, id: string)
    ensures id in Deleted(d, alive, works) <==>
            d.action == Blunt && exists r :: r in alive && works(r) && r.id == id
  {
    hide Worked, OfKind;
    WorkedExactly(OfKind(alive, Ecs), works, id);
    WorkedExactly(OfKind(alive, Alb), works, id);
    WorkedExactly(OfKind(alive, Rds), works, id);
    forall r: Resource ensures r in alive <==> r in OfKind(alive, Ecs) || r in OfKind(alive, Alb) || r in OfKind(alive, Rds) {
      OfKindExactly(alive, Ecs, r);
      OfKindExactly(alive, Alb, r);
      OfKindExactly(alive, Rds, r);
    }
  }

  /** Which effects go together. */
  predicate Shaped(d: Decision, scope: string) {
    && (d.noteDispatch <==> d.action == Action.Dispatch)
    && (d.noteDispatch ==> !d.releaseLock && !d.clearRecord && d.scope == scope)
    && (d.action == Blunt ==> d.releaseLock && d.clearRecord)
  }

  lemma DecisionShapes(alive: seq<Resource>, lock: Option<Lock>, record: Option<Sweep>, now: int, grace: int)
    ensures Shaped(Decide(alive, lock, record, now, grace), ScopeOf(alive))
  {
    hide ScopeOf, AnyPassed;
  }

  /** The effects themselves. */
  method Execute(table: ControlTable, d: Decision, alive: seq<Resource>, now: int, grace: int, works: Resource -> bool,
                 f: Faults,
                 ghost start: Watchdog.State, ghost id: nat, ghost before: seq<Watchdog.Step>, ghost s: Watchdog.State)
    returns (outcome: Outcome, ghost steps: seq<Watchdog.Step>, ghost end: Watchdog.State)
    requires s.lock == table.lock && s.record == table.sweep && Watchdog.Run(start, before, s, grace)
    requires Shaped(d, ScopeOf(alive))
    requires id in s.invocations && s.invocations[id] == Watchdog.Invocation(now, alive, Watchdog.AfterDecision(d))
    modifies table`lock, table`sweep
    ensures outcome == Raised <==> d.action == Action.Dispatch && f.note != Fine
    ensures outcome.Did? ==> outcome.action == d.action && outcome.deleted == Deleted(d, alive, works)
    ensures table.lock == if d.releaseLock then Left(old(table.lock), None, f.release) else old(table.lock)
    ensures table.sweep == if d.noteDispatch then Left(old(table.sweep), Some(Sweep(ScopeOf(alive), Some(now))), f.note)
                           else if d.clearRecord then Left(old(table.sweep), None, f.clear) else old(table.sweep)
    ensures Watchdog.Run(start, steps, end, grace) && end.lock == table.lock && end.record == table.sweep
    ensures outcome.Did? && outcome.action == Blunt ==> (Watchdog.LaunchSet(alive), now) in end.torn
  {
    hide Watchdog.Run, Decide, ScopeOf, Watchdog.LaunchSet;
    steps, end := before, s;
    var deleted := [];
    if d.noteDispatch {
      steps, end := Follow(start, steps, end, Watchdog.Next(id, Fine), grace);
      steps, end := Follow(start, steps, end, Watchdog.Next(id, f.note), grace);
      var noted := table.NoteSweep(d.scope, now, f.note);
      if noted.Unavailable? { return Raised, steps, end; }
    }
    if d.action == Blunt {
      steps, end := Follow(start, steps, end, Watchdog.Next(id, Fine), grace);
      var ecs, alb, rds := BluntTeardown(alive, works);
      deleted := ecs + alb + rds;
    }
    if d.releaseLock {
      steps, end := Follow(start, steps, end, Watchdog.Next(id, f.release), grace);
      var _ := table.ReleaseLock(f.release);
    }
    if d.clearRecord {
      steps, end := Follow(start, steps, end, Watchdog.Next(id, f.clear), grace);
      var _ := table.ClearSweep(f.clear);
    }
    return Did(d.action, deleted), steps, end;
  }
}
