/** Runs of the watchdog.  Any number of invocations interleave, one store call at a time, with each
    other and with whatever the launches do to the lock; each call may fail before or after it was
    applied, and an invocation may die anywhere. */
module Watchdog {
  import opened Options
  import opened ControlStore
  import opened Scope
  import opened SweepDecision

  /** What an invocation does next.  A decision's effects happen in this order: ask Actions, note
      that we asked, tear down, release the lock, clear the record. */
  datatype Phase =
    | ReadLock
    | ReadRecord(lock: Option<Lock>)
    | Ask(decision: Decision)
    | Note(decision: Decision)
    | TearDown(decision: Decision)
    | Release(decision: Decision)
    | Clear(decision: Decision)
    | Over

  datatype Invocation = Invocation(now: int, alive: seq<Resource>, phase: Phase)

  type Launches = set<string>

  /** `asked`, `noted` and `torn` are what happened so far: for which launch ids Actions was asked,
      when that was recorded, and which were torn down directly. */
  datatype State = State(lock: Option<Lock>, record: Option<Sweep>, invocations: map<nat, Invocation>,
                         asked: set<(Launches, int)>, noted: set<(Launches, int)>, torn: set<(Launches, int)>)

  const START := State(None, None, map[], {}, {}, {})

  datatype Step =
    | Invoke(id: nat, now: int, found: seq<Resource>)
    | Next(id: nat, fault: Fault)
    | Die(id: nat)
    | LockChanges(lock: Option<Lock>)   // launches take it, workflows delete it
    | RecordExpires                     // the table's own ttl

  /** `observe`: no Launch tag, no jurisdiction. */
  function Observed(found: seq<Resource>): (alive: seq<Resource>)
    ensures forall r :: r in alive <==> r in found && r.launch != ""
  {
    if found == [] then [] else (if found[0].launch != "" then [found[0]] else []) + Observed(found[1..])
  }

  function LaunchSet(alive: seq<Resource>): Launches {
    set r | r in alive :: r.launch
  }

  /** The first effect of a decision, and the one after each. */
  function AfterDecision(d: Decision): Phase {
    if d.action == Dispatch then Ask(d) else if d.action == Blunt then TearDown(d) else AfterTearDown(d)
  }

  function AfterTearDown(d: Decision): Phase {
    if d.releaseLock then Release(d) else AfterRelease(d)
  }

  function AfterRelease(d: Decision): Phase {
    if d.clearRecord then Clear(d) else Over
  }

  function Went(i: Invocation, phase: Phase): Invocation {
    i.(phase := phase)
  }

  function Move(s: State, id: nat, i: Invocation, fault: Fault, grace: int): State {
    var worked := fault != FailsBefore;
    match i.phase
    case ReadLock => s.(invocations := s.invocations[id := Went(i, if fault == Fine then ReadRecord(s.lock) else Over)])
    case ReadRecord(lock) =>
      var decided := AfterDecision(Decide(i.alive, lock, s.record, i.now, grace));
      s.(invocations := s.invocations[id := Went(i, if fault == Fine then decided else Over)])
    case Ask(d) =>
      s.(asked := s.asked + {(LaunchSet(i.alive), i.now)}, invocations := s.invocations[id := Went(i, Note(d))])
    case Note(d) =>
      s.(record := if worked then Some(Sweep(d.scope, Some(i.now))) else s.record,
         noted := if worked then s.noted + {(LaunchSet(i.alive), i.now)} else s.noted,
         invocations := s.invocations[id := Went(i, if fault == Fine then AfterTearDown(d) else Over)])
    case TearDown(d) =>
      s.(torn := s.torn + {(LaunchSet(i.alive), i.now)}, invocations := s.invocations[id := Went(i, AfterTearDown(d))])
    case Release(d) =>
      s.(lock := if worked then None else s.lock, invocations := s.invocations[id := Went(i, AfterRelease(d))])
    case Clear(d) =>
      s.(record := if worked then None else s.record, invocations := s.invocations[id := Went(i, Over)])
    case Over => s
  }

  predicate Enabled(s: State, e: Step) {
    match e
    case Invoke(id, _, _) => id !in s.invocations
    case Next(id, _) => id in s.invocations
    case Die(id) => id in s.invocations
    case _ => true
  }

  function Apply(s: State, e: Step, grace: int): State
    requires Enabled(s, e)
  {
    match e
    case Invoke(id, now, found) => s.(invocations := s.invocations[id := Invocation(now, Observed(found), ReadLock)])
    case Next(id, fault) => Move(s, id, s.invocations[id], fault, grace)
    case Die(id) => s.(invocations := s.invocations[id := Went(s.invocations[id], Over)])
    case LockChanges(lock) => s.(lock := lock)
    case RecordExpires => s.(record := None)
  }

  predicate Run(s: State, steps: seq<Step>, end: State, grace: int)
    decreases steps
  {
    if steps == [] then s == end
    else Enabled(s, steps[0]) && Run(Apply(s, steps[0], grace), steps[1..], end, grace)
  }

  lemma {:induction false} RunSnoc(s: State, steps: seq<Step>, mid: State, e: Step, grace: int)
    requires Run(s, steps, mid, grace) && Enabled(mid, e)
    ensures Run(s, steps + [e], Apply(mid, e, grace), grace)
    decreases steps
  {
    hide Enabled, Apply;
    if steps == [] {
      assert [e][1..] == [];
      assert Run(Apply(mid, e, grace), [], Apply(mid, e, grace), grace);
    } else {
      RunSnoc(Apply(s, steps[0], grace), steps[1..], mid, e, grace);
      assert (steps + [e])[1..] == steps[1..] + [e];
    }
  }

  // ---------------------------------------------------------------- no teardown unannounced

  predicate AliveOk(alive: seq<Resource>) {
    forall r | r in alive :: Plain(r.launch)
  }

  /** An earlier dispatch for these very launches was recorded a grace period before `now`. */
  predicate Announced(s: State, launches: Launches, now: int, grace: int) {
    exists n :: n in s.noted && n.0 == launches && n.1 + grace <= now
  }

  /** Some recorded dispatch was about the launches this scope spells, at this time. */
  predicate RecordedFor(s: State, scope: string, at: int, ids: seq<string>) {
    && (forall x | x in ids :: Plain(x)) && ScopeOfIds(ids) == scope
    && ((set x | x in ids), at) in s.noted
  }

  ghost predicate RecordOk(s: State) {
    s.record.Some? && s.record.value.dispatchedAt.Some? ==>
      exists ids: seq<string> :: RecordedFor(s, s.record.value.scope, s.record.value.dispatchedAt.value, ids)
  }

  predicate InvocationOk(s: State, i: Invocation, grace: int) {
    && AliveOk(i.alive)
    && (i.phase.Ask? || i.phase.Note? ==> i.phase.decision.scope == ScopeOf(i.alive))
    && (i.phase.Note? ==> (LaunchSet(i.alive), i.now) in s.asked)
    && (i.phase.TearDown? ==> Announced(s, LaunchSet(i.alive), i.now, grace))
  }

  ghost predicate Inv(s: State, grace: int) {
    && RecordOk(s)
    && (forall id | id in s.invocations :: InvocationOk(s, s.invocations[id], grace))
    && (forall t | t in s.torn :: Announced(s, t.0, t.1, grace))
    && s.noted <= s.asked
  }

  lemma LaunchSetIs(alive: seq<Resource>)
    ensures LaunchSet(alive) == set x | x in LaunchesOf(alive)
  {
    var ids := LaunchesOf(alive);
    forall x | x in LaunchSet(alive) ensures x in ids {
      var k :| 0 <= k < |alive| && alive[k].launch == x;
      assert ids[k] == x;
    }
  }

  lemma AlivePlain(alive: seq<Resource>)
    requires AliveOk(alive)
    ensures forall x | x in LaunchesOf(alive) :: Plain(x)
  {
  }

  /** A blunt decision rests on a recorded dispatch about exactly the launches that are alive. */
  lemma BluntIsAnnounced(s: State, alive: seq<Resource>, lock: Option<Lock>, now: int, grace: int)
    requires RecordOk(s) && AliveOk(alive) && Decide(alive, lock, s.record, now, grace).action == Blunt
    ensures Announced(s, LaunchSet(alive), now, grace)
  {
    BluntNeedsTheRecord(alive, lock, s.record, now, grace);
    var at := s.record.value.dispatchedAt.value;
    var ids: seq<string> :| RecordedFor(s, s.record.value.scope, at, ids);
    AlivePlain(alive);
    ScopeIsTheSet(ids, LaunchesOf(alive));
    LaunchSetIs(alive);
    assert (set x | x in ids) == LaunchSet(alive);
    assert (LaunchSet(alive), at) in s.noted;
  }

  lemma AnnouncedStays(s: State, t: State, grace: int)
    requires s.noted <= t.noted
    ensures forall l, now | Announced(s, l, now, grace) :: Announced(t, l, now, grace)
  {
    forall l, now | Announced(s, l, now, grace) ensures Announced(t, l, now, grace) {
      var n :| n in s.noted && n.0 == l && n.1 + grace <= now;
      assert n in t.noted;
    }
  }

  lemma RecordStays(s: State, t: State)
    requires RecordOk(s) && s.noted <= t.noted && (t.record == s.record || t.record.None?)
    ensures RecordOk(t)
  {
    if t.record.Some? && t.record.value.dispatchedAt.Some? {
      var ids: seq<string> :| RecordedFor(s, s.record.value.scope, s.record.value.dispatchedAt.value, ids);
      assert RecordedFor(t, t.record.value.scope, t.record.value.dispatchedAt.value, ids);
    }
  }

  /** One invocation moved; the rest keep what they know. */
  lemma OthersStay(s: State, t: State, id: nat, grace: int)
    requires Inv(s, grace) && s.noted <= t.noted && s.asked <= t.asked && RecordOk(t) && t.noted <= t.asked
    requires t.invocations.Keys == s.invocations.Keys + {id}
    requires forall x | x in s.invocations && x != id :: t.invocations[x] == s.invocations[x]
    requires InvocationOk(t, t.invocations[id], grace)
    requires forall n | n in t.torn && n !in s.torn :: Announced(t, n.0, n.1, grace)
    ensures Inv(t, grace)
  {
    hide RecordOk, AliveOk, Announced;
    AnnouncedStays(s, t, grace);
  }

  lemma MoveKeeps(s: State, id: nat, fault: Fault, grace: int)
    requires Inv(s, grace) && id in s.invocations
    ensures Inv(Move(s, id, s.invocations[id], fault, grace), grace)
  {
    hide RecordOk, AliveOk, Announced, Decide;
    var i := s.invocations[id];
    var t := Move(s, id, i, fault, grace);
    if i.phase.Over? { return; }
    if i.phase.Note? && fault != FailsBefore {
      NoteIsRecorded(s, t, i);
    } else {
      RecordStays(s, t);
    }
    AnnouncedStays(s, t, grace);
    if i.phase.ReadRecord? && fault == Fine { DecidedOk(s, i, grace); }
    OthersStay(s, t, id, grace);
  }

  lemma NoteIsRecorded(s: State, t: State, i: Invocation)
    requires AliveOk(i.alive) && i.phase.Note? && i.phase.decision.scope == ScopeOf(i.alive)
    requires t.record == Some(Sweep(ScopeOf(i.alive), Some(i.now)))
    requires t.noted == s.noted + {(LaunchSet(i.alive), i.now)}
    ensures RecordOk(t)
  {
    LaunchSetIs(i.alive);
    AlivePlain(i.alive);
    assert RecordedFor(t, ScopeOf(i.alive), i.now, LaunchesOf(i.alive));
  }

  lemma DecidedOk(s: State, i: Invocation, grace: int)
    requires RecordOk(s) && AliveOk(i.alive) && i.phase.ReadRecord?
    ensures InvocationOk(s, Went(i, AfterDecision(Decide(i.alive, i.phase.lock, s.record, i.now, grace))), grace)
  {
    hide RecordOk, AliveOk, Announced;
    var d := Decide(i.alive, i.phase.lock, s.record, i.now, grace);
    if d.action == Blunt { BluntIsAnnounced(s, i.alive, i.phase.lock, i.now, grace); }
  }

  /** No Launch tag found has a comma in it; the launch endpoint lets none through. */
  predicate CommaFree(e: Step) {
    e.Invoke? ==> forall r | r in e.found :: ',' !in r.launch
  }

  lemma StepKeeps(s: State, e: Step, grace: int)
    requires Inv(s, grace) && Enabled(s, e) && CommaFree(e)
    ensures Inv(Apply(s, e, grace), grace)
  {
    hide RecordOk, Announced, Decide, Move;
    var t := Apply(s, e, grace);
    match e
    case Next(id, fault) => MoveKeeps(s, id, fault, grace);
    case Invoke(id, now, found) =>
      RecordStays(s, t);
      OthersStay(s, t, id, grace);
    case Die(id) =>
      RecordStays(s, t);
      OthersStay(s, t, id, grace);
    case LockChanges(_) =>
      RecordStays(s, t);
      AnnouncedStays(s, t, grace);
    case RecordExpires =>
      RecordStays(s, t);
      AnnouncedStays(s, t, grace);
  }

  lemma {:induction false} RunKeeps(s: State, steps: seq<Step>, end: State, grace: int)
    requires Inv(s, grace) && Run(s, steps, end, grace) && forall e | e in steps :: CommaFree(e)
    ensures Inv(end, grace)
    decreases steps
  {
    hide Inv, Enabled, Apply, CommaFree;
    if steps == [] {
    } else {
      StepKeeps(s, steps[0], grace);
      RunKeeps(Apply(s, steps[0], grace), steps[1..], end, grace);
    }
  }

  /** Over every run, whatever interleaves, fails or dies: a set of launches torn down at `now` was
      asked about, and the asking recorded for that very set, at least a grace period before. */
  lemma NoTeardownUnannounced(steps: seq<Step>, end: State, grace: int, launches: Launches, now: int)
    requires Run(START, steps, end, grace) && (forall e | e in steps :: CommaFree(e)) && (launches, now) in end.torn
    ensures exists at :: (launches, at) in end.noted && (launches, at) in end.asked && at + grace <= now
  {
    RunKeeps(START, steps, end, grace);
    var n :| n in end.noted && n.0 == launches && n.1 + grace <= now;
    assert (launches, n.1) in end.noted;
  }

  // ---------------------------------------------------------------- bounded response

  /** One cycle: what was alive, the lock as it was found, and when. */
  datatype Cycle = Cycle(alive: seq<Resource>, lock: Option<Lock>, now: int)

  /** The lock is gone or out of time, or some tag is missing, cannot be read, or is not ahead. */
  predicate OutOfTime(c: Cycle) {
    || c.lock.None? || c.lock.value.expiresAt <= c.now
    || exists k :: 0 <= k < |c.alive| && !(c.alive[k].expires.At? && c.alive[k].expires.moment > c.now)
  }

  /** One scope, alive and overdue at every cycle, at times that never go back. */
  predicate Overdue(scope: string, cycles: seq<Cycle>) {
    && (forall k | 0 <= k < |cycles| ::
          && cycles[k].alive != [] && ScopeOf(cycles[k].alive) == scope && cycles[k].now > 0
          && OutOfTime(cycles[k]))
    && (forall j, k | 0 <= j < k < |cycles| :: cycles[j].now <= cycles[k].now)
  }

  /** The record after an undisturbed cycle. */
  function RecordAfter(record: Option<Sweep>, c: Cycle, grace: int): Option<Sweep> {
    var d := Decide(c.alive, c.lock, record, c.now, grace);
    if d.noteDispatch then Some(Sweep(d.scope, Some(c.now))) else if d.clearRecord then None else record
  }

  /** What undisturbed cycles decide, one after the other. */
  function Actions(record: Option<Sweep>, cycles: seq<Cycle>, grace: int): (actions: seq<Action>)
    ensures |actions| == |cycles|
    decreases |cycles|
  {
    if cycles == [] then []
    else [Decide(cycles[0].alive, cycles[0].lock, record, cycles[0].now, grace).action]
         + Actions(RecordAfter(record, cycles[0], grace), cycles[1..], grace)
  }

  lemma {:induction false} WaitsThenBlunt(scope: string, asked: int, cycles: seq<Cycle>, grace: int, k: nat)
    requires Overdue(scope, cycles) && asked > 0 && k < |cycles|
    requires forall j | 0 <= j < k :: cycles[j].now < asked + grace
    ensures Actions(Some(Sweep(scope, Some(asked))), cycles, grace)[k] == if cycles[k].now < asked + grace then Wait
                                                                          else Blunt
    decreases |cycles|
  {
    var c := cycles[0];
    OverdueExactly(c.alive, c.lock, Some(Sweep(scope, Some(asked))), c.now, grace);
    hide ScopeOf, OutOfTime, Decide;
    if k == 0 {
    } else {
      WaitsThenBlunt(scope, asked, cycles[1..], grace, k - 1);
    }
  }

  /** While one scope stays alive and overdue, and the watchdog had no record of it: the first cycle
      asks; every cycle before the grace period is out waits; the first one at or past it is blunt -
      whatever lock each of them found.  Nobody is asked twice. */
  lemma BoundedResponse(scope: string, record: Option<Sweep>, cycles: seq<Cycle>, grace: int, k: nat)
    requires Overdue(scope, cycles) && k < |cycles| && DispatchedAtFor(record, scope) == 0
    requires forall j | 0 < j < k :: cycles[j].now < cycles[0].now + grace
    ensures Actions(record, cycles, grace)[k] ==
            if k == 0 then Dispatch else if cycles[k].now < cycles[0].now + grace then Wait else Blunt
  {
    var c := cycles[0];
    OverdueExactly(c.alive, c.lock, record, c.now, grace);
    hide ScopeOf, OutOfTime, Decide;
    if k > 0 { WaitsThenBlunt(scope, cycles[0].now, cycles[1..], grace, k - 1); }
  }
}
