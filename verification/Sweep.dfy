/** What the watchdog decides about what it found.  No state: the live resources, the launch's lock,
    the watchdog's own record and the time go in, and a decision with its effects comes out. */
module SweepDecision {
  import opened Options
  import opened ControlStore
  import opened Scope

  datatype Kind = Ecs | Alb | Rds

  /** An `ExpiresAt` tag: absent, not a date, or a moment. */
  datatype Deadline = Absent | Unparseable | At(moment: int)

  datatype Resource = Resource(kind: Kind, id: string, launch: string, expires: Deadline)

  datatype Action = NoAction | ReleasedStaleLock | WithinDeadline | Dispatch | Wait | Blunt

  datatype Decision = Decision(action: Action, alive: seq<string>, scope: string,
                               releaseLock: bool, clearRecord: bool, noteDispatch: bool, ago: int)

  function IdsOf(alive: seq<Resource>): (ids: seq<string>)
    ensures |ids| == |alive| && forall k | 0 <= k < |ids| :: ids[k] == alive[k].id
  {
    seq(|alive|, k requires 0 <= k < |alive| => alive[k].id)
  }

  function LaunchesOf(alive: seq<Resource>): (ids: seq<string>)
    ensures |ids| == |alive| && forall k | 0 <= k < |ids| :: ids[k] == alive[k].launch
  {
    seq(|alive|, k requires 0 <= k < |alive| => alive[k].launch)
  }

  /** `scope_of`. */
  function ScopeOf(alive: seq<Resource>): string {
    ScopeOfIds(LaunchesOf(alive))
  }

  /** `deadline_passed`: a deadline that is missing or cannot be read has passed. */
  predicate DeadlinePassed(r: Resource, now: int) {
    match r.expires
    case Absent => true
    case Unparseable => true
    case At(moment) => moment <= now
  }

  predicate AnyPassed(alive: seq<Resource>, now: int) {
    exists k :: 0 <= k < |alive| && DeadlinePassed(alive[k], now)
  }

  /** `dispatched_at_for`: zero means never, and a record about something else, or one whose time
      cannot be read, is no record. */
  function DispatchedAtFor(record: Option<Sweep>, scope: string): int {
    if record.None? || record.value.scope != scope then 0
    else if record.value.dispatchedAt.None? then 0 else record.value.dispatchedAt.value
  }

  /** `decide_sweep`. */
  function Decide(alive: seq<Resource>, lock: Option<Lock>, record: Option<Sweep>, now: int, grace: int): Decision {
    var ids, scope := IdsOf(alive), ScopeOf(alive);
    if alive == [] then
      if LockIsExpired(lock, now) then Decision(ReleasedStaleLock, [], "", true, record.Some?, false, 0)
      else Decision(NoAction, [], "", false, record.Some?, false, 0)
    else if !(AnyPassed(alive, now) || LockIsExpired(lock, now) || lock.None?) then
      Decision(WithinDeadline, ids, scope, false, false, false, 0)
    else
      var at := DispatchedAtFor(record, scope);
      if at == 0 then Decision(Dispatch, ids, scope, false, false, true, 0)
      else if now - at < grace then Decision(Wait, ids, scope, false, false, false, now - at)
      else Decision(Blunt, ids, scope, true, true, false, 0)
  }

  /** With nothing alive, the lock is released exactly when it is there and out of time, and the record is
      cleared exactly when there is one. */
  lemma NothingAliveExactly(lock: Option<Lock>, record: Option<Sweep>, now: int, grace: int)
    ensures var stale := lock.Some? && lock.value.expiresAt <= now;
            Decide([], lock, record, now, grace) ==
            Decision(if stale then ReleasedStaleLock else NoAction, [], "", stale, record.Some?, false, 0)
  {
    hide ScopeOf, AnyPassed;
  }

  /** Something alive is left alone exactly while the lock is there and in time and every tag can be read
      and lies ahead. */
  lemma WithinDeadlineExactly(alive: seq<Resource>, lock: Option<Lock>, record: Option<Sweep>, now: int, grace: int)
    ensures Decide(alive, lock, record, now, grace).action == WithinDeadline <==>
            && alive != [] && lock.Some? && lock.value.expiresAt > now
            && forall k | 0 <= k < |alive| :: alive[k].expires.At? && alive[k].expires.moment > now
  {
    hide ScopeOf, IdsOf;
    if alive != [] && forall k | 0 <= k < |alive| :: alive[k].expires.At? && alive[k].expires.moment > now {
      assert !AnyPassed(alive, now);
    }
    if k :| 0 <= k < |alive| && !(alive[k].expires.At? && alive[k].expires.moment > now) {
      assert DeadlinePassed(alive[k], now);
    }
  }

  /** And what it does: nothing. */
  lemma WithinDeadlineIsQuiet(alive: seq<Resource>, lock: Option<Lock>, record: Option<Sweep>, now: int, grace: int)
    requires Decide(alive, lock, record, now, grace).action == WithinDeadline
    ensures Decide(alive, lock, record, now, grace) ==
            Decision(WithinDeadline, IdsOf(alive), ScopeOf(alive), false, false, false, 0)
  {
    hide ScopeOf, IdsOf, AnyPassed;
  }

  /** Something alive and out of time - by its own tag, or because the lock is gone or out of time - is asked
      for when no readable record of this very scope says when it was asked for last; waited for within the
      grace period; and torn down after it. */
  lemma OverdueExactly(alive: seq<Resource>, lock: Option<Lock>, record: Option<Sweep>, now: int, grace: int)
    requires alive != []
    requires || lock.None? || lock.value.expiresAt <= now
             || exists k :: 0 <= k < |alive| && !(alive[k].expires.At? && alive[k].expires.moment > now)
    ensures var d := Decide(alive, lock, record, now, grace);
            var at := if record.Some? && record.value.scope == ScopeOf(alive) then record.value.dispatchedAt else None;
            if at.None? || at.value == 0 then
              d == Decision(Dispatch, IdsOf(alive), ScopeOf(alive), false, false, true, 0)
            else if now < at.value + grace then
              d == Decision(Wait, IdsOf(alive), ScopeOf(alive), false, false, false, now - at.value)
            else d == Decision(Blunt, IdsOf(alive), ScopeOf(alive), true, true, false, 0)
  {
    WithinDeadlineExactly(alive, lock, record, now, grace);
    hide ScopeOf, IdsOf, AnyPassed;
  }

  /** Nothing is torn down that was not asked about: blunt needs a readable record of this very
      scope, at least a grace period old. */
  lemma BluntNeedsTheRecord(alive: seq<Resource>, lock: Option<Lock>, record: Option<Sweep>, now: int, grace: int)
    ensures Decide(alive, lock, record, now, grace).action == Blunt <==>
            && alive != [] && (AnyPassed(alive, now) || LockIsExpired(lock, now) || lock.None?)
            && record.Some? && record.value.scope == ScopeOf(alive)
            && record.value.dispatchedAt.Some? && record.value.dispatchedAt.value != 0
            && record.value.dispatchedAt.value + grace <= now
  {
  }
}
