/** The launch control store: one table, changed only by single conditional operations.  Each
    operation is a condition and an effect on the table's value; the class beside them runs the
    operations on the table in place, and is proved to do exactly that. */
module ControlStore {
  import opened Options

  type Day = int
  type PressId = nat

  /** `owner` says which press wrote the lock.  The item itself does not record it, and nothing the
      store decides depends on it. */
  datatype Lock = Lock(launchId: string, acquiredAt: int, expiresAt: int, owner: PressId)

  /** The watchdog's own record; a time that cannot be read is none. */
  datatype Sweep = Sweep(scope: string, dispatchedAt: Option<int>)

  datatype Store = Store(engaged: bool, nonces: map<string, int>, lock: Option<Lock>, days: map<Day, int>,
                         sweep: Option<Sweep>)

  const EMPTY := Store(false, map[], None, map[], None)

  /** A store call works, fails without being applied, or is applied and fails all the same. */
  datatype Fault = Fine | FailsBefore | FailsAfter

  predicate CanRedeem(s: Store, nonce: string, now: int) {
    nonce != "" && nonce in s.nonces && s.nonces[nonce] > now
  }

  function Redeemed(s: Store, nonce: string): Store {
    s.(nonces := s.nonces - {nonce})
  }

  /** An expired lock may be taken over; a live one may not. */
  predicate CanTake(s: Store, now: int) {
    s.lock.None? || s.lock.value.expiresAt <= now
  }

  /** The first increment of a day is accepted whatever the cap says. */
  predicate CanCount(s: Store, day: Day, cap: int) {
    day !in s.days || s.days[day] < cap
  }

  function Launches(s: Store, day: Day): int {
    if day in s.days then s.days[day] else 0
  }

  function Counted(s: Store, day: Day): Store {
    s.(days := s.days[day := Launches(s, day) + 1])
  }

  /** `lock_is_expired`: a missing lock is not an expired one. */
  predicate LockIsExpired(lock: Option<Lock>, now: int) {
    lock.Some? && lock.value.expiresAt <= now
  }

  // ---------------------------------------------------------------- the table

  datatype Reply<+T> = Answered(value: T) | Unavailable

  class ControlTable {
    var engaged: bool
    var nonces: map<string, int>
    var lock: Option<Lock>
    var days: map<Day, int>
    var sweep: Option<Sweep>

    function Value(): Store
      reads this
    {
      Store(engaged, nonces, lock, days, sweep)
    }

    constructor ()
      ensures Value() == EMPTY
    {
      engaged, nonces, lock, days, sweep := false, map[], None, map[], None;
    }

    method GetFlag(fault: Fault) returns (r: Reply<bool>)
      ensures r == if fault == Fine then Answered(engaged) else Unavailable
    {
      r := if fault == Fine then Answered(engaged) else Unavailable;
    }

    method IssueNonce(nonce: string, expiresAt: int, fault: Fault) returns (r: Reply<()>)
      modifies `nonces
      ensures nonces == if fault == FailsBefore then old(nonces) else old(nonces)[nonce := expiresAt]
      ensures r.Answered? <==> fault == Fine
    {
      if fault != FailsBefore { nonces := nonces[nonce := expiresAt]; }
      r := if fault == Fine then Answered(()) else Unavailable;
    }

    /** The delete is the redemption, and it is conditional. */
    method RedeemNonce(nonce: string, now: int, fault: Fault) returns (r: Reply<bool>)
      modifies `nonces
      ensures Value() == if CanRedeem(old(Value()), nonce, now) && fault != FailsBefore then Redeemed(old(Value()), nonce)
                         else old(Value())
      ensures r == if nonce == "" then Answered(false)
                   else if fault != Fine then Unavailable else Answered(CanRedeem(old(Value()), nonce, now))
    {
      if nonce == "" { return Answered(false); }
      if fault == FailsBefore { return Unavailable; }
      var hit := nonce in nonces && nonces[nonce] > now;
      if hit { nonces := nonces - {nonce}; }
      r := if fault == Fine then Answered(hit) else Unavailable;
    }

    method TakeLock(launchId: string, expiresAt: int, now: int, owner: PressId, fault: Fault) returns (r: Reply<bool>)
      modifies `lock
      ensures lock == if CanTake(old(Value()), now) && fault != FailsBefore then Some(Lock(launchId, now, expiresAt, owner))
                      else old(lock)
      ensures r == if fault != Fine then Unavailable else Answered(CanTake(old(Value()), now))
    {
      if fault == FailsBefore { return Unavailable; }
      var hit := lock == None || lock.value.expiresAt <= now;
      if hit { lock := Some(Lock(launchId, now, expiresAt, owner)); }
      r := if fault == Fine then Answered(hit) else Unavailable;
    }

    method ReadLock(fault: Fault) returns (r: Reply<Option<Lock>>)
      ensures r == if fault == Fine then Answered(lock) else Unavailable
    {
      r := if fault == Fine then Answered(lock) else Unavailable;
    }

    /** Unconditional: it deletes whatever lock is there. */
    method ReleaseLock(fault: Fault) returns (r: Reply<()>)
      modifies `lock
      ensures lock == if fault == FailsBefore then old(lock) else None
      ensures r.Answered? <==> fault == Fine
    {
      if fault != FailsBefore { lock := None; }
      r := if fault == Fine then Answered(()) else Unavailable;
    }

    /** One conditional increment, never a read followed by a write. */
    method IncrementDay(day: Day, cap: int, fault: Fault) returns (r: Reply<Option<int>>)
      modifies `days
      ensures Value() == if CanCount(old(Value()), day, cap) && fault != FailsBefore then Counted(old(Value()), day)
                         else old(Value())
      ensures r == if fault != Fine then Unavailable
                   else if CanCount(old(Value()), day, cap) then Answered(Some(Launches(old(Value()), day) + 1)) else Answered(None)
    {
      if fault == FailsBefore { return Unavailable; }
      var hit := day !in days || days[day] < cap;
      if hit { days := days[day := (if day in days then days[day] else 0) + 1]; }
      r := if fault != Fine then Unavailable else if hit then Answered(Some(days[day])) else Answered(None);
    }

    method ReadSweep(fault: Fault) returns (r: Reply<Option<Sweep>>)
      ensures r == if fault == Fine then Answered(sweep) else Unavailable
    {
      r := if fault == Fine then Answered(sweep) else Unavailable;
    }

    method NoteSweep(scope: string, dispatchedAt: int, fault: Fault) returns (r: Reply<()>)
      modifies `sweep
      ensures sweep == if fault == FailsBefore then old(sweep) else Some(Sweep(scope, Some(dispatchedAt)))
      ensures r.Answered? <==> fault == Fine
    {
      if fault != FailsBefore { sweep := Some(Sweep(scope, Some(dispatchedAt))); }
      r := if fault == Fine then Answered(()) else Unavailable;
    }

    method ClearSweep(fault: Fault) returns (r: Reply<()>)
      modifies `sweep
      ensures sweep == if fault == FailsBefore then old(sweep) else None
      ensures r.Answered? <==> fault == Fine
    {
      if fault != FailsBefore { sweep := None; }
      r := if fault == Fine then Answered(()) else Unavailable;
    }
  }
}
