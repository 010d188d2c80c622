/** `decide_launch` and `_launch` as they are written, over the table, proved to make exactly the
    calls the interleaved presses make. */
module LaunchHandler {
  import opened Options
  import opened ControlStore
  import opened Launch

  /** What the world answers to each call of one invocation. */
  datatype Answers = Answers(flag: Fault, redeem: Fault, runs: GitHub, take: Fault, increment: Fault, dispatched: bool,
                             release: Fault)

  function For(a: Answers, stage: Stage): Answer {
    match stage
    case ReadSwitch => Answer(a.flag, Idle, true)
    case Redeem => Answer(a.redeem, Idle, true)
    case AskGitHub => Answer(Fine, a.runs, true)
    case TakeLock => Answer(a.take, Idle, true)
    case Count => Answer(a.increment, Idle, true)
    case Dispatch => Answer(Fine, Idle, a.dispatched)
    case Release(_) => Answer(a.release, Idle, true)
    case Done(_) => Answer(Fine, Idle, true)
  }

  function CallsLeft(stage: Stage): nat {
    match stage
    case ReadSwitch => 7 case Redeem => 6 case AskGitHub => 5 case TakeLock => 4
    case Count => 3 case Dispatch => 2 case Release(_) => 1 case Done(_) => 0
  }

  /** A press that nobody interrupts, carried on until its decision: done, or about to dispatch. */
  function Decided(c: Config, store: Store, id: PressId, p: Press, a: Answers): (Store, Press)
    decreases CallsLeft(p.stage)
  {
    if p.stage.Done? || p.stage.Dispatch? then (store, p)
    else
      var r := Called(c, store, id, p, For(a, p.stage), p.now, 0);
      Decided(c, r.0, id, r.1, a)
  }

  /** And to its end. */
  function Finished(c: Config, store: Store, id: PressId, p: Press, a: Answers): (Store, Press)
    decreases CallsLeft(p.stage)
  {
    if p.stage.Done? then (store, p)
    else
      var r := Called(c, store, id, p, For(a, p.stage), p.now, 0);
      Finished(c, r.0, id, r.1, a)
  }

  method ReleaseQuietly(table: ControlTable, fault: Fault)
    modifies table`lock
    ensures table.lock == if fault == FailsBefore then old(table.lock) else None
  {
    var _ := table.ReleaseLock(fault);
  }

  /** The press after its next call, when the table is as `before` says. */
  ghost function After(c: Config, before: Store, id: PressId, p: Press, a: Answers): Press {
    Called(c, before, id, p, For(a, p.stage), p.now, 0).1
  }

  lemma OneCall(c: Config, before: Store, id: PressId, p: Press, a: Answers)
    requires !p.stage.Done? && !p.stage.Dispatch?
    ensures var r := Called(c, before, id, p, For(a, p.stage), p.now, 0);
            Decided(c, before, id, p, a) == Decided(c, r.0, id, r.1, a)
  {
  }

  /** When a press is let through, in the terms of the store's own fields and of what the world answered:
      the id is admitted, the switch is read and off, the endpoint is configured, the nonce is redeemed
      live, GitHub is idle, the lock is free or expired, and the day has room or was never counted. */
  predicate LetThrough(c: Config, was: Store, launchId: string, nonce: string, now: int, a: Answers) {
    && 8 <= |launchId| <= 64
    && (forall k | 0 <= k < |launchId| :: 'a' <= launchId[k] <= 'z' || '0' <= launchId[k] <= '9' || launchId[k] == '-')
    && a.flag == Fine && !was.engaged && c.configured
    && a.redeem == Fine && nonce != "" && nonce in was.nonces && was.nonces[nonce] > now
    && a.runs == Idle
    && a.take == Fine && (was.lock.None? || was.lock.value.expiresAt <= now)
    && a.increment == Fine && (c.day(now) !in was.days || was.days[c.day(now)] < c.cap)
  }

  /** `decide_launch`: every guardrail in order.  None means allowed, and the lock is taken and the
      day counted; a code means refused. */
  method DecideLaunch(table: ControlTable, c: Config, id: PressId, launchId: string, nonce: string, now: int,
                      a: Answers)
    returns (refusal: Option<Code>)
    modifies table
    ensures var end := Decided(c, old(table.Value()), id, NewPress(c, launchId, nonce, now), a);
            && table.Value() == end.0
            && (refusal.None? <==> end.1.stage == Launch.Dispatch)
            && (refusal.Some? ==> end.1.stage == Done(refusal.value))
    ensures refusal.None? <==> LetThrough(c, old(table.Value()), launchId, nonce, now, a)
  {
    hide LetThrough;
    AllowedExactly(c, table.Value(), id, launchId, nonce, now, a);
    if !LaunchIdOk(launchId) { return Some(BadRequest); }
    ghost var p := NewPress(c, launchId, nonce, now);
    OneCall(c, table.Value(), id, p, a);
    p := After(c, table.Value(), id, p, a);
    var flag := table.GetFlag(a.flag);
    if flag.Unavailable? { return Some(StoreUnavailable); }
    if flag.value { return Some(KillSwitch); }
    if !c.configured { return Some(NotConfigured); }
    OneCall(c, table.Value(), id, p, a);
    p := After(c, table.Value(), id, p, a);
    var redeemed := table.RedeemNonce(nonce, now, a.redeem);
    if redeemed.Unavailable? { return Some(StoreUnavailable); }
    if !redeemed.value { return Some(BadNonce); }
    OneCall(c, table.Value(), id, p, a);
    p := After(c, table.Value(), id, p, a);
    if a.runs.Silent? { return Some(GitHubSilent); }
    if a.runs.Running? { return Some(Busy); }
    OneCall(c, table.Value(), id, p, a);
    p := After(c, table.Value(), id, p, a);
    var taken := table.TakeLock(launchId, now + c.ttlSeconds, now, id, a.take);
    if taken.Unavailable? { return Some(StoreUnavailable); }
    if !taken.value { return Some(Locked); }
    refusal := CountLaunch(table, c, id, now, p, a);
  }

  /** The last guardrail: the conditional increment, and the release that goes with its refusal. */
  method CountLaunch(table: ControlTable, c: Config, id: PressId, now: int, ghost p: Press, a: Answers)
    returns (refusal: Option<Code>)
    requires p.stage == Launch.Count && p.now == now
    modifies table
    ensures var end := Decided(c, old(table.Value()), id, p, a);
            && table.Value() == end.0
            && (refusal.None? <==> end.1.stage == Launch.Dispatch)
            && (refusal.Some? ==> end.1.stage == Done(refusal.value))
  {
    OneCall(c, table.Value(), id, p, a);
    ghost var q := After(c, table.Value(), id, p, a);
    var count := table.IncrementDay(c.day(now), c.cap, a.increment);
    if count.Answered? && count.value.Some? { return None; }
    OneCall(c, table.Value(), id, q, a);
    ReleaseQuietly(table, a.release);
    return Some(if count.Unavailable? then StoreUnavailable else DailyCap);
  }

  /** `_launch`: decide, dispatch, and give the lock back when the dispatch fails. */
  method LaunchOnce(table: ControlTable, c: Config, id: PressId, launchId: string, nonce: string, now: int, a: Answers)
    returns (code: Code)
    modifies table
    ensures var end := Finished(c, old(table.Value()), id, NewPress(c, launchId, nonce, now), a);
            table.Value() == end.0 && end.1.stage == Done(code)
    ensures code == Launching <==> LetThrough(c, old(table.Value()), launchId, nonce, now, a) && a.dispatched
  {
    hide LetThrough;
    LaunchingExactly(c, table.Value(), id, launchId, nonce, now, a);
    ghost var p := NewPress(c, launchId, nonce, now);
    DecidedThenFinished(c, table.Value(), id, p, a);
    var refusal := DecideLaunch(table, c, id, launchId, nonce, now, a);
    if refusal.Some? { return refusal.value; }
    ghost var d := Decided(c, old(table.Value()), id, p, a).1;
    CallAgain(c, table.Value(), id, d, a);
    if a.dispatched { return Launching; }
    CallAgain(c, table.Value(), id, After(c, table.Value(), id, d, a), a);
    ReleaseQuietly(table, a.release);
    return DispatchFailed;
  }

  lemma CallAgain(c: Config, before: Store, id: PressId, p: Press, a: Answers)
    requires !p.stage.Done?
    ensures var r := Called(c, before, id, p, For(a, p.stage), p.now, 0);
            Finished(c, before, id, p, a) == Finished(c, r.0, id, r.1, a)
  {
  }

  lemma CallsFewer(c: Config, before: Store, id: PressId, p: Press, a: Answers)
    requires !p.stage.Done?
    ensures CallsLeft(After(c, before, id, p, a).stage) < CallsLeft(p.stage)
  {
    hide CanRedeem, Redeemed, CanTake, CanCount, Counted;
  }

  lemma {:induction false} DecidedThenFinished(c: Config, store: Store, id: PressId, p: Press, a: Answers)
    ensures var d := Decided(c, store, id, p, a);
            Finished(c, store, id, p, a) == Finished(c, d.0, id, d.1, a)
    decreases CallsLeft(p.stage)
  {
    if !p.stage.Done? && !p.stage.Dispatch? {
      var r := Called(c, store, id, p, For(a, p.stage), p.now, 0);
      DecidedThenFinished(c, r.0, id, r.1, a);
    }
  }

  /** How many calls of the interleaved machine one uninterrupted press is. */
  function Advances(c: Config, store: Store, id: PressId, p: Press, a: Answers): seq<Step>
    decreases CallsLeft(p.stage)
  {
    if p.stage.Done? then []
    else
      var r := Called(c, store, id, p, For(a, p.stage), p.now, 0);
      [Advance(id, For(a, p.stage))] + Advances(c, r.0, id, r.1, a)
  }

  /** The same press up to the turn and the second at which it took and gave back the lock. */
  function Timeless(p: Press): Press {
    p.(took := if p.took.Some? then Some(0) else None, released := if p.released.Some? then Some(0) else None,
       tookTime := 0)
  }

  /** An uninterrupted press is a run of the interleaved machine, with the same store and the same
      decision at its end. */
  lemma {:induction false} FinishedIsARun(c: Config, s: State, id: PressId, p: Press, a: Answers) returns (end: State)
    requires id in s.presses && Timeless(s.presses[id]) == Timeless(p)
    ensures Run(c, s, Advances(c, s.store, id, p, a), end)
    ensures id in end.presses && end.store == Finished(c, s.store, id, p, a).0
    ensures end.presses[id].stage == Finished(c, s.store, id, p, a).1.stage
    decreases CallsLeft(p.stage)
  {
    if p.stage.Done? {
      end := s;
    } else {
      hide Called;
      var answer := For(a, p.stage);
      var r := Called(c, s.store, id, p, answer, p.now, 0);
      var t := Apply(c, s, Advance(id, answer));
      CallsFewer(c, s.store, id, p, a);
      CalledIsTimeless(c, s, id, p, answer);
      end := FinishedIsARun(c, t, id, r.1, a);
      CallAgain(c, s.store, id, p, a);
      Prepend(c, s, Advance(id, answer), Advances(c, r.0, id, r.1, a), end);
    }
  }

  lemma CalledIsTimeless(c: Config, s: State, id: PressId, p: Press, answer: Answer)
    requires id in s.presses && Timeless(s.presses[id]) == Timeless(p)
    ensures var r := Called(c, s.store, id, p, answer, p.now, 0);
            var t := Advanced(c, s, id, answer);
            t.store == r.0 && Timeless(t.presses[id]) == Timeless(r.1)
  {
    hide CanRedeem, Redeemed, CanTake, CanCount, Counted;
    var q := s.presses[id];
    assert q == p.(took := q.took, released := q.released, tookTime := q.tookTime);
    match p.stage
    case ReadSwitch =>
    case Redeem =>
    case AskGitHub =>
    case TakeLock =>
    case Count =>
    case Dispatch =>
    case Release(_) =>
    case Done(_) =>
  }

  // ---------------------------------------------------------------- what a press leaves behind

  /** The store of a press that met no refusal up to its lock. */
  predicate Paid(c: Config, was: Store, p: Press) {
    CanRedeem(was, p.nonce, p.now)
  }

  function WithLock(c: Config, was: Store, id: PressId, p: Press): Store {
    Redeemed(was, p.nonce).(lock := Some(Lock(p.launchId, p.now, p.expiresAt, id)))
  }

  /** The store calls that must have been answered for a press to come to its lock. */
  predicate ToLock(a: Answers) {
    a.flag == Fine && a.redeem == Fine && a.take == Fine
  }

  /** How far the store has come when the press has come to a stage: nothing, the nonce, the nonce
      and the lock, those and the day's count - and, at the end, exactly what the code says. */
  predicate Left(c: Config, was: Store, id: PressId, store: Store, p: Press, a: Answers) {
    match p.stage
    case ReadSwitch => store == was
    case Redeem => a.flag == Fine && store == was
    case AskGitHub => a.flag == Fine && a.redeem == Fine && Paid(c, was, p) && store == Redeemed(was, p.nonce)
    case TakeLock => a.flag == Fine && a.redeem == Fine && Paid(c, was, p) && store == Redeemed(was, p.nonce)
    case Count => ToLock(a) && Paid(c, was, p) && CanTake(was, p.now) && store == WithLock(c, was, id, p)
    case Dispatch =>
      && ToLock(a) && a.increment == Fine && Paid(c, was, p) && CanTake(was, p.now)
      && store == Counted(WithLock(c, was, id, p), c.day(p.now))
    case Release(code) =>
      && ToLock(a) && (code == StoreUnavailable <==> a.increment != Fine) && Paid(c, was, p) && CanTake(was, p.now)
      && ReleaseStore(c, was, id, p, a, code, store.(lock := Some(Lock(p.launchId, p.now, p.expiresAt, id))))
      && store.lock == Some(Lock(p.launchId, p.now, p.expiresAt, id))
    case Done(code) => DoneStore(c, was, id, p, a, code, store)
  }

  /** A press that must give the lock back: its count stands if it was made, and is never refunded. */
  predicate ReleaseStore(c: Config, was: Store, id: PressId, p: Press, a: Answers, code: Code, held: Store) {
    var day := c.day(p.now);
    match code
    case DispatchFailed => held == Counted(WithLock(c, was, id, p), day)
    case DailyCap => held == WithLock(c, was, id, p) && !CanCount(was, day, c.cap)
    case StoreUnavailable =>
      held == if a.increment == FailsAfter && CanCount(was, day, c.cap) then Counted(WithLock(c, was, id, p), day)
              else WithLock(c, was, id, p)
    case _ => false
  }

  /** The lock is given back, unless the release failed before it was applied. */
  predicate GaveBack(store: Store, lock: Lock, a: Answers) {
    store.lock == if a.release == FailsBefore then Some(lock) else None
  }

  predicate DoneStore(c: Config, was: Store, id: PressId, p: Press, a: Answers, code: Code, store: Store) {
    var lock := Lock(p.launchId, p.now, p.expiresAt, id);
    match code
    case BadRequest => store == was
    case KillSwitch => store == was && was.engaged
    case NotConfigured => store == was && !c.configured
    case BadNonce => store == was && !CanRedeem(was, p.nonce, p.now)
    case GitHubSilent => store == Redeemed(was, p.nonce)
    case Busy => store == Redeemed(was, p.nonce)
    case Locked => store == Redeemed(was, p.nonce) && was.lock.Some? && was.lock.value.expiresAt > p.now
    case Launching => Paid(c, was, p) && CanTake(was, p.now) && store == Counted(WithLock(c, was, id, p), c.day(p.now))
    case DispatchFailed =>
      GaveBack(store, lock, a) && ReleaseStore(c, was, id, p, a, code, store.(lock := Some(lock)))
    case DailyCap =>
      GaveBack(store, lock, a) && ReleaseStore(c, was, id, p, a, code, store.(lock := Some(lock)))
    case StoreUnavailable =>
      if a.flag != Fine then store == was
      else if a.redeem != Fine then
        store == if a.redeem == FailsAfter && CanRedeem(was, p.nonce, p.now) then Redeemed(was, p.nonce) else was
      else if a.take != Fine then
        && Paid(c, was, p)
        && store == if a.take == FailsAfter && CanTake(was, p.now) then WithLock(c, was, id, p)
                    else Redeemed(was, p.nonce)
      else
        && a.increment != Fine && Paid(c, was, p) && CanTake(was, p.now)
        && GaveBack(store, lock, a) && ReleaseStore(c, was, id, p, a, code, store.(lock := Some(lock)))
    case Died => false
  }

  lemma EarlyCallLeaves(c: Config, was: Store, id: PressId, store: Store, p: Press, a: Answers)
    requires Left(c, was, id, store, p, a) && CallsLeft(p.stage) > 3
    ensures var r := Called(c, store, id, p, For(a, p.stage), p.now, 0); Left(c, was, id, r.0, r.1, a)
  {
    hide ReleaseStore;
  }

  lemma LateCallLeaves(c: Config, was: Store, id: PressId, store: Store, p: Press, a: Answers)
    requires Left(c, was, id, store, p, a) && (p.stage.Count? || p.stage.Dispatch?)
    ensures var r := Called(c, store, id, p, For(a, p.stage), p.now, 0); Left(c, was, id, r.0, r.1, a)
  {
  }

  lemma ReleaseLeaves(c: Config, was: Store, id: PressId, store: Store, p: Press, a: Answers)
    requires Left(c, was, id, store, p, a) && p.stage.Release?
    ensures var r := Called(c, store, id, p, For(a, p.stage), p.now, 0); Left(c, was, id, r.0, r.1, a)
  {
    var lock := Some(Lock(p.launchId, p.now, p.expiresAt, id));
    var r := Called(c, store, id, p, For(a, p.stage), p.now, 0);
    assert r.0.(lock := lock) == store.(lock := lock);
    hide WithLock, Counted;
  }

  /** However an uninterrupted press ends, its code - and, for an unavailable store, the first call that
      failed - says exactly what it left in the store. */
  lemma {:induction false} CodeTellsTheStore(c: Config, was: Store, id: PressId, store: Store, p: Press, a: Answers)
    requires Left(c, was, id, store, p, a)
    ensures var end := Finished(c, store, id, p, a);
            end.1.stage.Done? && Left(c, was, id, end.0, end.1, a)
    decreases CallsLeft(p.stage)
  {
    if !p.stage.Done? {
      hide Called, Left;
      var r := Called(c, store, id, p, For(a, p.stage), p.now, 0);
      CallsFewer(c, store, id, p, a);
      CallAgain(c, store, id, p, a);
      if CallsLeft(p.stage) > 3 { EarlyCallLeaves(c, was, id, store, p, a); }
      else if p.stage.Release? { ReleaseLeaves(c, was, id, store, p, a); }
      else { LateCallLeaves(c, was, id, store, p, a); }
      CodeTellsTheStore(c, was, id, r.0, r.1, a);
    }
  }

  // ---------------------------------------------------------------- when a press is let through

  lemma DecidedFromCount(c: Config, s: Store, id: PressId, p: Press, a: Answers)
    requires p.stage == Count
    ensures Decided(c, s, id, p, a).1.stage ==
            if a.increment != Fine then Done(StoreUnavailable)
            else if c.day(p.now) in s.days && s.days[c.day(p.now)] >= c.cap then Done(DailyCap)
            else Launch.Dispatch
  {
    hide Counted;
    OneCall(c, s, id, p, a);
    var r := Called(c, s, id, p, For(a, p.stage), p.now, 0);
    if r.1.stage.Release? { OneCall(c, r.0, id, r.1, a); }
  }

  lemma DecidedFromLock(c: Config, s: Store, id: PressId, p: Press, a: Answers)
    requires p.stage == TakeLock
    ensures Decided(c, s, id, p, a).1.stage ==
            if a.take != Fine then Done(StoreUnavailable)
            else if s.lock.Some? && s.lock.value.expiresAt > p.now then Done(Locked)
            else if a.increment != Fine then Done(StoreUnavailable)
            else if c.day(p.now) in s.days && s.days[c.day(p.now)] >= c.cap then Done(DailyCap)
            else Launch.Dispatch
  {
    hide Decided;
    OneCall(c, s, id, p, a);
    var r := Called(c, s, id, p, For(a, p.stage), p.now, 0);
    if r.1.stage == Count { DecidedFromCount(c, r.0, id, r.1, a); } else { DoneStays(c, r.0, id, r.1, a); }
  }

  lemma DoneStays(c: Config, s: Store, id: PressId, p: Press, a: Answers)
    requires p.stage.Done?
    ensures Decided(c, s, id, p, a) == Finished(c, s, id, p, a) == (s, p)
  {
  }

  /** What comes after the kill switch: the nonce, GitHub, the lock, the day. */
  lemma DecidedFromNonce(c: Config, s: Store, id: PressId, p: Press, a: Answers)
    requires p.stage == Redeem
    ensures Decided(c, s, id, p, a).1.stage ==
            if p.nonce == "" then Done(BadNonce)
            else if a.redeem != Fine then Done(StoreUnavailable)
            else if p.nonce !in s.nonces || s.nonces[p.nonce] <= p.now then Done(BadNonce)
            else if a.runs == Silent then Done(GitHubSilent)
            else if a.runs == Running then Done(Busy)
            else if a.take != Fine then Done(StoreUnavailable)
            else if s.lock.Some? && s.lock.value.expiresAt > p.now then Done(Locked)
            else if a.increment != Fine then Done(StoreUnavailable)
            else if c.day(p.now) in s.days && s.days[c.day(p.now)] >= c.cap then Done(DailyCap)
            else Launch.Dispatch
  {
    hide Decided;
    OneCall(c, s, id, p, a);
    var r := Called(c, s, id, p, For(a, p.stage), p.now, 0);
    if r.1.stage == AskGitHub {
      OneCall(c, r.0, id, r.1, a);
      var asked := Called(c, r.0, id, r.1, For(a, r.1.stage), p.now, 0);
      if asked.1.stage == TakeLock {
        DecidedFromLock(c, asked.0, id, asked.1, a);
      } else {
        DoneStays(c, asked.0, id, asked.1, a);
      }
    } else {
      DoneStays(c, r.0, id, r.1, a);
    }
  }

  /** The guardrails in their order, each in the terms of the store's own fields and of what the world
      answered: the first that fails is the refusal, and a press past all of them is let through. */
  lemma FirstFailedGuardrail(c: Config, was: Store, id: PressId, launchId: string, nonce: string, now: int, a: Answers)
    ensures Decided(c, was, id, NewPress(c, launchId, nonce, now), a).1.stage ==
            if !LaunchIdOk(launchId) then Done(BadRequest)
            else if a.flag != Fine then Done(StoreUnavailable)
            else if was.engaged then Done(KillSwitch)
            else if !c.configured then Done(NotConfigured)
            else if nonce == "" then Done(BadNonce)
            else if a.redeem != Fine then Done(StoreUnavailable)
            else if nonce !in was.nonces || was.nonces[nonce] <= now then Done(BadNonce)
            else if a.runs == Silent then Done(GitHubSilent)
            else if a.runs == Running then Done(Busy)
            else if a.take != Fine then Done(StoreUnavailable)
            else if was.lock.Some? && was.lock.value.expiresAt > now then Done(Locked)
            else if a.increment != Fine then Done(StoreUnavailable)
            else if c.day(now) in was.days && was.days[c.day(now)] >= c.cap then Done(DailyCap)
            else Launch.Dispatch
  {
    hide Decided, LaunchIdOk;
    var p := NewPress(c, launchId, nonce, now);
    if p.stage == ReadSwitch {
      OneCall(c, was, id, p, a);
      var r := Called(c, was, id, p, For(a, p.stage), p.now, 0);
      if r.1.stage == Redeem { DecidedFromNonce(c, r.0, id, r.1, a); } else { DoneStays(c, r.0, id, r.1, a); }
    } else {
      DoneStays(c, was, id, p, a);
    }
  }

  /** Exactly those presses come to their dispatch. */
  lemma AllowedExactly(c: Config, was: Store, id: PressId, launchId: string, nonce: string, now: int, a: Answers)
    ensures Decided(c, was, id, NewPress(c, launchId, nonce, now), a).1.stage == Launch.Dispatch <==>
            LetThrough(c, was, launchId, nonce, now, a)
  {
    hide Decided, NewPress;
    FirstFailedGuardrail(c, was, id, launchId, nonce, now, a);
  }

  /** And exactly those whose dispatch works launch. */
  lemma LaunchingExactly(c: Config, was: Store, id: PressId, launchId: string, nonce: string, now: int, a: Answers)
    ensures Finished(c, was, id, NewPress(c, launchId, nonce, now), a).1.stage == Done(Launching) <==>
            LetThrough(c, was, launchId, nonce, now, a) && a.dispatched
  {
    hide Decided, Finished, NewPress, LaunchIdOk, LetThrough;
    FirstFailedGuardrail(c, was, id, launchId, nonce, now, a);
    AllowedExactly(c, was, id, launchId, nonce, now, a);
    EndsAsDecided(c, was, id, NewPress(c, launchId, nonce, now), a);
  }

  /** What one call never touches of a press. */
  predicate SamePress(p: Press, q: Press) {
    p.launchId == q.launchId && p.nonce == q.nonce && p.now == q.now && p.expiresAt == q.expiresAt
  }

  lemma {:induction false} FinishedIsTheSamePress(c: Config, s: Store, id: PressId, p: Press, a: Answers)
    ensures SamePress(p, Finished(c, s, id, p, a).1)
    decreases CallsLeft(p.stage)
  {
    if !p.stage.Done? {
      CallAgain(c, s, id, p, a);
      CallsFewer(c, s, id, p, a);
      hide Finished, CanRedeem, Redeemed, CanTake, CanCount, Counted;
      var r := Called(c, s, id, p, For(a, p.stage), p.now, 0);
      assert SamePress(p, r.1);
      FinishedIsTheSamePress(c, r.0, id, r.1, a);
    }
  }

  /** A press that was let through ends as its dispatch did, and any other with its refusal. */
  lemma EndsAsDecided(c: Config, was: Store, id: PressId, p: Press, a: Answers)
    requires Decided(c, was, id, p, a).1.stage.Done? || Decided(c, was, id, p, a).1.stage == Launch.Dispatch
    ensures var d := Decided(c, was, id, p, a).1.stage;
            Finished(c, was, id, p, a).1.stage ==
            if d.Done? then d else if a.dispatched then Done(Launching) else Done(DispatchFailed)
  {
    DecidedThenFinished(c, was, id, p, a);
    var d := Decided(c, was, id, p, a);
    hide Decided;
    if d.1.stage.Done? {
      DoneStays(c, d.0, id, d.1, a);
    } else {
      CallAgain(c, d.0, id, d.1, a);
      var r := Called(c, d.0, id, d.1, For(a, d.1.stage), d.1.now, 0);
      if r.1.stage.Release? { CallAgain(c, r.0, id, r.1, a); }
    }
  }

  /** A press that launches leaves this store and no other: its nonce gone, its lock for the full time,
      the day counted once, the switch and the watchdog's record as they were. */
  lemma LaunchingLeaves(c: Config, was: Store, id: PressId, launchId: string, nonce: string, now: int, a: Answers)
    requires Finished(c, was, id, NewPress(c, launchId, nonce, now), a).1.stage == Done(Launching)
    ensures Finished(c, was, id, NewPress(c, launchId, nonce, now), a).0 ==
            var day := c.day(now);
            Store(was.engaged, was.nonces - {nonce}, Some(Lock(launchId, now, now + c.ttlSeconds, id)),
                  was.days[day := 1 + if day in was.days then was.days[day] else 0], was.sweep)
  {
    var p := NewPress(c, launchId, nonce, now);
    assert Left(c, was, id, was, p, a);
    CodeTellsTheStore(c, was, id, was, p, a);
    FinishedIsTheSamePress(c, was, id, p, a);
    hide Finished;
  }
}
