/** What the launch endpoint keeps over every run: the daily cap, the single use of a nonce, and -
    for presses that finish before their own deadline - one launch at a time. */
module LaunchSafety {
  import opened Options
  import opened ControlStore
  import opened Launch

  // ---------------------------------------------------------------- a press on its own

  /** A press holds the lock from the turn it took it to the turn it gave it back. */
  predicate Holding(p: Press) {
    p.took.Some? && p.released.None?
  }

  predicate Untouched(p: Press) {
    p.took.None? && p.released.None? && p.counted.None? && !p.allowed
  }

  predicate StageOk(p: Press) {
    match p.stage
    case ReadSwitch => Untouched(p) && !p.spent
    case Redeem => Untouched(p) && !p.spent
    case AskGitHub => Untouched(p) && p.spent
    case TakeLock => Untouched(p) && p.spent
    case Count => Holding(p) && p.counted.None? && !p.allowed && p.spent
    case Dispatch => Holding(p) && p.allowed
    case Release(code) => Holding(p) && (p.allowed <==> code == DispatchFailed)
    case Done(code) => p.allowed && p.released.Some? ==> code == DispatchFailed
  }

  predicate PressOk(c: Config, s: State, p: Press) {
    && StageOk(p)
    && p.now <= s.clock && p.expiresAt == p.now + c.ttlSeconds
    && (p.counted.Some? ==> p.counted == Some(c.day(p.now)))
    && (p.allowed ==> p.counted.Some? && p.spent && p.took.Some?)
    && (p.released.Some? ==> p.took.Some? && p.took.value < p.released.value < s.turn)
    && (p.took.Some? ==> p.took.value < s.turn && p.now <= p.tookTime <= s.clock)
  }

  predicate PressesOk(c: Config, s: State) {
    forall id | id in s.presses :: PressOk(c, s, s.presses[id])
  }

  lemma CalledPressOk(c: Config, s: State, id: PressId, a: Answer)
    requires PressesOk(c, s) && id in s.presses
    ensures PressOk(c, Advanced(c, s, id, a), Advanced(c, s, id, a).presses[id])
  {
    hide PressesOk, CanRedeem, Redeemed, CanTake, CanCount, Counted;
    assert PressOk(c, s, s.presses[id]) by { OnePressOk(c, s, id); }
  }

  lemma OnePressOk(c: Config, s: State, id: PressId)
    requires PressesOk(c, s) && id in s.presses
    ensures PressOk(c, s, s.presses[id])
  {
  }

  lemma PressesStay(c: Config, s: State, e: Step)
    requires PressesOk(c, s) && Enabled(s, e)
    ensures PressesOk(c, Apply(c, s, e))
  {
    hide StageOk;
    var t := Apply(c, s, e);
    if e.Advance? { CalledPressOk(c, s, e.id, e.answer); }
    if e.Begin? { NewPressOk(c, e.launchId, e.nonce, s.clock); }
    forall id | id in t.presses
      ensures PressOk(c, t, t.presses[id])
    {
      if id in s.presses && t.presses[id] == s.presses[id] {
        assert PressOk(c, s, s.presses[id]);
      } else if e.Die? {
        assert PressOk(c, s, s.presses[id]);
        DeadPressOk(s.presses[id]);
      }
    }
  }

  lemma NewPressOk(c: Config, launchId: string, nonce: string, now: int)
    ensures StageOk(NewPress(c, launchId, nonce, now))
  {
  }

  lemma DeadPressOk(p: Press)
    requires StageOk(p) && !p.stage.Done?
    ensures StageOk(p.(stage := Done(Died)))
  {
  }

  // ---------------------------------------------------------------- the cap

  function CountedOn(presses: map<PressId, Press>, day: Day): set<PressId> {
    set id | id in presses && presses[id].counted == Some(day)
  }

  function AllowedOn(c: Config, presses: map<PressId, Press>, day: Day): set<PressId> {
    set id | id in presses && presses[id].allowed && c.day(presses[id].now) == day
  }

  /** A day's counter is the number of presses it counted. */
  predicate DayOk(c: Config, s: State, day: Day) {
    && Launches(s.store, day) == |CountedOn(s.presses, day)|
    && Launches(s.store, day) <= (if c.cap >= 1 then c.cap else 1)
  }

  lemma CountedGrows(presses: map<PressId, Press>, id: PressId, p: Press, day: Day)
    requires id in presses ==> presses[id].counted.None? || p.counted == presses[id].counted
    ensures |CountedOn(presses[id := p], day)| == |CountedOn(presses, day)|
              + if (id !in presses || presses[id].counted.None?) && p.counted == Some(day) then 1 else 0
  {
    var before, after := CountedOn(presses, day), CountedOn(presses[id := p], day);
    if p.counted == Some(day) {
      assert after == before + {id};
    } else {
      assert after == before;
    }
  }

  lemma AdvanceKeepsDay(c: Config, s: State, id: PressId, a: Answer, day: Day)
    requires PressesOk(c, s) && DayOk(c, s, day) && id in s.presses
    ensures DayOk(c, Advanced(c, s, id, a), day)
  {
    hide CountedOn, PressesOk, CanRedeem, Redeemed, CanTake;
    var p := s.presses[id];
    assert PressOk(c, s, p) by { OnePressOk(c, s, id); }
    var r := Called(c, s.store, id, p, a, s.clock, s.turn);
    CountedGrows(s.presses, id, r.1, day);
    RedeemingCountsNothing(s.store, p.nonce, day);
  }

  lemma RedeemingCountsNothing(store: Store, nonce: string, day: Day)
    ensures Launches(Redeemed(store, nonce), day) == Launches(store, day)
  {
  }

  lemma DayStays(c: Config, s: State, e: Step, day: Day)
    requires PressesOk(c, s) && DayOk(c, s, day) && Enabled(s, e)
    ensures DayOk(c, Apply(c, s, e), day)
  {
    hide CountedOn, Called, PressesOk;
    match e
    case Begin(id, launchId, nonce) => CountedGrows(s.presses, id, NewPress(c, launchId, nonce, s.clock), day);
    case Die(id) => CountedGrows(s.presses, id, s.presses[id].(stage := Launch.Done(Died)), day);
    case Advance(id, a) => AdvanceKeepsDay(c, s, id, a, day);
    case _ =>
  }

  // ---------------------------------------------------------------- the nonces

  function Spenders(presses: map<PressId, Press>, nonce: string): set<PressId> {
    set id | id in presses && presses[id].nonce == nonce && presses[id].spent
  }

  /** Every issue is spent at most once; one that is still there has not been spent. */
  predicate NonceOk(s: State, nonce: string) {
    |Spenders(s.presses, nonce)| + (if nonce in s.store.nonces then 1 else 0) <= Issues(s, nonce)
  }

  lemma SpendersGrow(presses: map<PressId, Press>, id: PressId, p: Press, nonce: string)
    requires id in presses ==> p.nonce == presses[id].nonce && (presses[id].spent ==> p.spent)
    ensures |Spenders(presses[id := p], nonce)| == |Spenders(presses, nonce)|
              + if (id !in presses || !presses[id].spent) && p.spent && p.nonce == nonce then 1 else 0
  {
    var before, after := Spenders(presses, nonce), Spenders(presses[id := p], nonce);
    assert id in before ==> p.spent && p.nonce == nonce;
    if p.spent && p.nonce == nonce && id !in before {
      assert after == before + {id};
    } else {
      assert after == before;
    }
  }

  lemma NonceStays(c: Config, s: State, e: Step, nonce: string)
    requires PressesOk(c, s) && NonceOk(s, nonce) && Enabled(s, e)
    ensures NonceOk(Apply(c, s, e), nonce)
  {
    hide Spenders;
    match e
    case Begin(id, launchId, n) => SpendersGrow(s.presses, id, NewPress(c, launchId, n, s.clock), nonce);
    case Die(id) => SpendersGrow(s.presses, id, s.presses[id].(stage := Launch.Done(Died)), nonce);
    case Advance(id, a) =>
      assert PressOk(c, s, s.presses[id]);
      var r := Called(c, s.store, id, s.presses[id], a, s.clock, s.turn);
      SpendersGrow(s.presses, id, r.1, nonce);
    case _ =>
  }

  // ---------------------------------------------------------------- runs

  ghost predicate BudgetOk(c: Config, s: State) {
    PressesOk(c, s) && (forall day :: DayOk(c, s, day)) && (forall nonce :: NonceOk(s, nonce))
  }

  lemma {:induction false} BudgetRun(c: Config, s: State, steps: seq<Step>, end: State)
    requires BudgetOk(c, s) && Run(c, s, steps, end)
    ensures BudgetOk(c, end)
    decreases steps
  {
    hide PressesOk, DayOk, NonceOk, Apply, Enabled;
    if steps == [] {
    } else {
      var t := Apply(c, s, steps[0]);
      PressesStay(c, s, steps[0]);
      forall day ensures DayOk(c, t, day) { DayStays(c, s, steps[0], day); }
      forall nonce ensures NonceOk(t, nonce) { NonceStays(c, s, steps[0], nonce); }
      BudgetRun(c, t, steps[1..], end);
    }
  }

  lemma StartOk(c: Config)
    ensures BudgetOk(c, START)
  {
    forall day: Day ensures DayOk(c, START, day) { assert CountedOn(START.presses, day) == {}; }
    forall nonce ensures NonceOk(START, nonce) { assert Spenders(START.presses, nonce) == {}; }
  }

  lemma SubsetSize<T>(a: set<T>, b: set<T>)
    requires a <= b
    ensures |a| <= |b|
  {
    assert b == a + (b - a);
  }

  /** However presses interleave and whatever call fails, before or after it was applied: the
      launches allowed on a quota day are at most that day's counter, which is at most the cap. */
  lemma CapIsKept(c: Config, steps: seq<Step>, end: State, day: Day)
    requires c.cap >= 1 && Run(c, START, steps, end)
    ensures |AllowedOn(c, end.presses, day)| <= Launches(end.store, day) <= c.cap
  {
    StartOk(c);
    BudgetRun(c, START, steps, end);
    assert DayOk(c, end, day);
    assert PressesOk(c, end);
    forall id | id in AllowedOn(c, end.presses, day) ensures id in CountedOn(end.presses, day) {
      assert PressOk(c, end, end.presses[id]);
    }
    SubsetSize(AllowedOn(c, end.presses, day), CountedOn(end.presses, day));
  }

  /** A press redeems its nonce before anything is taken, and one issue pays for one redemption:
      launches allowed on a nonce never exceed the times it was issued. */
  lemma NonceIsSpentOnce(c: Config, steps: seq<Step>, end: State, nonce: string)
    requires Run(c, START, steps, end)
    ensures |Spenders(end.presses, nonce)| <= Issues(end, nonce)
    ensures forall id | id in end.presses && end.presses[id].allowed :: end.presses[id].spent
  {
    StartOk(c);
    BudgetRun(c, START, steps, end);
    assert NonceOk(end, nonce);
    forall id | id in end.presses && end.presses[id].allowed ensures end.presses[id].spent {
      assert PressOk(c, end, end.presses[id]);
    }
  }

  // ---------------------------------------------------------------- one at a time

  /** A press acts before its own deadline, and nobody outside touches the lock. */
  predicate Timely(s: State, e: Step) {
    && !e.Outside?
    && (e.Advance? ==> e.id in s.presses && s.clock < s.presses[e.id].expiresAt)
  }

  predicate TimelyRun(c: Config, s: State, steps: seq<Step>)
    decreases steps
  {
    steps == [] || (Enabled(s, steps[0]) && Timely(s, steps[0]) && TimelyRun(c, Apply(c, s, steps[0]), steps[1..]))
  }

  function LockOf(id: PressId, p: Press): Lock {
    Lock(p.launchId, p.now, p.expiresAt, id)
  }

  /** Whoever holds an unexpired lock, it is the lock in the store. */
  predicate HoldersOk(s: State) {
    forall id | id in s.presses && Holding(s.presses[id]) && s.clock < s.presses[id].expiresAt ::
      s.store.lock == Some(LockOf(id, s.presses[id]))
  }

  /** `p` took the lock first, and `q` took it inside the window `p` was given. */
  predicate Overlap(p: Press, q: Press) {
    p.took.Some? && q.took.Some? && p.took.value < q.took.value && q.tookTime < p.expiresAt
  }

  predicate GaveBackFirst(p: Press, q: Press) {
    Overlap(p, q) ==> p.released.Some? && p.released.value < q.took.value
  }

  predicate WindowsOk(s: State) {
    forall i, j | i in s.presses && j in s.presses && i != j :: GaveBackFirst(s.presses[i], s.presses[j])
  }

  predicate Exclusive(s: State) {
    HoldersOk(s) && WindowsOk(s)
  }

  /** While anybody holds an unexpired lock, a press that has not taken it cannot. */
  lemma NoTakeover(c: Config, s: State, id: PressId, a: Answer, other: PressId)
    requires PressesOk(c, s) && HoldersOk(s) && id in s.presses && other in s.presses && other != id
    requires s.presses[id].stage == Launch.TakeLock && CanTake(s.store, s.presses[id].now)
    ensures s.clock >= s.presses[other].expiresAt || !Holding(s.presses[other])
  {
    assert PressOk(c, s, s.presses[id]);
  }

  lemma AdvanceHolders(c: Config, s: State, id: PressId, a: Answer)
    requires PressesOk(c, s) && HoldersOk(s) && id in s.presses && s.clock < s.presses[id].expiresAt
    ensures HoldersOk(Advanced(c, s, id, a))
  {
    var t := Advanced(c, s, id, a);
    var p := s.presses[id];
    assert PressOk(c, s, p);
    forall other | other in t.presses && Holding(t.presses[other]) && t.clock < t.presses[other].expiresAt
      ensures t.store.lock == Some(LockOf(other, t.presses[other]))
    {
      if other != id {
        if p.stage == Launch.TakeLock && CanTake(s.store, p.now) { NoTakeover(c, s, id, a, other); }
      }
    }
  }

  lemma AdvanceWindows(c: Config, s: State, id: PressId, a: Answer)
    requires PressesOk(c, s) && HoldersOk(s) && WindowsOk(s) && id in s.presses && s.clock < s.presses[id].expiresAt
    ensures WindowsOk(Advanced(c, s, id, a))
  {
    var t := Advanced(c, s, id, a);
    var p := s.presses[id];
    assert PressOk(c, s, p);
    forall i, j | i in t.presses && j in t.presses && i != j
      ensures GaveBackFirst(t.presses[i], t.presses[j])
    {
      assert PressOk(c, s, s.presses[i]) && PressOk(c, s, s.presses[j]);
      assert GaveBackFirst(s.presses[i], s.presses[j]);
      if j == id && p.stage == Launch.TakeLock && CanTake(s.store, p.now) { NoTakeover(c, s, id, a, i); }
    }
  }

  lemma ExclusiveStays(c: Config, s: State, e: Step)
    requires PressesOk(c, s) && Exclusive(s) && Enabled(s, e) && Timely(s, e)
    ensures Exclusive(Apply(c, s, e))
  {
    hide StageOk, Called;
    match e
    case Advance(id, a) =>
      AdvanceHolders(c, s, id, a);
      AdvanceWindows(c, s, id, a);
    case Begin(id, launchId, nonce) => NewPressOk(c, launchId, nonce, s.clock);
    case Die(_) =>
    case Tick(_) =>
    case Issue(_, _) =>
    case Expire(_) =>
  }

  lemma {:induction false} ExclusiveRun(c: Config, s: State, steps: seq<Step>, end: State)
    requires PressesOk(c, s) && Exclusive(s) && Run(c, s, steps, end) && TimelyRun(c, s, steps)
    ensures PressesOk(c, end) && Exclusive(end)
    decreases steps
  {
    hide PressesOk, Exclusive, Apply, Enabled, Timely;
    if steps == [] {
    } else {
      PressesStay(c, s, steps[0]);
      ExclusiveStays(c, s, steps[0]);
      ExclusiveRun(c, Apply(c, s, steps[0]), steps[1..], end);
    }
  }

  /** Over presses alone, each acting before its own deadline: a release always finds the
      releaser's own lock in the store. */
  lemma ReleaseIsOfOnesOwn(c: Config, steps: seq<Step>, s: State, id: PressId)
    requires Run(c, START, steps, s) && TimelyRun(c, START, steps)
    requires id in s.presses && s.presses[id].stage.Release? && s.clock < s.presses[id].expiresAt
    ensures s.store.lock == Some(LockOf(id, s.presses[id]))
  {
    ExclusiveRun(c, START, steps, s);
    assert PressOk(c, s, s.presses[id]);
  }

  /** Two allowed presses whose lock windows overlap: the earlier one's dispatch failed, and it gave
      the lock back before the later one took it. */
  lemma OneLaunchAtATime(c: Config, steps: seq<Step>, s: State, i: PressId, j: PressId)
    requires Run(c, START, steps, s) && TimelyRun(c, START, steps)
    requires i in s.presses && j in s.presses && i != j && s.presses[i].allowed && s.presses[j].allowed
    requires Overlap(s.presses[i], s.presses[j])
    ensures s.presses[i].stage == Launch.Done(DispatchFailed)
    ensures s.presses[i].released.Some? && s.presses[i].released.value < s.presses[j].took.value
  {
    ExclusiveRun(c, START, steps, s);
    assert PressOk(c, s, s.presses[i]) && GaveBackFirst(s.presses[i], s.presses[j]);
  }

  // ---------------------------------------------------------------- how long a press may take

  /** Nobody outside touches the lock, and a press acts only within this many seconds of its start. */
  predicate InTime(s: State, e: Step, limit: int) {
    && !e.Outside?
    && (e.Advance? ==> e.id in s.presses && s.clock < s.presses[e.id].now + limit)
  }

  /** A run whose presses all keep to the limit. */
  predicate LimitedRun(c: Config, s: State, steps: seq<Step>, end: State, limit: int)
    decreases steps
  {
    if steps == [] then s == end
    else Enabled(s, steps[0]) && InTime(s, steps[0], limit) && LimitedRun(c, Apply(c, s, steps[0]), steps[1..], end, limit)
  }

  lemma {:induction false} LimitedIsRun(c: Config, s: State, steps: seq<Step>, end: State, limit: int)
    requires LimitedRun(c, s, steps, end, limit)
    ensures Run(c, s, steps, end)
    decreases steps
  {
    hide Enabled, Apply, InTime;
    if steps == [] {
    } else {
      LimitedIsRun(c, Apply(c, s, steps[0]), steps[1..], end, limit);
    }
  }

  /** A limit no longer than the lock's time keeps every press before its own deadline. */
  lemma {:induction false} LimitedIsTimely(c: Config, s: State, steps: seq<Step>, end: State, limit: int)
    requires PressesOk(c, s) && LimitedRun(c, s, steps, end, limit) && limit <= c.ttlSeconds
    ensures TimelyRun(c, s, steps)
    decreases steps
  {
    hide Apply, Enabled;
    if steps == [] {
    } else {
      var e := steps[0];
      PressesStay(c, s, e);
      if e.Advance? { assert PressOk(c, s, s.presses[e.id]); }
      LimitedIsTimely(c, Apply(c, s, e), steps[1..], end, limit);
    }
  }

  lemma LimitedPrepend(c: Config, s: State, e: Step, rest: seq<Step>, end: State, limit: int)
    requires Enabled(s, e) && InTime(s, e, limit) && LimitedRun(c, Apply(c, s, e), rest, end, limit)
    ensures LimitedRun(c, s, [e] + rest, end, limit)
  {
    hide Enabled, Apply, InTime;
    assert ([e] + rest)[1..] == rest;
  }

  lemma {:induction false} LimitedConcat(c: Config, s: State, first: seq<Step>, mid: State, second: seq<Step>,
                                         end: State, limit: int)
    requires LimitedRun(c, s, first, mid, limit) && LimitedRun(c, mid, second, end, limit)
    ensures LimitedRun(c, s, first + second, end, limit)
    decreases first
  {
    hide Enabled, Apply, InTime;
    if first == [] {
      assert first + second == second;
    } else {
      LimitedConcat(c, Apply(c, s, first[0]), first[1..], mid, second, end, limit);
      LimitedPrepend(c, s, first[0], first[1..] + second, end, limit);
      assert [first[0]] + (first[1..] + second) == first + second;
    }
  }

  lemma OneStep(c: Config, start: State, steps: seq<Step>, s: State, e: Step, limit: int)
    requires LimitedRun(c, start, steps, s, limit) && Enabled(s, e) && InTime(s, e, limit)
    ensures LimitedRun(c, start, steps + [e], Apply(c, s, e), limit)
  {
    hide Enabled, Apply, InTime;
    assert LimitedRun(c, Apply(c, s, e), [], Apply(c, s, e), limit);
    LimitedPrepend(c, s, e, [], Apply(c, s, e), limit);
    assert [e] + [] == [e];
    LimitedConcat(c, start, steps, s, [e], Apply(c, s, e), limit);
  }

  // ---------------------------------------------------------------- where the conditions come from

  const WELL := Answer(Fine, Idle, true)
  const NAME := "aaaaaaaa"

  /** A nonce is issued and a press begins with it. */
  lemma PressBegins(c: Config, s: State, id: PressId, nonce: string, limit: int) returns (steps: seq<Step>, t: State)
    requires id !in s.presses
    ensures LimitedRun(c, s, steps, t, limit)
    ensures t ==
            s.(store := s.store.(nonces := s.store.nonces[nonce := s.clock + 1]),
               issues := s.issues[nonce := Issues(s, nonce) + 1],
                    presses := s.presses[id := NewPress(c, NAME, nonce, s.clock)])
  {
    var issue, begin := Issue(nonce, s.clock + 1), Begin(id, NAME, nonce);
    assert LimitedRun(c, s, [], s, limit);
    OneStep(c, s, [], s, issue, limit);
    var mid := Apply(c, s, issue);
    OneStep(c, s, [] + [issue], mid, begin, limit);
    steps, t := [] + [issue] + [begin], Apply(c, mid, begin);
  }

  /** A call that goes well, appended. */
  lemma CallWell(c: Config, start: State, steps: seq<Step>, s: State, id: PressId, limit: int)
    returns (more: seq<Step>, t: State)
    requires LimitedRun(c, start, steps, s, limit) && id in s.presses && s.clock < s.presses[id].now + limit
    ensures LimitedRun(c, start, more, t, limit) && t == Advanced(c, s, id, WELL)
  {
    hide Called;
    OneStep(c, start, steps, s, Advance(id, WELL), limit);
    more, t := steps + [Advance(id, WELL)], Advanced(c, s, id, WELL);
  }

  /** What the first four calls do when nothing goes wrong. */
  lemma WellCalled(c: Config, store: Store, id: PressId, p: Press, clock: int, turn: nat)
    ensures var r := Called(c, store, id, p, WELL, clock, turn);
            && (p.stage == Launch.ReadSwitch && !store.engaged && c.configured ==> r == (store, p.(stage := Launch.Redeem)))
            && (p.stage == Launch.Redeem && CanRedeem(store, p.nonce, p.now) ==>
                  r == (Redeemed(store, p.nonce), p.(spent := true, stage := Launch.AskGitHub)))
            && (p.stage == Launch.AskGitHub ==> r == (store, p.(stage := Launch.TakeLock)))
            && (p.stage == Launch.TakeLock && CanTake(store, p.now) ==>
                  r ==
                      (store.(lock := Some(LockOf(id, p))), p.(took := Some(turn), tookTime := clock, stage := Launch.Count)))
  {
  }

  /** A press with a nonce of its own redeems it. */
  lemma PressRedeems(c: Config, s: State, id: PressId, nonce: string, limit: int) returns (steps: seq<Step>, t: State)
    requires c.configured && !s.store.engaged && id !in s.presses && nonce != "" && limit > 0
    ensures LimitedRun(c, s, steps, t, limit)
    ensures t.clock == s.clock && t.store == s.store.(nonces := t.store.nonces)
    ensures t.presses == s.presses[id := NewPress(c, NAME, nonce, s.clock).(spent := true, stage := Launch.AskGitHub)]
  {
    hide LimitedRun, Called;
    assert LaunchIdOk(NAME);
    var a, s1 := PressBegins(c, s, id, nonce, limit);
    WellCalled(c, s1.store, id, s1.presses[id], s1.clock, s1.turn);
    var b, s2 := CallWell(c, s, a, s1, id, limit);
    WellCalled(c, s2.store, id, s2.presses[id], s2.clock, s2.turn);
    steps, t := CallWell(c, s, b, s2, id, limit);
  }

  /** ...and meets no refusal: after two more calls it has taken the lock, and its next call counts
      it. */
  lemma PressTakesLock(c: Config, s: State, id: PressId, nonce: string, limit: int) returns (steps: seq<Step>, t: State)
    requires c.configured && !s.store.engaged && id !in s.presses && nonce != "" && CanTake(s.store, s.clock)
    requires limit > 0
    ensures LimitedRun(c, s, steps, t, limit)
    ensures t.clock == s.clock && t.store.days == s.store.days && !t.store.engaged
    ensures t.store.lock == Some(Lock(NAME, s.clock, s.clock + c.ttlSeconds, id))
    ensures t.presses.Keys == s.presses.Keys + {id} && t.presses[id].stage == Launch.Count
    ensures t.presses[id].now == s.clock
    ensures forall other | other in s.presses :: t.presses[other] == s.presses[other]
  {
    hide LimitedRun, Called, LaunchIdOk;
    var a, s1 := PressRedeems(c, s, id, nonce, limit);
    WellCalled(c, s1.store, id, s1.presses[id], s1.clock, s1.turn);
    var b, s2 := CallWell(c, s, a, s1, id, limit);
    WellCalled(c, s2.store, id, s2.presses[id], s2.clock, s2.turn);
    steps, t := CallWell(c, s, b, s2, id, limit);
  }

  /** The cap is kept over every run exactly when it is at least one: the first increment of a day
      is accepted whatever the cap says. */
  lemma CapIsKeptExactly(c: Config)
    requires c.configured
    ensures (forall steps, end: State, day :: Run(c, START, steps, end) ==> Launches(end.store, day) <= c.cap) <==>
            c.cap >= 1
  {
    if c.cap >= 1 {
      forall steps, end: State, day | Run(c, START, steps, end)
        ensures Launches(end.store, day) <= c.cap
      {
        CapIsKept(c, steps, end, day);
      }
    } else {
      var steps, t := PressTakesLock(c, START, 0, "n", 1);
      var more, end := CallWell(c, START, steps, t, 0, 1);
      LimitedIsRun(c, START, more, end, 1);
      assert Launches(end.store, c.day(0)) == 1;
    }
  }

  /** A press that is about to release in time. */
  predicate ReleasesInTime(s: State, id: PressId, limit: int) {
    id in s.presses && s.presses[id].stage.Release? && s.clock < s.presses[id].now + limit
  }

  /** Allowed longer than its lock lasts, a press can come to release somebody else's: its dispatch fails
      after its lock ran out and another press took the lock. */
  lemma LateReleaseIsOfAnothers(c: Config, limit: int) returns (steps: seq<Step>, s: State)
    requires c.configured && c.cap >= 1 && limit > c.ttlSeconds
    ensures LimitedRun(c, START, steps, s, limit) && ReleasesInTime(s, 0, limit)
    ensures s.store.lock.Some? && s.store.lock.value.owner == 1
  {
    hide LimitedRun, Called;
    var first, s1 := PressTakesLock(c, START, 0, "n", limit);
    var wait, fail := Tick(c.ttlSeconds), Advance(0, Answer(Fine, Idle, false));
    var counted, s2 := CallWell(c, START, first, s1, 0, limit);
    CountsFirst(c, s1, 0);
    OneStep(c, START, counted, s2, wait, limit);
    var s3 := Apply(c, s2, wait);
    var second, s4 := PressTakesLock(c, s3, 1, "m", limit);
    LimitedConcat(c, START, counted + [wait], s3, second, s4, limit);
    OneStep(c, START, counted + [wait] + second, s4, fail, limit);
    steps, s := counted + [wait] + second + [fail], Apply(c, s4, fail);
    DispatchFails(c, s4, 0);
  }

  lemma CountsFirst(c: Config, s: State, id: PressId)
    requires id in s.presses && s.presses[id].stage == Launch.Count && s.store.days == map[] && c.cap >= 1
    ensures var t := Advanced(c, s, id, WELL);
            && t.presses == s.presses[id := t.presses[id]] && t.presses[id].stage == Launch.Dispatch
            && t.presses[id].now == s.presses[id].now && t.store == s.store.(days := t.store.days) && t.clock == s.clock
  {
  }

  lemma DispatchFails(c: Config, s: State, id: PressId)
    requires id in s.presses && s.presses[id].stage == Launch.Dispatch
    ensures var t := Advanced(c, s, id, Answer(Fine, Idle, false));
            && t.presses[id].stage.Release? && t.presses[id].now == s.presses[id].now && t.store == s.store && t.clock == s.clock
  {
  }

  /** Whoever releases in time releases its own lock, in every run kept to the limit. */
  ghost predicate OnlyOwnReleases(c: Config, limit: int) {
    forall steps, s: State, id | LimitedRun(c, START, steps, s, limit) && ReleasesInTime(s, id, limit) ::
      s.store.lock == Some(LockOf(id, s.presses[id]))
  }

  /** Over runs of presses alone, each acting within the limit, every release deletes the releaser's own
      lock, if and only if the limit is no longer than the lock's time. */
  lemma OwnReleasesExactly(c: Config, limit: int)
    requires c.configured && c.cap >= 1
    ensures OnlyOwnReleases(c, limit) <==> limit <= c.ttlSeconds
  {
    hide LimitedRun;
    if limit <= c.ttlSeconds {
      forall steps, s: State, id | LimitedRun(c, START, steps, s, limit) && ReleasesInTime(s, id, limit)
        ensures s.store.lock == Some(LockOf(id, s.presses[id]))
      {
        LimitedIsRun(c, START, steps, s, limit);
        StartOk(c);
        LimitedIsTimely(c, START, steps, s, limit);
        BudgetRun(c, START, steps, s);
        assert PressOk(c, s, s.presses[id]);
        ReleaseIsOfOnesOwn(c, steps, s, id);
      }
    } else {
      var steps, s := LateReleaseIsOfAnothers(c, limit);
    }
  }
}
