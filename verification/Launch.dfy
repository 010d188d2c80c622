/** The launch endpoint: presses of the button that interleave one store call at a time, each call
    able to fail before or after it was applied. */
module Launch {
  import opened Options
  import opened ControlStore

  /** What one invocation is configured with. */
  datatype Config = Config(ttlSeconds: nat, cap: int, configured: bool, day: int -> Day)

  datatype Code =
    | BadRequest | KillSwitch | NotConfigured | BadNonce | GitHubSilent | Busy | Locked | DailyCap
    | StoreUnavailable | DispatchFailed | Launching | Died

  /** The call a press makes next, or how it ended. */
  datatype Stage =
    | ReadSwitch | Redeem | AskGitHub | TakeLock | Count | Dispatch
    | Release(because: Code)
    | Done(code: Code)

  /** A press: what it was asked, where it is, and what it has done to the store.  `took` and
      `released` are the turns at which the store took its lock and deleted for it. */
  datatype Press = Press(launchId: string, nonce: string, now: int, expiresAt: int, stage: Stage,
                         spent: bool, took: Option<nat>, tookTime: int, counted: Option<Day>,
                         allowed: bool, released: Option<nat>)

  datatype GitHub = Idle | Running | Silent

  /** What the world answers to one step: the store's fault, GitHub's list, the dispatch. */
  datatype Answer = Answer(fault: Fault, runs: GitHub, dispatched: bool)

  datatype State = State(store: Store, presses: map<PressId, Press>, clock: int, turn: nat, issues: map<string, nat>)

  const START := State(EMPTY, map[], 0, 0, map[])

  datatype Step =
    | Tick(seconds: nat)
    | Issue(nonce: string, ttl: int)
    | Expire(nonce: string)                                       // DynamoDB's own deletion
    | Begin(id: PressId, launchId: string, nonce: string)
    | Advance(id: PressId, answer: Answer)
    | Die(id: PressId)
    | Outside                                                     // somebody else deletes the lock

  // ---------------------------------------------------------------- one press

  predicate LaunchIdOk(id: string) {
    8 <= |id| <= 64 && forall k | 0 <= k < |id| :: 'a' <= id[k] <= 'z' || '0' <= id[k] <= '9' || id[k] == '-'
  }

  function NewPress(c: Config, launchId: string, nonce: string, now: int): Press {
    Press(launchId, nonce, now, now + c.ttlSeconds, if LaunchIdOk(launchId) then ReadSwitch else Done(BadRequest),
          false, None, 0, None, false, None)
  }

  /** One call of `decide_launch`, or of `_launch` after it: what it does to the store and where the
      press goes next. */
  function Called(c: Config, store: Store, id: PressId, p: Press, a: Answer, clock: int, turn: nat): (Store, Press) {
    match p.stage
    case ReadSwitch =>
      (store, p.(stage := if a.fault != Fine then Done(StoreUnavailable)
                          else if store.engaged then Done(KillSwitch)
                          else if !c.configured then Done(NotConfigured)
                          else Redeem))
    case Redeem =>
      var hit := CanRedeem(store, p.nonce, p.now) && a.fault != FailsBefore;
      (if hit then Redeemed(store, p.nonce) else store,
       p.(spent := hit,
          stage := if p.nonce == "" then Done(BadNonce)
                   else if a.fault != Fine then Done(StoreUnavailable)
                   else if hit then AskGitHub else Done(BadNonce)))
    case AskGitHub =>
      (store, p.(stage := match a.runs case Silent => Done(GitHubSilent) case Running => Done(Busy) case Idle => TakeLock))
    case TakeLock =>
      var hit := CanTake(store, p.now) && a.fault != FailsBefore;
      (if hit then store.(lock := Some(Lock(p.launchId, p.now, p.expiresAt, id))) else store,
       p.(took := if hit then Some(turn) else None, tookTime := if hit then clock else 0,
          stage := if a.fault != Fine then Done(StoreUnavailable) else if hit then Count else Done(Locked)))
    case Count =>
      var day := c.day(p.now);
      var hit := CanCount(store, day, c.cap) && a.fault != FailsBefore;
      (if hit then Counted(store, day) else store,
       p.(counted := if hit then Some(day) else None, allowed := hit && a.fault == Fine,
          stage := if a.fault != Fine then Release(StoreUnavailable) else if hit then Dispatch else Release(DailyCap)))
    case Dispatch =>
      (store, p.(stage := if a.dispatched then Done(Launching) else Release(DispatchFailed)))
    case Release(code) =>
      var hit := a.fault != FailsBefore;
      (if hit then store.(lock := None) else store,
       p.(released := if hit then Some(turn) else None, stage := Done(code)))
    case Done(_) => (store, p)
  }

  // ---------------------------------------------------------------- interleaving

  predicate Enabled(s: State, e: Step) {
    match e
    case Begin(id, _, _) => id !in s.presses
    case Advance(id, _) => id in s.presses
    case Die(id) => id in s.presses && !s.presses[id].stage.Done?
    case _ => true
  }

  function Issues(s: State, nonce: string): nat {
    if nonce in s.issues then s.issues[nonce] else 0
  }

  function Advanced(c: Config, s: State, id: PressId, a: Answer): State
    requires id in s.presses
  {
    var r := Called(c, s.store, id, s.presses[id], a, s.clock, s.turn);
    s.(store := r.0, presses := s.presses[id := r.1], turn := s.turn + 1)
  }

  function Apply(c: Config, s: State, e: Step): State
    requires Enabled(s, e)
  {
    match e
    case Tick(seconds) => s.(clock := s.clock + seconds)
    case Issue(nonce, ttl) => s.(store := s.store.(nonces := s.store.nonces[nonce := ttl]),
                                 issues := s.issues[nonce := Issues(s, nonce) + 1])
    case Expire(nonce) => s.(store := s.store.(nonces := s.store.nonces - {nonce}))
    case Begin(id, launchId, nonce) => s.(presses := s.presses[id := NewPress(c, launchId, nonce, s.clock)])
    case Advance(id, a) => Advanced(c, s, id, a)
    case Die(id) => s.(presses := s.presses[id := s.presses[id].(stage := Done(Died))])
    case Outside => s.(store := s.store.(lock := None))
  }

  predicate Run(c: Config, s: State, steps: seq<Step>, end: State)
    decreases steps
  {
    if steps == [] then s == end
    else Enabled(s, steps[0]) && Run(c, Apply(c, s, steps[0]), steps[1..], end)
  }

  lemma Prepend(c: Config, s: State, e: Step, rest: seq<Step>, end: State)
    requires Enabled(s, e) && Run(c, Apply(c, s, e), rest, end)
    ensures Run(c, s, [e] + rest, end)
  {
    hide Enabled, Apply;
    assert ([e] + rest)[1..] == rest;
  }

  lemma {:induction false} RunConcat(c: Config, s: State, first: seq<Step>, mid: State, second: seq<Step>, end: State)
    requires Run(c, s, first, mid) && Run(c, mid, second, end)
    ensures Run(c, s, first + second, end)
    decreases first
  {
    hide Enabled, Apply;
    if first == [] {
      assert first + second == second;
    } else {
      RunConcat(c, Apply(c, s, first[0]), first[1..], mid, second, end);
      Prepend(c, s, first[0], first[1..] + second, end);
      assert [first[0]] + (first[1..] + second) == first + second;
    }
  }
}
