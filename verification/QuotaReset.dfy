/** When the daily quota resets: at the next midnight of one named zone, on days of any length. */
module QuotaReset {

  const DAY := 86400

  /** A time zone: what it adds to an instant, and the instant it gives a local time. */
  datatype Zone = Zone(offset: int -> int, instant: int -> int)

  function Local(z: Zone, t: int): int { t + z.offset(t) }

  /** The first instant that shows this local time. */
  ghost predicate FirstShows(z: Zone, local: int, t: int) {
    Local(z, t) == local && forall u | u < t :: Local(z, u) != local
  }

  ghost predicate Shown(z: Zone, local: int) {
    exists t :: Local(z, t) == local
  }

  /** The clock first jumps over this local time here, and never shows it. */
  ghost predicate SkippedAt(z: Zone, local: int, t: int) {
    !Shown(z, local) && Local(z, t - 1) < local < Local(z, t) && forall u | u < t :: Local(z, u) < local
  }

  /** Offsets stay within a day; a local time that is shown is given its first instant, and one that is
      skipped is read with the offset from before the jump. */
  ghost predicate IsZone(z: Zone) {
    && (forall t :: -DAY < z.offset(t) < DAY)
    && (forall local, t | FirstShows(z, local, t) :: z.instant(local) == t)
    && (forall local, t | SkippedAt(z, local, t) :: z.instant(local) == local - z.offset(t - 1))
  }

  /** `quota_day`: the local date, as a day number. */
  function QuotaDay(z: Zone, now: int): int {
    Local(z, now) / DAY
  }

  function NextMidnight(z: Zone, now: int): int {
    (QuotaDay(z, now) + 1) * DAY
  }

  /** `seconds_until_quota_reset`. */
  function SecondsUntilQuotaReset(z: Zone, now: int): int {
    z.instant(NextMidnight(z, now)) - now
  }

  ghost predicate DatesAreMonotone(z: Zone) {
    forall t, u | t <= u :: QuotaDay(z, t) <= QuotaDay(z, u)
  }

  ghost predicate NoChangeAtMidnight(z: Zone) {
    forall t | QuotaDay(z, t - 1) != QuotaDay(z, t) :: z.offset(t - 1) == z.offset(t)
  }

  /** The instant the date first changes after `now`. */
  ghost predicate DateTurns(z: Zone, now: int, turn: int) {
    now < turn && QuotaDay(z, turn) > QuotaDay(z, now) && forall t | now <= t < turn ::
                                                            QuotaDay(z, t) == QuotaDay(z, now)
  }

  /** The answer a caller counts on. */
  ghost predicate IsExact(z: Zone, now: int, seconds: int) {
    && seconds > 0
    && (forall t | now <= t < now + seconds :: QuotaDay(z, t) == QuotaDay(z, now))
    && QuotaDay(z, now + seconds) == QuotaDay(z, now) + 1
  }

  lemma {:induction false} TurnsBefore(z: Zone, now: int, late: int) returns (turn: int)
    requires DatesAreMonotone(z) && now <= late && QuotaDay(z, late) > QuotaDay(z, now)
    ensures DateTurns(z, now, turn)
    decreases late - now
  {
    if now < late && QuotaDay(z, late - 1) > QuotaDay(z, now) {
      turn := TurnsBefore(z, now, late - 1);
    } else {
      turn := late;
      forall t | now <= t < late ensures QuotaDay(z, t) == QuotaDay(z, now) {
        assert QuotaDay(z, now) <= QuotaDay(z, t) <= QuotaDay(z, late - 1);
      }
    }
  }

  /** Every date ends. */
  lemma DateAlwaysTurns(z: Zone, now: int) returns (turn: int)
    requires IsZone(z) && DatesAreMonotone(z)
    ensures DateTurns(z, now, turn)
  {
    var late := now + 3 * DAY;
    assert Local(z, late) >= Local(z, now) + DAY;
    turn := TurnsBefore(z, now, late);
  }

  lemma TurnIsFirstMidnight(z: Zone, now: int, turn: int)
    requires IsZone(z) && DatesAreMonotone(z) && DateTurns(z, now, turn) && Local(z, turn) == NextMidnight(z, now)
    ensures z.instant(NextMidnight(z, now)) == turn && IsExact(z, now, turn - now)
  {
    forall u | u < turn ensures Local(z, u) != NextMidnight(z, now) {
      if u >= now { assert QuotaDay(z, u) == QuotaDay(z, now); } else { assert QuotaDay(z, u) <= QuotaDay(z, now); }
    }
    assert FirstShows(z, NextMidnight(z, now), turn);
  }

  /** The next date begins at its midnight; or the clock jumps over that midnight from the last second before
      it, into that date. */
  ghost predicate BeginsAtMidnight(z: Zone, now: int, turn: int) {
    var midnight := NextMidnight(z, now);
    || Local(z, turn) == midnight
    || (!Shown(z, midnight) && Local(z, turn - 1) == midnight - 1 && QuotaDay(z, turn) == QuotaDay(z, now) + 1)
  }

  lemma BeforeTheTurn(z: Zone, now: int, turn: int)
    requires DatesAreMonotone(z) && DateTurns(z, now, turn)
    ensures forall u | u < turn :: Local(z, u) < NextMidnight(z, now)
    ensures Local(z, turn) >= NextMidnight(z, now)
  {
    forall u | u < turn ensures Local(z, u) < NextMidnight(z, now) {
      if u >= now { assert QuotaDay(z, u) == QuotaDay(z, now); } else { assert QuotaDay(z, u) <= QuotaDay(z, now); }
    }
  }

  /** An exact answer ends at the turn. */
  lemma ExactEndsAtTheTurn(z: Zone, now: int, turn: int, seconds: int)
    requires DateTurns(z, now, turn)
    ensures IsExact(z, now, seconds) <==> seconds == turn - now && QuotaDay(z, turn) == QuotaDay(z, now) + 1
  {
    if IsExact(z, now, seconds) {
      assert now + seconds <= turn ==> QuotaDay(z, now + seconds) != QuotaDay(z, now);
      assert turn < now + seconds ==> QuotaDay(z, turn) == QuotaDay(z, now);
    }
  }

  lemma SomeFirst(z: Zone, local: int, turn: int, t: int) returns (first: int)
    requires (forall u | u < turn :: Local(z, u) < local) && Local(z, t) == local
    ensures FirstShows(z, local, first) && turn <= first <= t
    decreases t - turn
  {
    if u :| turn <= u < t && Local(z, u) == local { first := SomeFirst(z, local, turn, u); } else { first := t; }
  }

  /** Where dates run forwards the answer is exact if and only if the next date begins at its midnight, shown or
      jumped from. */
  lemma ResetIsExactExactly(z: Zone, now: int, turn: int)
    requires IsZone(z) && DatesAreMonotone(z) && DateTurns(z, now, turn)
    ensures IsExact(z, now, SecondsUntilQuotaReset(z, now)) <==> BeginsAtMidnight(z, now, turn)
  {
    var midnight := NextMidnight(z, now);
    BeforeTheTurn(z, now, turn);
    ExactEndsAtTheTurn(z, now, turn, SecondsUntilQuotaReset(z, now));
    if Shown(z, midnight) {
      var t :| Local(z, t) == midnight;
      var first := SomeFirst(z, midnight, turn, t);
      assert z.instant(midnight) == first;
    } else {
      assert SkippedAt(z, midnight, turn);
    }
  }

  /** In a zone whose dates run forwards and whose offset never changes at a midnight, the answer is
      positive, the date holds until then, and then it is the next.  It is the wall-clock time left, less what the
      clock gains on the way: an hour less on the 23-hour day, an hour more on the 25-hour day. */
  lemma QuotaResetIsExact(z: Zone, now: int)
    requires IsZone(z) && DatesAreMonotone(z) && NoChangeAtMidnight(z)
    ensures var seconds := SecondsUntilQuotaReset(z, now);
            && IsExact(z, now, seconds)
            && seconds == NextMidnight(z, now) - Local(z, now) - (z.offset(now + seconds) - z.offset(now))
  {
    var turn := DateAlwaysTurns(z, now);
    assert QuotaDay(z, turn - 1) == QuotaDay(z, now);
    assert Local(z, turn) == Local(z, turn - 1) + 1;
    TurnIsFirstMidnight(z, now, turn);
  }
}
