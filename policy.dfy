/**
 * The logout decision (`shouldLogout`): two rules tried in order, the first
 * that fires wins.  The hard cap / end of day rule comes first and nothing
 * suppresses it; the idle rule applies only when no booking is active.
 */
module SessionPolicy {
  import opened SessionStore

  /** Idle limit: 90 minutes without recognised activity. */
  const IDLE_LOGOUT_MS: int := 90 * 60 * 1000

  datatype Reason = HardCapOrEod | IdleTimeout {
    /** The reason string handed to the logout sequence. */
    function Why(): string {
      match this
      case HardCapOrEod => "hard_cap_or_eod"
      case IdleTimeout => "idle_timeout"
    }
  }

  /** `{yes:false}` or `{yes:true, why}`. */
  datatype Verdict = Stay | Logout(reason: Reason)

  /** The session window has ended: an end is set and `now` is past it. */
  predicate PastWindow(m: Store, now: int)
  {
    StampAt(m, ExpiresKey) != 0 && now > StampAt(m, ExpiresKey)
  }

  /** The rider has been idle for more than 90 minutes (a last activity is set). */
  predicate IdleTooLong(m: Store, now: int)
  {
    StampAt(m, LastActiveKey) != 0 && now - StampAt(m, LastActiveKey) > IDLE_LOGOUT_MS
  }

  /**
   * `shouldLogout(hasActiveForSession)` evaluated at `now` on store `m`.
   * A session past its window is logged out for the hard cap whatever the
   * bookings; otherwise it is logged out for idleness exactly when it has
   * been idle too long and no booking is active; otherwise it stays.
   */
  function ShouldLogout(m: Store, now: int, hasActiveForSession: bool): (v: Verdict)
    ensures PastWindow(m, now) ==> v == Logout(HardCapOrEod)
    ensures v == Logout(HardCapOrEod) ==> PastWindow(m, now)
    ensures v == Logout(IdleTimeout) <==> !PastWindow(m, now) && !hasActiveForSession && IdleTooLong(m, now)
    ensures hasActiveForSession && !PastWindow(m, now) ==> v == Stay
    ensures v == Stay <==> !PastWindow(m, now) && (hasActiveForSession || !IdleTooLong(m, now))
  {
    var lastActive := StampAt(m, LastActiveKey);
    var expiresAt := StampAt(m, ExpiresKey);
    if expiresAt != 0 && now > expiresAt then Logout(HardCapOrEod)
    else if !hasActiveForSession && lastActive != 0 && now - lastActive > IDLE_LOGOUT_MS then Logout(IdleTimeout)
    else Stay
  }

  /** With neither a last activity nor a window end stored, no rule can fire. */
  lemma NothingStoredNeverLogsOut(m: Store, now: int, hasActiveForSession: bool)
    requires StampAt(m, LastActiveKey) == 0 && StampAt(m, ExpiresKey) == 0
    ensures ShouldLogout(m, now, hasActiveForSession) == Stay
  {
  }

  /**
   * The idle limit is strict: one millisecond short of 90 minutes, and at
   * exactly 90 minutes, the rider stays; one millisecond past it, an idle
   * rider with no active booking is logged out, and one with an active
   * booking stays.
   */
  lemma IdleBoundary(m: Store, t0: int)
    requires t0 != 0 && StampAt(m, LastActiveKey) == t0
    requires StampAt(m, ExpiresKey) == 0 || StampAt(m, ExpiresKey) >= t0 + IDLE_LOGOUT_MS + 1
    ensures ShouldLogout(m, t0 + IDLE_LOGOUT_MS - 1, false) == Stay
    ensures ShouldLogout(m, t0 + IDLE_LOGOUT_MS, false) == Stay
    ensures ShouldLogout(m, t0 + IDLE_LOGOUT_MS + 1, false) == Logout(IdleTimeout)
    ensures ShouldLogout(m, t0 + IDLE_LOGOUT_MS + 1, true) == Stay
  {
  }

  /**
   * The hard cap is measured from the touch that opened the window, not from
   * the last activity: after a first touch at `first` on a store with no
   * window, and any touches after it, every evaluation later than the cap or
   * the end of that first day logs out for the hard cap, booking or no
   * booking; and before it, with a booking active, the rider always stays.
   */
  lemma {:induction false} CapCountsFromWindowStart(m: Store, first: Instant, later: seq<Instant>, now: int, hasActiveForSession: bool)
    requires !HasWindow(m)
    requires first.now > 0 && first.endOfDay >= first.now
    ensures var s := TouchedAt(Touched(m, first.now, first.endOfDay), later);
            var end := Min(first.now + HARD_CAP_MS, first.endOfDay);
            (now > end ==> ShouldLogout(s, now, hasActiveForSession) == Logout(HardCapOrEod)) &&
            (now <= end && hasActiveForSession ==> ShouldLogout(s, now, hasActiveForSession) == Stay)
  {
    var m1 := Touched(m, first.now, first.endOfDay);
    assert StampAt(m1, ExpiresKey) == Min(first.now + HARD_CAP_MS, first.endOfDay);
    WindowSurvivesTouches(m1, later);
  }

  /**
   * An evaluation that directly follows a touch, within 90 minutes of it,
   * never logs out for idleness: the touch has just reset the last activity.
   */
  lemma TouchThenEvaluateNeverIdle(m: Store, now: int, evalNow: int, endOfDay: int, hasActiveForSession: bool)
    requires evalNow - now <= IDLE_LOGOUT_MS
    ensures ShouldLogout(Touched(m, now, endOfDay), evalNow, hasActiveForSession) != Logout(IdleTimeout)
  {
  }

  /**
   * The idle rule as the enforcement step meets it: a rider idle for three
   * hours, with no booking and the window still open, is due for an idle
   * logout by the rule, yet the enforcement step's own touch just before the
   * decision makes the decision "stay".
   */
  lemma IdleRuleUnreachableAfterTouch(m: Store, t0: int, endOfDay: int)
    requires t0 > 0 && StampAt(m, LastActiveKey) == t0
    requires HasWindow(m) && StampAt(m, ExpiresKey) >= t0 + 3 * 60 * 60 * 1000
    ensures ShouldLogout(m, t0 + 3 * 60 * 60 * 1000, false) == Logout(IdleTimeout)
    ensures ShouldLogout(Touched(m, t0 + 3 * 60 * 60 * 1000, endOfDay), t0 + 3 * 60 * 60 * 1000, false) == Stay
  {
  }
}
