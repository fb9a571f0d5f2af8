/**
 * The guard as it runs in a rider page: the page's `localStorage`,
 * `sessionStorage` and location, the push-notification link, the
 * booking-activity flag other page code sets, and whether the periodic
 * enforcement has been started.  The clock is read by the caller and passed
 * in: `now` for a touch, `evalNow` for the decision that follows it, and the
 * end of the local day.
 */
module Guard {
  import opened SessionStore
  import opened SessionPolicy

  /** The unauthenticated entry page a logout sends the rider to. */
  const EntryPage: string := "/index.html"

  /** The externally visible steps of a logout, in the order they happen. */
  datatype Effect =
    | Warned(reason: string)      // the console warning naming the reason
    | PushLogoutRequested         // the push-notification identity asked to log out
    | AuthStorageCleared          // the rider's keys removed from `localStorage`
    | TabStorageCleared           // `sessionStorage` emptied
    | Redirected(url: string)     // `location.replace`

  /** The steps of `forceLogout(reason)`, in order. */
  function LogoutSequence(reason: string): seq<Effect>
  {
    [Warned(reason), PushLogoutRequested, AuthStorageCleared, TabStorageCleared, Redirected(EntryPage)]
  }

  class SessionGuard {
    var local: Store                  // localStorage
    var tab: map<string, string>      // sessionStorage
    var location: string
    var pushSubscribed: bool          // the device is linked to the rider's push identity
    var hasActiveForSession: bool     // set by pages that fetch bookings
    var armed: bool                   // the one-minute enforcement interval is running
    var effects: seq<Effect>          // logout steps taken so far

    /** A page loading the guard: no booking known to be active, nothing scheduled yet. */
    constructor (local0: Store, tab0: map<string, string>, location0: string, pushSubscribed0: bool)
      ensures local == local0 && tab == tab0 && location == location0 && pushSubscribed == pushSubscribed0
      ensures !hasActiveForSession && !armed && effects == []
    {
      local := local0;
      tab := tab0;
      location := location0;
      pushSubscribed := pushSubscribed0;
      hasActiveForSession := false;
      armed := false;
      effects := [];
    }

    /** `touchSession`. */
    method TouchSession(now: int, endOfDay: int)
      modifies this`local
      ensures local == Touched(old(local), now, endOfDay)
    {
      local := local[LastActiveKey := Stamp(now)];
      var created := StampAt(local, CreatedKey);
      var expires := StampAt(local, ExpiresKey);
      if created == 0 || expires == 0 {
        var createdAt := now;
        var expiresAt := Min(createdAt + HARD_CAP_MS, endOfDay);
        local := local[CreatedKey := Stamp(createdAt)];
        local := local[ExpiresKey := Stamp(expiresAt)];
      }
    }

    /** The visibility handler: a tab brought back into view counts as activity. */
    method OnVisibilityChange(hidden: bool, now: int, endOfDay: int)
      modifies this`local
      ensures local == if hidden then old(local) else Touched(old(local), now, endOfDay)
    {
      if !hidden {
        TouchSession(now, endOfDay);
      }
    }

    /** `clearRiderAuthStorage`: remove each key of `AuthKeys` in turn. */
    method ClearRiderAuthStorage()
      modifies this`local, this`effects
      ensures local == WithoutAuth(old(local))
      ensures effects == old(effects) + [AuthStorageCleared]
    {
      var i := 0;
      while i < |AuthKeys|
        invariant 0 <= i <= |AuthKeys|
        invariant local == old(local) - (set k | k in AuthKeys[..i])
        invariant effects == old(effects)
      {
        assert AuthKeys[..i + 1] == AuthKeys[..i] + [AuthKeys[i]];
        local := local - {AuthKeys[i]};
        i := i + 1;
      }
      assert AuthKeys[..i] == AuthKeys;
      effects := effects + [AuthStorageCleared];
    }

    /**
     * `onesignalLogoutSafe`: ask the push provider to log the device out.
     * The request may fail; a failure changes nothing and is not reported.
     */
    method RequestPushLogout(succeeds: bool)
      modifies this`pushSubscribed, this`effects
      ensures pushSubscribed == (old(pushSubscribed) && !succeeds)
      ensures effects == old(effects) + [PushLogoutRequested]
    {
      if succeeds {
        pushSubscribed := false;
      }
      effects := effects + [PushLogoutRequested];
    }

    /**
     * `forceLogout(reason)`: warn, ask the push provider to log out, clear the
     * rider's keys, empty the tab's storage and leave for the entry page.
     * Whether the push logout succeeds changes none of the later steps.
     */
    method ForceLogout(reason: string, pushLogoutSucceeds: bool)
      modifies this`local, this`tab, this`location, this`pushSubscribed, this`effects
      ensures effects == old(effects) + LogoutSequence(reason)
      ensures local == WithoutAuth(old(local)) && !IsLoggedIn(local)
      ensures tab == map[] && location == EntryPage
      ensures pushSubscribed == (old(pushSubscribed) && !pushLogoutSucceeds)
    {
      effects := effects + [Warned(reason)];
      RequestPushLogout(pushLogoutSucceeds);
      ClearRiderAuthStorage();
      tab := map[];
      effects := effects + [TabStorageCleared];
      location := EntryPage;
      effects := effects + [Redirected(EntryPage)];
    }

    /**
     * `enforceSession`: nothing at all unless a rider is logged in; otherwise
     * touch the session at `now`, decide at `evalNow` with the page's booking
     * flag, and log out for the reason decided, if any.  A decision taken
     * within 90 minutes of its own touch is never an idle logout.
     */
    method EnforceSession(now: int, evalNow: int, endOfDay: int, pushLogoutSucceeds: bool)
      modifies this`local, this`tab, this`location, this`pushSubscribed, this`effects
      ensures !IsLoggedIn(old(local)) ==>
                local == old(local) && tab == old(tab) && location == old(location) &&
                pushSubscribed == old(pushSubscribed) && effects == old(effects)
      ensures IsLoggedIn(old(local)) ==>
                var touched := Touched(old(local), now, endOfDay);
                var v := ShouldLogout(touched, evalNow, hasActiveForSession);
                if v == Stay then
                  local == touched && tab == old(tab) && location == old(location) &&
                  pushSubscribed == old(pushSubscribed) && effects == old(effects)
                else
                  local == WithoutAuth(touched) && tab == map[] && location == EntryPage &&
                  pushSubscribed == (old(pushSubscribed) && !pushLogoutSucceeds) &&
                  effects == old(effects) + LogoutSequence(v.reason.Why())
      ensures evalNow - now <= IDLE_LOGOUT_MS ==> effects[|old(effects)|..] != LogoutSequence(IdleTimeout.Why())
    {
      if !IsLoggedIn(local) {
        return;
      }
      TouchSession(now, endOfDay);
      var v := ShouldLogout(local, evalNow, hasActiveForSession);
      if v.Logout? {
        ForceLogout(v.reason.Why(), pushLogoutSucceeds);
      }
      if evalNow - now <= IDLE_LOGOUT_MS {
        TouchThenEvaluateNeverIdle(old(local), now, evalNow, endOfDay, hasActiveForSession);
        assert effects[|old(effects)|..] == [] || effects[|old(effects)|..] == LogoutSequence(HardCapOrEod.Why());
        assert LogoutSequence(HardCapOrEod.Why())[0] != LogoutSequence(IdleTimeout.Why())[0];
      }
    }

    /**
     * The enforcement step without the touch: decide at `now` on the stored
     * last activity, and log out for the reason decided, if any.  A rider
     * idle for more than 90 minutes, with no booking and the window still
     * open, is logged out for idleness.
     */
    method EnforceSessionIntended(now: int, pushLogoutSucceeds: bool)
      modifies this`local, this`tab, this`location, this`pushSubscribed, this`effects
      ensures !IsLoggedIn(old(local)) ==>
                local == old(local) && tab == old(tab) && location == old(location) &&
                pushSubscribed == old(pushSubscribed) && effects == old(effects)
      ensures IsLoggedIn(old(local)) && ShouldLogout(old(local), now, hasActiveForSession) == Stay ==>
                local == old(local) && tab == old(tab) && location == old(location) &&
                pushSubscribed == old(pushSubscribed) && effects == old(effects)
      ensures IsLoggedIn(old(local)) && !hasActiveForSession && !PastWindow(old(local), now) && IdleTooLong(old(local), now) ==>
                local == WithoutAuth(old(local)) && !IsLoggedIn(local) && tab == map[] && location == EntryPage &&
                pushSubscribed == (old(pushSubscribed) && !pushLogoutSucceeds) &&
                effects == old(effects) + LogoutSequence(IdleTimeout.Why())
      ensures IsLoggedIn(old(local)) && PastWindow(old(local), now) ==>
                local == WithoutAuth(old(local)) && !IsLoggedIn(local) && tab == map[] && location == EntryPage &&
                pushSubscribed == (old(pushSubscribed) && !pushLogoutSucceeds) &&
                effects == old(effects) + LogoutSequence(HardCapOrEod.Why())
    {
      if !IsLoggedIn(local) {
        return;
      }
      var v := ShouldLogout(local, now, hasActiveForSession);
      if v.Logout? {
        ForceLogout(v.reason.Why(), pushLogoutSucceeds);
      }
    }

    /**
     * The page-load handler: with no rider logged in the guard stays dormant
     * for the page's life; otherwise it touches the session at the load's own
     * clock reading (`loadNow`, `loadEndOfDay`), runs `EnforceSession` once
     * (which reads the clock again: `now`, `evalNow`, `endOfDay`) and arms the
     * one-minute interval that calls `EnforceSession` again.
     */
    method OnLoad(loadNow: int, loadEndOfDay: int, now: int, evalNow: int, endOfDay: int, pushLogoutSucceeds: bool)
      modifies this`local, this`tab, this`location, this`pushSubscribed, this`effects, this`armed
      ensures armed == (old(armed) || IsLoggedIn(old(local)))
      ensures !IsLoggedIn(old(local)) ==>
                local == old(local) && tab == old(tab) && location == old(location) &&
                pushSubscribed == old(pushSubscribed) && effects == old(effects)
      ensures IsLoggedIn(old(local)) ==>
                var touched := Touched(Touched(old(local), loadNow, loadEndOfDay), now, endOfDay);
                var v := ShouldLogout(touched, evalNow, hasActiveForSession);
                if v == Stay then
                  local == touched && tab == old(tab) && location == old(location) &&
                  pushSubscribed == old(pushSubscribed) && effects == old(effects)
                else
                  local == WithoutAuth(touched) && tab == map[] && location == EntryPage &&
                  pushSubscribed == (old(pushSubscribed) && !pushLogoutSucceeds) &&
                  effects == old(effects) + LogoutSequence(v.reason.Why())
    {
      if !IsLoggedIn(local) {
        return;
      }
      TouchSession(loadNow, loadEndOfDay);
      EnforceSession(now, evalNow, endOfDay, pushLogoutSucceeds);
      armed := true;
    }
  }
}
