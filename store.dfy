/**
 * The rider's persistent key-value store (`localStorage`) and what the guard
 * does to it: reading a timestamp, recognising a login, touching the session
 * and clearing the rider's keys.  These functions are the specification the
 * methods of `Guard.SessionGuard` are proved against.
 */
module SessionStore {
  import opened Wrappers

  /**
   * A stored string as the guard reads it.  `Stamp(ms)`: any string that
   * `Number` reads as the finite whole number `ms` -- what `String(now)`
   * writes, but equally `" 12 "`, `"12.0"`, `"1e3"` or `"0x1F"`, which the
   * guard cannot tell apart from it.  `Profile(riderId)`: a JSON object, with its
   * `riderId` field when it has one.  `Unreadable(raw)`: anything else.
   * `Number(...)` of a profile or of an unreadable string is `NaN` or 0,
   * which the guard treats alike (falsy, and false in every comparison).
   */
  datatype Value = Stamp(ms: int) | Profile(riderId: Option<string>) | Unreadable(raw: string)

  type Store = map<string, Value>

  const ProfileKey: string := "bigred_rider_profile_v1"
  const LastActiveKey: string := "brc_last_active_at_v1"
  const CreatedKey: string := "brc_session_created_at_v1"
  const ExpiresKey: string := "brc_session_expires_at_v1"

  /** Absolute session length: 12 hours. */
  const HARD_CAP_MS: int := 12 * 60 * 60 * 1000

  /** The keys a logout removes, in the order it removes them. */
  const AuthKeys: seq<string> :=
    [ProfileKey, "riderId", "riderName", "lastRideId", "brc_last_ride_id_v1",
     LastActiveKey, CreatedKey, ExpiresKey]

  /** The three keys that hold the session window. */
  const SessionKeys: set<string> := {LastActiveKey, CreatedKey, ExpiresKey}

  function Min(a: int, b: int): int { if a <= b then a else b }

  /** `Number(localStorage.getItem(key) || "0")`, with "missing" and "not a number" both read as 0. */
  function StampAt(m: Store, key: string): (ms: int)
    ensures key !in m ==> ms == 0
    ensures key in m && !m[key].Stamp? ==> ms == 0
    ensures key in m && m[key].Stamp? ==> ms == m[key].ms
    ensures ms != 0 ==> key in m && m[key] == Stamp(ms)
  {
    if key in m && m[key].Stamp? then m[key].ms else 0
  }

  /** `isLoggedIn`: the profile is stored, parses, and has a non-empty `riderId`. */
  function IsLoggedIn(m: Store): (loggedIn: bool)
    ensures ProfileKey !in m ==> !loggedIn
    ensures ProfileKey in m && !m[ProfileKey].Profile? ==> !loggedIn
    ensures ProfileKey in m && m[ProfileKey] in {Profile(None), Profile(Some(""))} ==> !loggedIn
    ensures (ProfileKey in m && m[ProfileKey].Profile? && m[ProfileKey].riderId.Some? &&
             m[ProfileKey].riderId.value != "") ==> loggedIn
  {
    ProfileKey in m && m[ProfileKey].Profile? &&
    m[ProfileKey].riderId.Some? && m[ProfileKey].riderId.value != ""
  }

  /** Only the profile entry decides whether a rider is logged in. */
  lemma LoginDecidedByProfile(m: Store, m': Store)
    requires (ProfileKey in m <==> ProfileKey in m') && (ProfileKey in m ==> m[ProfileKey] == m'[ProfileKey])
    ensures IsLoggedIn(m) == IsLoggedIn(m')
  {
  }

  /** A session window exists: both its start and its end are set. */
  predicate HasWindow(m: Store)
  {
    StampAt(m, CreatedKey) != 0 && StampAt(m, ExpiresKey) != 0
  }

  /**
   * `touchSession` at time `now`, with `endOfDay` the last millisecond of the
   * local day.  It always records `now` as the last activity; it opens a new
   * window, ending at the 12-hour cap or at the end of the day, whichever is
   * first, exactly when no window exists; it touches no other key.
   */
  function Touched(m: Store, now: int, endOfDay: int): (m': Store)
    ensures StampAt(m', LastActiveKey) == now
    ensures HasWindow(m) ==>
              StampAt(m', CreatedKey) == StampAt(m, CreatedKey) && StampAt(m', ExpiresKey) == StampAt(m, ExpiresKey)
    ensures !HasWindow(m) ==>
              StampAt(m', CreatedKey) == now &&
              StampAt(m', ExpiresKey) <= now + HARD_CAP_MS &&
              StampAt(m', ExpiresKey) <= endOfDay &&
              (StampAt(m', ExpiresKey) == now + HARD_CAP_MS || StampAt(m', ExpiresKey) == endOfDay) &&
              (endOfDay >= now ==> StampAt(m', ExpiresKey) >= now)
    ensures forall k :: k !in SessionKeys ==> (k in m' <==> k in m)
    ensures forall k :: k in m && k !in SessionKeys ==> m'[k] == m[k]
    ensures IsLoggedIn(m') == IsLoggedIn(m)
  {
    var m1 := m[LastActiveKey := Stamp(now)];
    if StampAt(m1, CreatedKey) == 0 || StampAt(m1, ExpiresKey) == 0 then
      m1[CreatedKey := Stamp(now)][ExpiresKey := Stamp(Min(now + HARD_CAP_MS, endOfDay))]
    else
      m1
  }

  /**
   * `clearRiderAuthStorage`: every key of `AuthKeys` removed and every other
   * entry kept as it was; afterwards no rider is logged in and no session
   * timestamp is set.
   */
  function WithoutAuth(m: Store): (m': Store)
    ensures forall k :: k in m' <==> k in m && k !in AuthKeys
    ensures forall k :: k in m' ==> m'[k] == m[k]
    ensures !IsLoggedIn(m')
    ensures StampAt(m', LastActiveKey) == 0 && StampAt(m', CreatedKey) == 0 && StampAt(m', ExpiresKey) == 0
  {
    m - (set k | k in AuthKeys)
  }

  /** One clock reading: the time and the end of that local day. */
  datatype Instant = Instant(now: int, endOfDay: int)

  /** The store after touching it at each instant in turn. */
  function TouchedAt(m: Store, instants: seq<Instant>): Store
    decreases |instants|
  {
    if instants == [] then m
    else TouchedAt(Touched(m, instants[0].now, instants[0].endOfDay), instants[1..])
  }

  /**
   * Once a window exists, no number of further touches moves it: its start
   * and end stay as they were, the last activity is the last touch, and the
   * login is unaffected.
   */
  lemma {:induction false} WindowSurvivesTouches(m: Store, instants: seq<Instant>)
    requires HasWindow(m)
    ensures StampAt(TouchedAt(m, instants), CreatedKey) == StampAt(m, CreatedKey)
    ensures StampAt(TouchedAt(m, instants), ExpiresKey) == StampAt(m, ExpiresKey)
    ensures instants != [] ==> StampAt(TouchedAt(m, instants), LastActiveKey) == instants[|instants| - 1].now
    ensures IsLoggedIn(TouchedAt(m, instants)) == IsLoggedIn(m)
    decreases |instants|
  {
    if instants != [] {
      var m1 := Touched(m, instants[0].now, instants[0].endOfDay);
      WindowSurvivesTouches(m1, instants[1..]);
    }
  }

  /** A window that starts at a clock reading and ends no later than 12 hours after it. */
  predicate WindowWithinCap(m: Store)
  {
    HasWindow(m) ==>
      StampAt(m, CreatedKey) <= StampAt(m, ExpiresKey) <= StampAt(m, CreatedKey) + HARD_CAP_MS
  }

  /**
   * With a clock whose end of day never precedes its time, touching keeps
   * every window within the 12-hour cap, however many touches there are.
   */
  lemma {:induction false} TouchesKeepWindowWithinCap(m: Store, instants: seq<Instant>)
    requires WindowWithinCap(m)
    requires forall i :: 0 <= i < |instants| ==> instants[i].now <= instants[i].endOfDay
    ensures WindowWithinCap(TouchedAt(m, instants))
    decreases |instants|
  {
    if instants != [] {
      var m1 := Touched(m, instants[0].now, instants[0].endOfDay);
      assert WindowWithinCap(m1);
      TouchesKeepWindowWithinCap(m1, instants[1..]);
    }
  }

  /**
   * A touch does not check for a login: one made while nobody is logged in
   * opens the window, and a login written afterwards keeps that window.
   */
  lemma TouchBeforeLoginOpensWindow(m: Store, now: int, endOfDay: int, riderId: string)
    requires !IsLoggedIn(m) && !HasWindow(m)
    requires now > 0 && endOfDay >= now && riderId != ""
    ensures var s := Touched(m, now, endOfDay)[ProfileKey := Profile(Some(riderId))];
            IsLoggedIn(s) && HasWindow(s) &&
            StampAt(s, CreatedKey) == now && StampAt(s, ExpiresKey) == Min(now + HARD_CAP_MS, endOfDay)
  {
  }

  /** Touching twice at the same instant is touching once. */
  lemma TouchIdempotent(m: Store, now: int, endOfDay: int)
    ensures Touched(Touched(m, now, endOfDay), now, endOfDay) == Touched(m, now, endOfDay)
  {
  }
}
