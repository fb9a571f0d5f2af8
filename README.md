# Rider session guard, modelled in Dafny

This project models the rider session guard of Big Red Connect
(`rider/session-guard.js`). The guard runs in every rider page and enforces
a login-session policy on the client. It uses three timestamps that it
keeps in `localStorage`:

- the last activity;
- the start of the session window;
- the end of the session window.

The first touch that finds no window opens one, whether or not a rider is
logged in. The window ends 12 hours later or at the end of the local day,
whichever comes first. Later touches
only move the last activity. Every minute the guard decides whether to log
the rider out. It tries two rules in order:

1. A rider past the window's end is logged out (`hard_cap_or_eod`), even
   with a booking in progress.
2. A rider idle for more than 90 minutes is logged out (`idle_timeout`),
   but only when no booking is active. As written, the enforcement step
   touches the session just before it decides, so this rule never fires
   there (see "## Findings").

A booking is active when:

- its ride is under way (en route, arrived, picked up), or
- it is a requested or accepted instant or untyped booking, or
- it is a requested or accepted reservation at most six hours ahead.

A logout follows a fixed sequence:

1. warn;
2. ask the push provider to log the device out;
3. remove the rider's eight keys;
4. empty `sessionStorage`;
5. redirect to `/index.html`.

Modules, leaf first:

- `Wrappers`: `Option`.
- `Casing`: the part of `toUpperCase` the classifier can observe.
- `Booking`: the booking classifier.
- `SessionStore`: the store as a `map<string, Value>`, plus the pure
  specification of touching it (`Touched`) and of clearing it
  (`WithoutAuth`).
- `SessionPolicy`: the logout decision (`ShouldLogout`) and the lemmas about
  the window over time.
- `Guard`: the class `SessionGuard`, which holds the page's mutable state.
  Its methods are proved against the functions above.

How the model represents the source:

- **Clock.** Every clock reading is an input: `now` for a touch, `evalNow`
  for the `Date.now()` inside `shouldLogout`, `endOfDay` for
  `endOfLocalDayMs()`, and the already-parsed `scheduledFor` of a booking.
  The load handler's own touch reads the clock separately from the touch
  inside `enforceSession`, as `loadNow` and `loadEndOfDay`.
- **Stored values.** A stored value is one of three things: `Stamp(ms)` (a
  string that `Number` reads as the whole number `ms`), `Profile(riderId)` (a parsed JSON profile), or `Unreadable`.
- **Reading a timestamp.** `Number(getItem(k) || "0")` gives 0 for a missing
  or empty key. It gives `NaN` for anything that is not a number. The code
  treats `NaN` exactly like 0: it is falsy, and every comparison with it is
  false. So `StampAt` reads both cases as 0.

## Model

| member | source | states |
|---|---|---|
| `Casing.ToUpper` | rider/session-guard.js:50-51 | upper-casing never shortens a string, is empty only for the empty string, leaves no ASCII lower-case letter, and on ASCII text upper-cases each character in place |
| `Casing.ToUpperIdempotent` | rider/session-guard.js:50-51 | upper-casing twice is upper-casing once |
| `Booking.CountsAsActiveForSession` | rider/session-guard.js:49-67 | a ride under way counts for any type; a requested or accepted instant or untyped booking counts; a requested or accepted reservation counts iff its scheduled time is set and at most 6 hours ahead; a status in neither list never counts; and nothing else counts |
| `Booking.CaseInsensitive` | rider/session-guard.js:50-51 | the classification is the same when the status and type are upper-cased first |
| `Booking.EnrouteAlwaysActive` | rider/session-guard.js:54 | an ENROUTE booking counts for every type, with no scheduled time |
| `Booking.ReservationLookahead` | rider/session-guard.js:60-64 | a requested reservation 5 hours ahead counts and one 7 hours ahead does not |
| `Booking.UnscheduledReservationInactive` | rider/session-guard.js:61-62 | a requested reservation with no parseable time does not count |
| `SessionStore.StampAt` | rider/session-guard.js:74-75 | a timestamp read is 0 for a missing key and for a value that is not a number; a stored stamp reads as itself; a non-zero read is exactly the stamp stored under that key |
| `SessionStore.IsLoggedIn` | rider/session-guard.js:36-45 | no rider is logged in when the profile is missing, does not parse as a profile, or has no `riderId` or an empty one; one is logged in when the parsed profile has a non-empty `riderId` |
| `SessionStore.LoginDecidedByProfile` | rider/session-guard.js:36-45 | whether a rider is logged in depends on the profile entry alone, so writes to other keys never change it |
| `SessionStore.Touched` | rider/session-guard.js:69-89 | a touch sets the last activity to `now`; it keeps an existing window unchanged; when there is no window it opens one that starts at `now` and ends at the 12-hour cap or the end of the day, whichever is first; no other key changes, and neither does the login |
| `SessionStore.WithoutAuth` | rider/session-guard.js:118-131 | exactly the eight listed keys are gone and every other entry is unchanged; afterwards no rider is logged in and no session timestamp is set |
| `SessionStore.WindowSurvivesTouches` | rider/session-guard.js:74-88 | once a window exists, any sequence of touches leaves its start and end unchanged, and the last activity is the last touch |
| `SessionStore.TouchesKeepWindowWithinCap` | rider/session-guard.js:77-86 | while the end of the day is never before `now`, every window starts no later than it ends and ends at most 12 hours after it starts, through any sequence of touches |
| `SessionStore.TouchBeforeLoginOpensWindow` | rider/session-guard.js:69-89 | a touch made while no rider is logged in opens a window at that touch, and a login written afterwards keeps it |
| `SessionStore.TouchIdempotent` | rider/session-guard.js:69-89 | two touches at the same instant leave the same store as one |
| `SessionPolicy.ShouldLogout` | rider/session-guard.js:91-105 | a session past its window end is logged out for the hard cap whatever the booking flag; otherwise an idle logout happens iff no booking is active, a last activity is set and more than 90 minutes have passed; an active booking within the window always means stay |
| `SessionPolicy.NothingStoredNeverLogsOut` | rider/session-guard.js:93-104 | with neither a last activity nor a window end stored, the rider stays |
| `SessionPolicy.IdleBoundary` | rider/session-guard.js:100-102 | the idle comparison is strict: the rider stays 1 ms short of 90 minutes and at exactly 90 minutes, and is logged out 1 ms later unless a booking is active |
| `SessionPolicy.CapCountsFromWindowStart` | rider/session-guard.js:77-98 | after the first touch opens a window, and after any later touches, every decision past that first touch's cap or end of day is a hard-cap logout, booking or not; before that point an active booking always means stay |
| `SessionPolicy.TouchThenEvaluateNeverIdle` | rider/session-guard.js:164-166 | a decision taken within 90 minutes of the touch just before it is never an idle logout |
| `SessionPolicy.IdleRuleUnreachableAfterTouch` | rider/session-guard.js:161-170 | a rider idle for three hours is due an idle logout by the rule, yet the enforcement step's touch turns that decision into stay |
| `Guard.SessionGuard.constructor` | rider/session-guard.js:157 | a page starts with no booking known to be active, no interval armed and no logout step taken |
| `Guard.SessionGuard.TouchSession` | rider/session-guard.js:69-89 | the stored map becomes `Touched` of the old one |
| `Guard.SessionGuard.OnVisibilityChange` | rider/session-guard.js:147-149 | a tab coming back into view touches the session; a hidden one changes nothing |
| `Guard.SessionGuard.ClearRiderAuthStorage` | rider/session-guard.js:118-131 | removing the keys one by one leaves `WithoutAuth` of the old map |
| `Guard.SessionGuard.RequestPushLogout` | rider/session-guard.js:109-116 | the push logout is requested; if it fails, it changes nothing and reports nothing |
| `Guard.SessionGuard.ForceLogout` | rider/session-guard.js:133-139 | a logout takes its steps in order: warn, push logout, clear the rider's keys, empty tab storage, redirect to `/index.html`; it clears and redirects whether or not the push logout succeeds |
| `Guard.SessionGuard.EnforceSession` | rider/session-guard.js:161-170 | with no login it changes nothing and never logs out; with a login it touches, then decides on the touched store with the page's booking flag, then logs out for the decided reason or leaves the touched store; it is never an idle logout within 90 minutes of its own touch |
| `Guard.SessionGuard.EnforceSessionIntended` | rider/session-guard.js:161-170 | the enforcement step without the touch: a logged-in rider idle for more than 90 minutes, with no booking and the window open, is logged out for idleness; one past the window end is logged out for the hard cap; either logout removes exactly the rider's keys, empties tab storage, redirects, and unlinks push only if that request succeeds; a stay changes nothing |
| `Guard.SessionGuard.OnLoad` | rider/session-guard.js:172-178 | with no login the guard stays dormant, writes nothing and arms nothing; with a login it touches at the load's clock reading, then enforces once with its own touch and decision, and arms the interval; on a stay only the store changes (two touches), and on a logout the rider's keys are gone, tab storage is empty, the page is at `/index.html` and push is unlinked only if that request succeeded |

## Left out

- Browser I/O is not modelled: the `console.warn` text, `location.replace`'s
  history behaviour, and the event-listener and `setInterval` registrations
  (lines 143-149, 172, 177). The click, keydown, scroll and touchstart
  handlers are `TouchSession` itself. The interval's callback is
  `EnforceSession`. `armed` records that the interval has been started.
- Asynchrony is left out. `forceLogout` is awaited inside `enforceSession`,
  but the load handler does not await `enforceSession`. So in the browser,
  the key clearing and the redirect run in a later microtask, after the
  interval is armed. The model runs each step to completion in order.
- `Guard.SessionGuard.RequestPushLogout`: the OneSignal call is queued and
  its result is never observed. The model does not capture when, or
  whether, it runs. A boolean input says whether the device ends up
  unlinked.
- Storage failures swallowed by `try {} catch {}` are left out. Every write
  is modelled as succeeding.
- `Date.now`, `new Date().setHours(23,59,59,999)` and `Date.parse` are
  inputs. Calendar and timezone behaviour is not modelled, and neither are
  clock changes mid-session.
- `SessionStore.StampAt` reads only whole-number stamps. A `Stamp` stands
  for any string `Number` reads as a finite whole number, so `" 12 "`,
  `"12.0"`, `"1e3"` and `"0x1F"` are stamps like `"12"`. A stored
  fractional number (`"1.5"`) or `Infinity` is treated as unreadable. The
  code would use it as a number.
- `SessionStore.IsLoggedIn` treats a `riderId` as a string that is truthy
  when non-empty. A profile whose `riderId` is a non-string JSON value
  (a number, `true`, an object) is not modelled.
- `Booking.CountsAsActiveForSession` takes the status and type as strings,
  with "" for absent. `String(...)` of a non-string status is not modelled.
- `Casing.ToUpper` leaves every character outside ASCII unchanged, except
  those whose full upper-case form is ASCII (ß, ı, ſ and the Latin
  ligatures U+FB00 to U+FB06). This decides every comparison the classifier
  makes with its ASCII constants exactly as `toUpperCase` would. Other
  characters are not upper-cased.
- Timestamps are unbounded integers. JavaScript numbers are doubles, which
  is exact for millisecond timestamps.

Four facts about the code that the model keeps as they are:

- A touch writes `now` as the last activity unconditionally. So the last
  activity goes back if the clock does.
- A window is reopened when either its start or its end is missing, zero or
  unreadable.
- A window's end is at least its start only when the end of the day is not
  before `now`.
- No touch checks for a login. The click, keydown, scroll, touchstart and
  visibility handlers (lines 143-149) touch the session whether or not a
  rider is logged in. So a touch made before login can open the window.
  That window survives the login, and the hard cap then counts from that
  earlier touch (`SessionStore.TouchBeforeLoginOpensWindow`;
  `SessionPolicy.CapCountsFromWindowStart` holds for any store without a
  window, logged in or not).

## Findings

| source | as written | input that shows it | evidently intended | confidence | as-written member | corrected member |
|---|---|---|---|---|---|---|
| rider/session-guard.js:161-170 | `enforceSession` calls `touchSession()` right before `shouldLogout`, and it runs every 60 seconds. So the last activity is always less than a minute old when the decision is made, and the 90-minute idle rule can never fire. | A rider last active at `t0`, with no booking and a window that is still open, enforced at `t0 + 3h` with no interaction in between: the rule calls for `idle_timeout`, but the decision is stay | decide on the stored last activity, and let only real interaction touch the session, so that a rider idle for 90 minutes with no booking is logged out | high; not executed | `SessionPolicy.IdleRuleUnreachableAfterTouch` | `Guard.SessionGuard.EnforceSessionIntended` |

`Guard.SessionGuard.EnforceSession` and `Guard.SessionGuard.OnLoad` model
the code as written. `EnforceSessionIntended` is the corrected step. It
decides without touching, and the idle rule is proved to fire there.
