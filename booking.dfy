/**
 * The booking classifier: whether a rider's booking keeps the session from
 * being logged out for idleness.  The clock and `Date.parse` are inputs: a
 * booking carries its scheduled time already parsed, 0 when `scheduledFor`
 * is missing or does not parse.
 */
module Booking {
  import opened Casing

  /** Statuses of a ride under way: active whatever the booking type. */
  const ActiveNowStatuses: seq<string> := ["ENROUTE", "ARRIVED", "PICKED_UP"]
  /** Statuses of a ride about to happen. */
  const ActiveSoonStatuses: seq<string> := ["REQUESTED", "ACCEPTED"]
  /** How far ahead a reservation may be scheduled and still count (6 hours). */
  const RES_ACTIVE_WINDOW_MS: int := 6 * 60 * 60 * 1000

  /**
   * A booking as the classifier sees it: `status` and `kind` (the booking's
   * `type`) are "" when absent; `scheduledMs` is the parsed `scheduledFor`,
   * 0 when missing or unparseable.
   */
  datatype Booking = Booking(status: string, kind: string, scheduledMs: int)

  /**
   * `bookingCountsAsActiveForSession`: status and type compared in upper
   * case; a ride under way always counts; a requested or accepted instant (or
   * untyped) booking counts; a requested or accepted reservation counts only
   * when it has a scheduled time at most six hours ahead; nothing else counts.
   */
  function CountsAsActiveForSession(b: Booking, now: int): (active: bool)
    ensures ToUpper(b.status) in ActiveNowStatuses ==> active
    ensures ToUpper(b.status) !in ActiveNowStatuses && ToUpper(b.status) !in ActiveSoonStatuses ==> !active
    ensures ToUpper(b.status) in ActiveSoonStatuses && (b.kind == "" || ToUpper(b.kind) == "INSTANT") ==> active
    ensures ToUpper(b.status) in ActiveSoonStatuses && ToUpper(b.kind) == "RESERVATION" ==>
              (active <==> b.scheduledMs != 0 && b.scheduledMs - now <= RES_ACTIVE_WINDOW_MS)
    ensures active && ToUpper(b.status) !in ActiveNowStatuses ==>
              b.kind == "" || ToUpper(b.kind) == "INSTANT" || ToUpper(b.kind) == "RESERVATION"
  {
    var status := ToUpper(b.status);
    var kind := ToUpper(b.kind);
    if status in ActiveNowStatuses then true
    else if (kind == "INSTANT" || kind == "") && status in ActiveSoonStatuses then true
    else if kind == "RESERVATION" && status in ActiveSoonStatuses then
      if b.scheduledMs == 0 then false
      else b.scheduledMs - now <= RES_ACTIVE_WINDOW_MS
    else false
  }

  /** Status and type are matched without regard to case. */
  lemma CaseInsensitive(b: Booking, now: int)
    ensures CountsAsActiveForSession(b, now)
         == CountsAsActiveForSession(Booking(ToUpper(b.status), ToUpper(b.kind), b.scheduledMs), now)
  {
    ToUpperIdempotent(b.status);
    ToUpperIdempotent(b.kind);
  }

  /** The classifier's constants are their own upper-casing. */
  lemma UpperConstant(s: string)
    requires s in ActiveNowStatuses + ActiveSoonStatuses + ["INSTANT", "RESERVATION"]
    ensures ToUpper(s) == s
  {
    UpperOfFixed(s);
  }

  /** A ride en route counts, whatever its type and even with no scheduled time. */
  lemma EnrouteAlwaysActive(kind: string, now: int)
    ensures CountsAsActiveForSession(Booking("ENROUTE", kind, 0), now)
  {
    UpperConstant("ENROUTE");
  }

  /** At a clock reading since the epoch, a requested reservation counts 5 hours ahead but not 7. */
  lemma ReservationLookahead(now: int)
    requires now >= 0
    ensures CountsAsActiveForSession(Booking("REQUESTED", "RESERVATION", now + 5 * 60 * 60 * 1000), now)
    ensures !CountsAsActiveForSession(Booking("REQUESTED", "RESERVATION", now + 7 * 60 * 60 * 1000), now)
  {
    UpperConstant("REQUESTED");
    UpperConstant("RESERVATION");
  }

  /** A requested reservation with no parseable scheduled time does not count. */
  lemma UnscheduledReservationInactive(now: int)
    ensures !CountsAsActiveForSession(Booking("REQUESTED", "RESERVATION", 0), now)
  {
    UpperConstant("REQUESTED");
    UpperConstant("RESERVATION");
  }
}
