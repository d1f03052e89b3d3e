/**
 The tables of the booking database (migrations 0001, 0003, 0005, 0006, 0008) as values, the
 row predicates the SQL statements filter on, and the row versions those statements write.
 Timestamps are integers counting microseconds, the resolution of a PostgreSQL `timestamptz`.
 */
module Tables {
  import opened Options

  type Id = nat
  type Time = int

  datatype Status = Held | Confirmed | Expired | Cancelled

  datatype Booking = Booking(
    matchId: string,
    seatId: string,
    buyerId: string,
    status: Status,
    holdExpiresAt: Option<Time>,
    confirmedAt: Option<Time>,
    cancelledAt: Option<Time>,
    createdAt: Time)

  datatype Key = Key(bookingId: Id, createdAt: Time)

  datatype RefundStatus = Pending | Refunded | Failed

  datatype Refund = Refund(
    bookingId: Id,
    status: RefundStatus,
    requestedAt: Time,
    completedAt: Option<Time>,
    externalRef: Option<string>)

  /** The jsonb payload of an event, as `json.Unmarshal` into a refund id sees it. */
  datatype Payload = Unparseable | RefundId(id: Id)

  datatype Event = Event(
    eventType: string,
    bookingId: Id,
    payload: Payload,
    createdAt: Time,
    processedAt: Option<Time>,
    claimedAt: Option<Time>)

  const REFUND_REQUESTED := "refund_requested"

  datatype Db = Db(
    seats: map<(string, string), string>,
    matches: map<string, Time>,
    bookings: map<Id, Booking>,
    keys: map<string, Key>,
    refunds: map<Id, Refund>,
    events: map<Id, Event>)

  // ---------------------------------------------------------------- row predicates

  /** The predicate of the partial index `ux_bookings_active_seat`. */
  predicate Active(r: Booking) {
    r.status == Held || r.status == Confirmed
  }

  /** Covered by `ux_bookings_active_seat` under the key (m, s). */
  predicate ActiveAt(r: Booking, m: string, s: string) {
    Active(r) && r.matchId == m && r.seatId == s
  }

  /** Covered by `ux_bookings_one_held_seat_per_buyer` under the key (m, b). */
  predicate HeldBy(r: Booking, m: string, b: string) {
    r.status == Held && r.matchId == m && r.buyerId == b
  }

  /** `hold_expires_at < now()`: the hold may be reclaimed or swept. */
  predicate PastTtl(r: Booking, now: Time) {
    r.holdExpiresAt.Some? && r.holdExpiresAt.value < now
  }

  /** `hold_expires_at > now()`: the hold may still be confirmed, shown or replayed. */
  predicate BeforeTtl(r: Booking, now: Time) {
    r.holdExpiresAt.Some? && r.holdExpiresAt.value > now
  }

  /** Live as an idempotent replay and as a seat map sees it. */
  predicate Live(r: Booking, now: Time) {
    r.status == Confirmed || (r.status == Held && BeforeTtl(r, now))
  }

  /** Another hold of the same buyer in the same match, on a different seat. */
  predicate OtherHold(r: Booking, m: string, s: string, b: string) {
    HeldBy(r, m, b) && r.seatId != s
  }

  /** A hold on the target seat that the hold path may lazily expire. */
  predicate StaleHold(r: Booking, m: string, s: string, now: Time) {
    r.status == Held && r.matchId == m && r.seatId == s && PastTtl(r, now)
  }

  predicate SameParams(r: Booking, m: string, s: string, b: string) {
    r.matchId == m && r.seatId == s && r.buyerId == b
  }

  /** A row that the buyer's booking history shows (bookings.go:38-43). */
  predicate Listed(r: Booking, m: string, b: string) {
    && r.matchId == m && r.buyerId == b
    && (r.status == Confirmed || (r.status == Cancelled && r.confirmedAt.Some?))
  }

  // ---------------------------------------------------------------- row versions written

  function CancelledRow(r: Booking, now: Time): Booking {
    r.(status := Cancelled, cancelledAt := Some(now))
  }

  function ExpiredRow(r: Booking): Booking {
    r.(status := Expired)
  }

  function ConfirmedRow(r: Booking, now: Time): Booking {
    r.(status := Confirmed, confirmedAt := Some(now), holdExpiresAt := None)
  }

  function HeldRow(m: string, s: string, b: string, now: Time, ttl: int): Booking {
    Booking(m, s, b, Held, Some(now + ttl), None, None, now)
  }

  // ---------------------------------------------------------------- whole-table conditions

  ghost predicate SeatUnique(bs: map<Id, Booking>) {
    forall i, j :: i in bs && j in bs && Active(bs[i]) && ActiveAt(bs[j], bs[i].matchId, bs[i].seatId) ==> i == j
  }

  ghost predicate BuyerUnique(bs: map<Id, Booking>) {
    forall i, j :: i in bs && j in bs && bs[i].status == Held && HeldBy(bs[j], bs[i].matchId, bs[i].buyerId) ==> i == j
  }

  predicate SeatTaken(bs: map<Id, Booking>, m: string, s: string) {
    exists i :: i in bs && ActiveAt(bs[i], m, s)
  }

  predicate BuyerHolds(bs: map<Id, Booking>, m: string, b: string) {
    exists i :: i in bs && HeldBy(bs[i], m, b)
  }

  /** What the nullable columns hold in each status, in every row the application writes. */
  predicate WellShaped(r: Booking) {
    match r.status
    case Held => r.holdExpiresAt.Some? && r.confirmedAt.None? && r.cancelledAt.None?
    case Confirmed => r.holdExpiresAt.None? && r.confirmedAt.Some? && r.cancelledAt.None?
    case Expired => r.holdExpiresAt.Some? && r.confirmedAt.None? && r.cancelledAt.None?
    case Cancelled => r.cancelledAt.Some?
  }

  // ---------------------------------------------------------------- set-oriented statements

  /** The statement that releases the buyer's other holds in the match (holds.go:104-110). */
  function CancelOthers(bs: map<Id, Booking>, m: string, s: string, b: string, now: Time): map<Id, Booking> {
    map i | i in bs :: if OtherHold(bs[i], m, s, b) then CancelledRow(bs[i], now) else bs[i]
  }

  /** The statement that lazily expires the stale hold on the target seat (holds.go:112-118). */
  function ExpireStale(bs: map<Id, Booking>, m: string, s: string, now: Time): map<Id, Booking> {
    map i | i in bs :: if StaleHold(bs[i], m, s, now) then ExpiredRow(bs[i]) else bs[i]
  }

  /** The bookings table as the INSERT of the hold path finds it. */
  function Cleared(bs: map<Id, Booking>, m: string, s: string, b: string, now: Time): map<Id, Booking> {
    ExpireStale(CancelOthers(bs, m, s, b, now), m, s, now)
  }

  /** The guarded delete of a stale key mapping (holds.go:86-96). */
  function WithoutStale(ks: map<string, Key>, key: string, stale: Option<Id>): map<string, Key> {
    if stale.Some? && key in ks && ks[key].bookingId == stale.value then ks - {key} else ks
  }

  /** The sweep of an arbitrary batch: rows of `ids` that are held past their TTL (invariants.go:22-36). */
  function Swept(bs: map<Id, Booking>, ids: set<Id>, now: Time): map<Id, Booking> {
    map i | i in bs :: if i in ids && bs[i].status == Held && PastTtl(bs[i], now) then ExpiredRow(bs[i]) else bs[i]
  }
}
