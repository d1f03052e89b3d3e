/**
 The booking store as a machine whose steps are whole transactions. A step carries the
 transaction's own `now()` (`ts`), which PostgreSQL fixes when the transaction starts and
 which may therefore lag the database clock at the commit. `births` is history: the clock
 at the commit that inserted a booking, and the idempotency key it was inserted under.
 */
module Atomic {
  import opened Options
  import opened Tables
  import opened Reads

  datatype Birth = Birth(at: Time, key: string)

  datatype World = World(db: Db, clock: Time, births: map<Id, Birth>)

  datatype Label =
    | Idle
    | Tick
    | HoldCommitted(ts: Time, m: string, s: string, b: string, ttl: int, key: string, stale: Option<Id>, id: Id)
    | Replayed(at: Time, m: string, s: string, b: string, key: string, id: Id)
    | KeyReused(m: string, s: string, b: string, key: string)
    | InsertRejected(t: nat, ts: Time, m: string, s: string, b: string, key: string)
    | KeyRejected(t: nat, ts: Time, m: string, s: string, b: string, key: string, stale: Option<Id>)
    | SeatRefused(t: nat, ts: Time, at: Time, m: string, s: string, b: string, key: string)
    | ConfirmCommitted(ts: Time, id: Id, b: string)
    | ConfirmRefused(ts: Time, id: Id, b: string)
    | ReleaseCommitted(ts: Time, id: Id, b: string)
    | ReleaseRefused(ts: Time, id: Id, b: string)
    | CancelCommitted(ts: Time, id: Id, b: string, refundId: Id, eventId: Id)
    | CancelRefused(ts: Time, id: Id, b: string)
    | SweepCommitted(ts: Time, ids: set<Id>)
    | PruneCommitted(ts: Time, retention: Time, pruned: set<string>)
    | WorkerWrote
    | SeatsRead(at: Time, m: string, lines: set<SeatLine>)
    | HistoryRead(m: string, b: string, sales: set<HistoryLine>)

  // ---------------------------------------------------------------- steps

  ghost predicate HoldStep(w: World, l: Label, w': World)
    requires l.HoldCommitted?
  {
    var bs := Cleared(w.db.bookings, l.m, l.s, l.b, l.ts);
    var ks := WithoutStale(w.db.keys, l.key, l.stale);
    && l.ts <= w.clock
    && (l.m, l.s) in w.db.seats && l.m in w.db.matches
    && l.id !in w.db.bookings
    && !SeatTaken(bs, l.m, l.s) && !BuyerHolds(bs, l.m, l.b)
    && (l.key != "" ==> l.key !in ks)
    && (l.stale.Some? ==> l.key != "" && l.stale.value in w.db.bookings
                          && SameParams(w.db.bookings[l.stale.value], l.m, l.s, l.b))
    && w'.db == w.db.(bookings := bs[l.id := HeldRow(l.m, l.s, l.b, l.ts, l.ttl)],
                      keys := if l.key == "" then ks else ks[l.key := Key(l.id, l.ts)])
    && w'.clock == w.clock
    && w'.births == w.births[l.id := Birth(w.clock, l.key)]
  }

  /** The key's recorded booking matches the request and is live at the lookup's own `now()`. */
  ghost predicate ReplayOk(w: World, m: string, s: string, b: string, key: string, id: Id, at: Time) {
    && key in w.db.keys && w.db.keys[key].bookingId == id && id in w.db.bookings
    && SameParams(w.db.bookings[id], m, s, b)
    && Live(w.db.bookings[id], at)
  }

  ghost predicate ReuseOk(w: World, m: string, s: string, b: string, key: string) {
    && key in w.db.keys && w.db.keys[key].bookingId in w.db.bookings
    && !SameParams(w.db.bookings[w.db.keys[key].bookingId], m, s, b)
  }

  predicate Confirmable(bs: map<Id, Booking>, id: Id, b: string, now: Time) {
    id in bs && bs[id].buyerId == b && bs[id].status == Held && BeforeTtl(bs[id], now)
  }

  predicate Releasable(bs: map<Id, Booking>, id: Id, b: string) {
    id in bs && bs[id].buyerId == b && bs[id].status == Held
  }

  predicate Cancellable(db: Db, id: Id, b: string, now: Time) {
    && id in db.bookings && db.bookings[id].buyerId == b && db.bookings[id].status == Confirmed
    && db.bookings[id].matchId in db.matches && now < db.matches[db.bookings[id].matchId]
  }

  /** A transaction that only rewrites booking rows: `bs` is the table it leaves behind. */
  ghost predicate Rewrote(w: World, w': World, bs: map<Id, Booking>) {
    w' == w.(db := w.db.(bookings := bs))
  }

  ghost predicate ConfirmStep(w: World, l: Label, w': World)
    requires l.ConfirmCommitted?
  {
    && l.ts <= w.clock
    && Confirmable(w.db.bookings, l.id, l.b, l.ts)
    && Rewrote(w, w', w.db.bookings[l.id := ConfirmedRow(w.db.bookings[l.id], l.ts)])
  }

  ghost predicate ReleaseStep(w: World, l: Label, w': World)
    requires l.ReleaseCommitted?
  {
    && l.ts <= w.clock
    && Releasable(w.db.bookings, l.id, l.b)
    && Rewrote(w, w', w.db.bookings[l.id := CancelledRow(w.db.bookings[l.id], l.ts)])
  }

  function RequestedRefund(id: Id, now: Time): Refund {
    Refund(id, Pending, now, None, None)
  }

  function RequestedEvent(id: Id, refundId: Id, now: Time): Event {
    Event(REFUND_REQUESTED, id, RefundId(refundId), now, None, None)
  }

  ghost predicate CancelStep(w: World, l: Label, w': World)
    requires l.CancelCommitted?
  {
    && l.ts <= w.clock
    && Cancellable(w.db, l.id, l.b, l.ts)
    && l.refundId !in w.db.refunds && l.eventId !in w.db.events
    && w' == w.(db := w.db.(
                  bookings := w.db.bookings[l.id := CancelledRow(w.db.bookings[l.id], l.ts)],
                  refunds := w.db.refunds[l.refundId := RequestedRefund(l.id, l.ts)],
                  events := w.db.events[l.eventId := RequestedEvent(l.id, l.refundId, l.ts)]))
  }

  ghost predicate SweepStep(w: World, l: Label, w': World)
    requires l.SweepCommitted?
  {
    l.ts <= w.clock && Rewrote(w, w', Swept(w.db.bookings, l.ids, l.ts))
  }

  ghost predicate PruneStep(w: World, l: Label, w': World)
    requires l.PruneCommitted?
  {
    && l.ts <= w.clock
    && (forall k :: k in l.pruned ==> k in w.db.keys && w.db.keys[k].createdAt < l.ts - l.retention)
    && w' == w.(db := w.db.(keys := w.db.keys - l.pruned))
  }

  /** A worker statement touches only the mutable columns of refunds and outbox events. */
  ghost predicate WorkerStep(w: World, w': World) {
    && w'.db.refunds.Keys == w.db.refunds.Keys
    && w'.db.events.Keys == w.db.events.Keys
    && (forall r :: r in w.db.refunds ==> w'.db.refunds[r].bookingId == w.db.refunds[r].bookingId)
    && (forall e :: e in w.db.events ==>
          && w'.db.events[e].eventType == w.db.events[e].eventType
          && w'.db.events[e].bookingId == w.db.events[e].bookingId
          && w'.db.events[e].payload == w.db.events[e].payload)
    && w' == w.(db := w.db.(refunds := w'.db.refunds, events := w'.db.events))
  }

  /** The booking appeared after a statement with timestamp `ts` had started. */
  ghost predicate BornSince(w: World, id: Id, ts: Time) {
    id in w.births && ts <= w.births[id].at
  }

  /** Someone has the seat, other than by a hold that was past its TTL at `ts` and there by then. */
  ghost predicate SeatOccupied(w: World, m: string, s: string, ts: Time) {
    exists i :: i in w.db.bookings && ActiveAt(w.db.bookings[i], m, s)
      && (!StaleHold(w.db.bookings[i], m, s, ts) || BornSince(w, i, ts))
  }

  /** Whoever still has the seat has it by a hold that was past its TTL at `ts`. */
  ghost predicate SeatFree(w: World, m: string, s: string, ts: Time) {
    forall i :: i in w.db.bookings && ActiveAt(w.db.bookings[i], m, s) ==> StaleHold(w.db.bookings[i], m, s, ts)
  }

  /** The key names another booking than the one (or none) that a request found under it. */
  predicate KeyMoved(w: World, key: string, found: Option<Id>) {
    key != "" && key in w.db.keys && found != Some(w.db.keys[key].bookingId)
  }

  ghost predicate Step(w: World, l: Label, w': World) {
    match l
    case Idle => w' == w
    case Tick => w.clock <= w'.clock && w' == w.(clock := w'.clock)
    case HoldCommitted(_, _, _, _, _, _, _, _) => HoldStep(w, l, w')
    case Replayed(at, m, s, b, key, id) => w' == w && at <= w.clock && ReplayOk(w, m, s, b, key, id, at)
    case KeyReused(m, s, b, key) => w' == w && ReuseOk(w, m, s, b, key)
    case InsertRejected(_, ts, m, s, _, _) => w' == w && SeatOccupied(w, m, s, ts)
    case KeyRejected(_, ts, m, s, _, key, stale) => w' == w && KeyMoved(w, key, stale) && SeatFree(w, m, s, ts)
    case SeatRefused(_, _, at, m, s, b, key) =>
      && w' == w && at <= w.clock
      && (key != "" ==> !ReuseOk(w, m, s, b, key) && forall id :: !ReplayOk(w, m, s, b, key, id, at))
    case ConfirmCommitted(_, _, _) => ConfirmStep(w, l, w')
    case ConfirmRefused(ts, id, b) => w' == w && (Confirmable(w.db.bookings, id, b, ts) ==> BornSince(w, id, ts))
    case ReleaseCommitted(_, _, _) => ReleaseStep(w, l, w')
    case ReleaseRefused(ts, id, b) => w' == w && (Releasable(w.db.bookings, id, b) ==> BornSince(w, id, ts))
    case CancelCommitted(_, _, _, _, _) => CancelStep(w, l, w')
    case CancelRefused(ts, id, b) => w' == w && (Cancellable(w.db, id, b, ts) ==> BornSince(w, id, ts))
    case SweepCommitted(_, _) => SweepStep(w, l, w')
    case PruneCommitted(_, _, _) => PruneStep(w, l, w')
    case WorkerWrote => WorkerStep(w, w')
    case SeatsRead(at, m, lines) => w' == w && at <= w.clock && lines == SeatMap(w.db, at, m)
    case HistoryRead(m, b, sales) => w' == w && sales == HistoryOf(w.db, m, b)
  }

  // ---------------------------------------------------------------- what every step does to a row

  /** Every rewrite of a booking row by a transaction with timestamp `ts`. */
  predicate Rewritten(r: Booking, r': Booking, ts: Time) {
    || r' == r
    || (r.status == Held && (r' == ExpiredRow(r) || r' == ConfirmedRow(r, ts)))
    || (Active(r) && r' == CancelledRow(r, ts))
  }

  /** All rows stay and each is kept or rewritten at `ts`. */
  ghost predicate Rewrites(bs: map<Id, Booking>, bs': map<Id, Booking>, ts: Time) {
    bs'.Keys == bs.Keys && forall i :: i in bs ==> Rewritten(bs[i], bs'[i], ts)
  }

  lemma ClearedRewrites(bs: map<Id, Booking>, m: string, s: string, b: string, ts: Time)
    ensures Rewrites(bs, Cleared(bs, m, s, b, ts), ts)
  {
  }

  lemma RewritesKeepSeatUnique(bs: map<Id, Booking>, bs': map<Id, Booking>, ts: Time)
    requires SeatUnique(bs) && Rewrites(bs, bs', ts)
    ensures SeatUnique(bs')
  {
    forall i, j | i in bs' && j in bs' && Active(bs'[i]) && ActiveAt(bs'[j], bs'[i].matchId, bs'[i].seatId)
      ensures i == j
    {
      assert Rewritten(bs[i], bs'[i], ts) && Rewritten(bs[j], bs'[j], ts);
      assert Active(bs[i]) && ActiveAt(bs[j], bs[i].matchId, bs[i].seatId);
    }
  }

  lemma RewritesKeepBuyerUnique(bs: map<Id, Booking>, bs': map<Id, Booking>, ts: Time)
    requires BuyerUnique(bs) && Rewrites(bs, bs', ts)
    ensures BuyerUnique(bs')
  {
    forall i, j | i in bs' && j in bs' && bs'[i].status == Held && HeldBy(bs'[j], bs'[i].matchId, bs'[i].buyerId)
      ensures i == j
    {
      assert Rewritten(bs[i], bs'[i], ts) && Rewritten(bs[j], bs'[j], ts);
      assert bs[i].status == Held && HeldBy(bs[j], bs[i].matchId, bs[i].buyerId);
    }
  }

  lemma InsertKeepsUnique(bs: map<Id, Booking>, id: Id, r: Booking)
    requires SeatUnique(bs) && BuyerUnique(bs) && id !in bs && r.status == Held
    requires !SeatTaken(bs, r.matchId, r.seatId) && !BuyerHolds(bs, r.matchId, r.buyerId)
    ensures SeatUnique(bs[id := r]) && BuyerUnique(bs[id := r])
  {
  }

  // ---------------------------------------------------------------- invariant

  ghost predicate Shaped(bs: map<Id, Booking>) {
    forall i :: i in bs ==> WellShaped(bs[i])
  }

  /** Births and stamps are not ahead of the clock. */
  predicate StampsOk(r: Booking, born: Time, clock: Time) {
    && born <= clock
    && (r.confirmedAt.Some? ==> r.confirmedAt.value <= clock)
    && (r.cancelledAt.Some? ==> r.cancelledAt.value <= clock)
  }

  ghost predicate Dated(w: World) {
    && w.births.Keys == w.db.bookings.Keys
    && forall i :: i in w.db.bookings ==> StampsOk(w.db.bookings[i], w.births[i].at, w.clock)
  }

  predicate SameSeat(r: Booking, q: Booking) {
    r.matchId == q.matchId && r.seatId == q.seatId
  }

  /** Booking `r` was over before one born at `born` came to be. */
  predicate Over(r: Booking, born: Time) {
    !Active(r) && (r.cancelledAt.Some? ==> r.cancelledAt.value <= born)
  }

  /** Of two bookings of one seat, one was over before the other was born. */
  ghost predicate Succession(w: World) {
    forall i, j |
      && i in w.db.bookings && j in w.db.bookings && i != j && i in w.births && j in w.births
      && SameSeat(w.db.bookings[i], w.db.bookings[j]) ::
      Over(w.db.bookings[i], w.births[j].at) || Over(w.db.bookings[j], w.births[i].at)
  }

  /** Every key maps to a booking that was inserted under it. */
  ghost predicate Keyed(w: World) {
    forall k :: k in w.db.keys ==>
      && k != "" && w.db.keys[k].bookingId in w.db.bookings
      && w.db.keys[k].bookingId in w.births && w.births[w.db.keys[k].bookingId].key == k
  }

  ghost predicate Inv(w: World) {
    && Shaped(w.db.bookings)
    && SeatUnique(w.db.bookings)
    && BuyerUnique(w.db.bookings)
    && Dated(w)
    && Succession(w)
    && Keyed(w)
  }

  ghost predicate Init(w: World) {
    w.db.bookings == map[] && w.db.keys == map[] && w.db.refunds == map[] && w.db.events == map[] && w.births == map[]
  }

  /** A step that rewrites rows at `ts`. */
  ghost predicate RewriteStep(w: World, w': World, ts: Time) {
    && ts <= w.clock
    && w'.clock == w.clock && w'.births == w.births
    && Rewrites(w.db.bookings, w'.db.bookings, ts)
  }

  lemma RewriteKeepsShaped(bs: map<Id, Booking>, bs': map<Id, Booking>, ts: Time)
    requires Shaped(bs) && Rewrites(bs, bs', ts)
    ensures Shaped(bs')
  {
    forall i | i in bs' ensures WellShaped(bs'[i]) {
      assert Rewritten(bs[i], bs'[i], ts) && WellShaped(bs[i]);
    }
  }

  lemma RewriteKeepsDated(w: World, w': World, ts: Time)
    requires Dated(w) && RewriteStep(w, w', ts)
    ensures Dated(w')
  {
    forall i | i in w'.db.bookings
      ensures StampsOk(w'.db.bookings[i], w'.births[i].at, w'.clock)
    {
      assert Rewritten(w.db.bookings[i], w'.db.bookings[i], ts);
      assert StampsOk(w.db.bookings[i], w.births[i].at, w.clock);
    }
  }

  /** An active row must be the younger of every pair, and inactive rows are never rewritten. */
  lemma RewriteKeepsSuccession(w: World, w': World, ts: Time)
    requires Succession(w) && RewriteStep(w, w', ts)
    ensures Succession(w')
  {
    var bs, bs' := w.db.bookings, w'.db.bookings;
    forall i, j | i in bs' && j in bs' && i != j && i in w'.births && j in w'.births && SameSeat(bs'[i], bs'[j])
      ensures Over(bs'[i], w'.births[j].at) || Over(bs'[j], w'.births[i].at)
    {
      assert Rewritten(bs[i], bs'[i], ts) && Rewritten(bs[j], bs'[j], ts);
      assert SameSeat(bs[i], bs[j]);
      assert Over(bs[i], w.births[j].at) || Over(bs[j], w.births[i].at);
    }
  }

  lemma RewriteKeepsInv(w: World, w': World, ts: Time)
    requires Inv(w) && RewriteStep(w, w', ts) && w'.db.keys == w.db.keys
    ensures Inv(w')
  {
    RewriteKeepsShaped(w.db.bookings, w'.db.bookings, ts);
    RewritesKeepSeatUnique(w.db.bookings, w'.db.bookings, ts);
    RewritesKeepBuyerUnique(w.db.bookings, w'.db.bookings, ts);
    RewriteKeepsDated(w, w', ts);
    RewriteKeepsSuccession(w, w', ts);
  }

  /** The table a hold transaction leaves just before its INSERT. */
  ghost function ClearedWorld(w: World, l: Label): World
    requires l.HoldCommitted?
  {
    w.(db := w.db.(bookings := Cleared(w.db.bookings, l.m, l.s, l.b, l.ts)))
  }

  lemma ClearingKeepsInv(w: World, l: Label)
    requires l.HoldCommitted? && Inv(w) && l.ts <= w.clock
    ensures Inv(ClearedWorld(w, l))
  {
    ClearedRewrites(w.db.bookings, l.m, l.s, l.b, l.ts);
    RewriteKeepsInv(w, ClearedWorld(w, l), l.ts);
  }

  lemma BirthKeepsSuccession(w: World, w': World, id: Id, r: Booking, key: string)
    requires Inv(w) && id !in w.db.bookings && r.status == Held
    requires !SeatTaken(w.db.bookings, r.matchId, r.seatId)
    requires w'.db.bookings == w.db.bookings[id := r] && w'.births == w.births[id := Birth(w.clock, key)]
    ensures Succession(w')
  {
    var bs, bs' := w.db.bookings, w'.db.bookings;
    forall i, j | i in bs' && j in bs' && i != j && i in w'.births && j in w'.births && SameSeat(bs'[i], bs'[j])
      ensures Over(bs'[i], w'.births[j].at) || Over(bs'[j], w'.births[i].at)
    {
      if i == id {
        assert StampsOk(bs[j], w.births[j].at, w.clock);
        assert !ActiveAt(bs[j], r.matchId, r.seatId);
      } else if j == id {
        assert StampsOk(bs[i], w.births[i].at, w.clock);
        assert !ActiveAt(bs[i], r.matchId, r.seatId);
      } else {
        assert SameSeat(bs[i], bs[j]);
      }
    }
  }

  lemma HoldKeepsKeyed(w: World, l: Label, w': World)
    requires l.HoldCommitted? && Keyed(w) && w.births.Keys == w.db.bookings.Keys && HoldStep(w, l, w')
    ensures Keyed(w')
  {
    forall k | k in w'.db.keys
      ensures k != "" && w'.db.keys[k].bookingId in w'.db.bookings
      ensures w'.db.keys[k].bookingId in w'.births && w'.births[w'.db.keys[k].bookingId].key == k
    {
      if k != l.key {
        assert k in w.db.keys && w'.db.keys[k] == w.db.keys[k];
      }
    }
  }

  /** Inserting a held row whose two index keys are free keeps everything but the key table's condition. */
  lemma BirthKeepsRows(w: World, w': World, id: Id, r: Booking, key: string)
    requires Inv(w) && id !in w.db.bookings && r.status == Held && WellShaped(r)
    requires !SeatTaken(w.db.bookings, r.matchId, r.seatId) && !BuyerHolds(w.db.bookings, r.matchId, r.buyerId)
    requires w'.db.bookings == w.db.bookings[id := r] && w'.births == w.births[id := Birth(w.clock, key)]
    requires w'.clock == w.clock
    ensures Shaped(w'.db.bookings) && SeatUnique(w'.db.bookings) && BuyerUnique(w'.db.bookings)
    ensures Dated(w')
  {
    InsertKeepsUnique(w.db.bookings, id, r);
    forall i | i in w'.db.bookings ensures StampsOk(w'.db.bookings[i], w'.births[i].at, w'.clock) {
      if i != id {
        assert StampsOk(w.db.bookings[i], w.births[i].at, w.clock);
      }
    }
  }

  lemma HoldKeepsInv(w: World, l: Label, w': World)
    requires l.HoldCommitted? && Inv(w) && HoldStep(w, l, w')
    ensures Inv(w')
  {
    ClearingKeepsInv(w, l);
    var v := ClearedWorld(w, l);
    var r := HeldRow(l.m, l.s, l.b, l.ts, l.ttl);
    assert Keyed(w') by { HoldKeepsKeyed(w, l, w'); }
    BirthKeepsRows(v, w', l.id, r, l.key);
    BirthKeepsSuccession(v, w', l.id, r, l.key);
  }

  lemma ConfirmKeepsInv(w: World, l: Label, w': World)
    requires l.ConfirmCommitted? && Inv(w) && ConfirmStep(w, l, w')
    ensures Inv(w')
  {
    RewriteKeepsInv(w, w', l.ts);
  }

  lemma ReleaseKeepsInv(w: World, l: Label, w': World)
    requires l.ReleaseCommitted? && Inv(w) && ReleaseStep(w, l, w')
    ensures Inv(w')
  {
    RewriteKeepsInv(w, w', l.ts);
  }

  lemma CancelKeepsInv(w: World, l: Label, w': World)
    requires l.CancelCommitted? && Inv(w) && CancelStep(w, l, w')
    ensures Inv(w')
  {
    RewriteKeepsInv(w, w', l.ts);
  }

  lemma SweepKeepsInv(w: World, l: Label, w': World)
    requires l.SweepCommitted? && Inv(w) && SweepStep(w, l, w')
    ensures Inv(w')
  {
    RewriteKeepsInv(w, w', l.ts);
  }

  lemma TickKeepsInv(w: World, w': World)
    requires Inv(w) && w.clock <= w'.clock && w' == w.(clock := w'.clock)
    ensures Inv(w')
  {
    forall i | i in w'.db.bookings ensures StampsOk(w'.db.bookings[i], w'.births[i].at, w'.clock) {
      assert StampsOk(w.db.bookings[i], w.births[i].at, w.clock);
    }
  }

  lemma StepKeepsInv(w: World, l: Label, w': World)
    requires Inv(w) && Step(w, l, w')
    ensures Inv(w')
  {
    match l
    case HoldCommitted(_, _, _, _, _, _, _, _) => HoldKeepsInv(w, l, w');
    case ConfirmCommitted(_, _, _) => ConfirmKeepsInv(w, l, w');
    case ReleaseCommitted(_, _, _) => ReleaseKeepsInv(w, l, w');
    case CancelCommitted(_, _, _, _, _) => CancelKeepsInv(w, l, w');
    case SweepCommitted(_, _) => SweepKeepsInv(w, l, w');
    case Tick => TickKeepsInv(w, w');
    case _ =>
  }
}
