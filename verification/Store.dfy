/**
 The store's operations one at a time. `Place`, `ConfirmHold`, ... say what each call does to
 the tables in terms of the table it finds; class `Store` runs the statements of the Go
 methods, with their early returns, recovery lookups and rollbacks, and is proved to do that.
 */
module StoreModel {
  import opened Options
  import opened Tables
  import A = Atomic

  /** The tables and the identity sequences, which a rollback does not rewind. */
  datatype Shop = Shop(db: Db, nextId: Id, nextRefund: Id, nextEvent: Id)

  datatype Answer =
    | Placed(id: Id, row: Booking)
    | ConfirmedAs(row: Booking)
    | ReleasedIn(m: string)
    | CancelledAs(row: Booking)
    | ErrSeatUnavailable
    | ErrHoldExpired
    | ErrNotFound
    | ErrIdempotencyKeyReuse
    | ErrForeignKey

  // ---------------------------------------------------------------- specification

  datatype KeyState = Miss | LiveRow(id: Id) | DeadRow(id: Id) | Mismatch

  function Lookup(db: Db, now: Time, m: string, s: string, b: string, key: string): KeyState {
    if key !in db.keys || db.keys[key].bookingId !in db.bookings then Miss
    else
      var id := db.keys[key].bookingId;
      if !SameParams(db.bookings[id], m, s, b) then Mismatch
      else if Live(db.bookings[id], now) then LiveRow(id)
      else DeadRow(id)
  }

  /** Someone has the seat and not by a hold that is past its TTL. */
  predicate Blocked(bs: map<Id, Booking>, m: string, s: string, now: Time) {
    exists i :: i in bs && ActiveAt(bs[i], m, s) && !StaleHold(bs[i], m, s, now)
  }

  /** The tables after a hold is granted. */
  function Granted(st: Shop, now: Time, m: string, s: string, b: string, ttl: int, key: string): Shop {
    st.(db := st.db.(
          bookings := Cleared(st.db.bookings, m, s, b, now)[st.nextId := HeldRow(m, s, b, now, ttl)],
          keys := if key == "" then st.db.keys else st.db.keys[key := Key(st.nextId, now)]),
        nextId := st.nextId + 1)
  }

  predicate SeatExists(db: Db, m: string, s: string) {
    (m, s) in db.seats && m in db.matches
  }

  function Place(st: Shop, now: Time, m: string, s: string, b: string, ttl: int, key: string): (Shop, Answer) {
    var found := if key == "" then Miss else Lookup(st.db, now, m, s, b, key);
    if found.Mismatch? then (st, ErrIdempotencyKeyReuse)
    else if found.LiveRow? && found.id in st.db.bookings then (st, Placed(found.id, st.db.bookings[found.id]))
    else if Blocked(st.db.bookings, m, s, now) then (st.(nextId := st.nextId + 1), ErrSeatUnavailable)
    else if !SeatExists(st.db, m, s) then (st.(nextId := st.nextId + 1), ErrForeignKey)
    else (Granted(st, now, m, s, b, ttl, key), Placed(st.nextId, HeldRow(m, s, b, now, ttl)))
  }

  function WithBooking(st: Shop, id: Id, r: Booking): Shop {
    st.(db := st.db.(bookings := st.db.bookings[id := r]))
  }

  function Confirm(st: Shop, now: Time, id: Id, b: string): (Shop, Answer) {
    if A.Confirmable(st.db.bookings, id, b, now) then
      var r := ConfirmedRow(st.db.bookings[id], now);
      (WithBooking(st, id, r), ConfirmedAs(r))
    else (st, ErrHoldExpired)
  }

  function Release(st: Shop, now: Time, id: Id, b: string): (Shop, Answer) {
    if A.Releasable(st.db.bookings, id, b) then
      (WithBooking(st, id, CancelledRow(st.db.bookings[id], now)), ReleasedIn(st.db.bookings[id].matchId))
    else (st, ErrNotFound)
  }

  function Cancel(st: Shop, now: Time, id: Id, b: string): (Shop, Answer) {
    if A.Cancellable(st.db, id, b, now) then
      var r := CancelledRow(st.db.bookings[id], now);
      (st.(db := st.db.(
             bookings := st.db.bookings[id := r],
             refunds := st.db.refunds[st.nextRefund := A.RequestedRefund(id, now)],
             events := st.db.events[st.nextEvent := A.RequestedEvent(id, st.nextRefund, now)]),
           nextRefund := st.nextRefund + 1, nextEvent := st.nextEvent + 1),
       CancelledAs(r))
    else (st, ErrHoldExpired)
  }

  function Sweep(st: Shop, now: Time, ids: set<Id>): Shop {
    st.(db := st.db.(bookings := Swept(st.db.bookings, ids, now)))
  }

  /** The rows the sweep's sub-select may pick. */
  function SweepableIds(bs: map<Id, Booking>, now: Time): set<Id> {
    set i | i in bs && bs[i].status == Held && PastTtl(bs[i], now)
  }

  predicate ExpiresBy(bs: map<Id, Booking>, i: Id, j: Id) {
    && i in bs && j in bs && bs[i].holdExpiresAt.Some? && bs[j].holdExpiresAt.Some?
    && bs[i].holdExpiresAt.value <= bs[j].holdExpiresAt.value
  }

  /** The batches a sweep may take: up to `limit` holds past their TTL, those that expired first. */
  ghost predicate IsSweepBatch(bs: map<Id, Booking>, now: Time, limit: nat, batch: set<Id>) {
    && batch <= SweepableIds(bs, now) && |batch| <= limit
    && (|batch| < limit ==> batch == SweepableIds(bs, now))
    && (forall i, j :: i in batch && j in SweepableIds(bs, now) && j !in batch ==> ExpiresBy(bs, i, j))
  }

  lemma {:induction false} FirstToExpire(bs: map<Id, Booking>, ids: set<Id>) returns (o: Id)
    requires ids != {} && forall i :: i in ids ==> i in bs && bs[i].holdExpiresAt.Some?
    ensures o in ids && forall i :: i in ids ==> ExpiresBy(bs, o, i)
    decreases ids
  {
    o :| o in ids;
    var rest := ids - {o};
    assert forall i :: i in ids ==> i == o || i in rest;
    if rest != {} {
      var p := FirstToExpire(bs, rest);
      if bs[p].holdExpiresAt.value < bs[o].holdExpiresAt.value {
        o := p;
      }
    }
  }

  /** The sub-select: ORDER BY hold_expires_at LIMIT `limit`. */
  method PickSweepBatch(bs: map<Id, Booking>, now: Time, limit: nat) returns (batch: set<Id>)
    ensures IsSweepBatch(bs, now, limit, batch)
  {
    batch := {};
    var rest := SweepableIds(bs, now);
    while |batch| < limit && rest != {}
      invariant |batch| <= limit && batch !! rest && SweepableIds(bs, now) == batch + rest
      invariant forall i, j :: i in batch && j in rest ==> ExpiresBy(bs, i, j)
      decreases rest
    {
      ghost var o := FirstToExpire(bs, rest);
      var i :| i in rest && forall j :: j in rest ==> ExpiresBy(bs, i, j);
      batch, rest := batch + {i}, rest - {i};
    }
  }

  /** The keys the prune's sub-select may pick: those older than `horizon`. */
  function PrunableKeys(ks: map<string, Key>, horizon: Time): set<string> {
    set k | k in ks && ks[k].createdAt < horizon
  }

  /** The batches a prune may take: up to `limit` keys older than the horizon, the oldest first. */
  ghost predicate IsPruneBatch(ks: map<string, Key>, horizon: Time, limit: nat, batch: set<string>) {
    && (forall k :: k in batch ==> k in ks && ks[k].createdAt < horizon) && |batch| <= limit
    && (|batch| < limit ==> forall k :: k in ks && ks[k].createdAt < horizon ==> k in batch)
    && (forall k, l :: k in batch && l in ks && l !in batch ==> ks[k].createdAt <= ks[l].createdAt)
  }

  lemma {:induction false} OldestKey(ks: map<string, Key>, picks: set<string>) returns (o: string)
    requires picks != {} && forall k :: k in picks ==> k in ks
    ensures o in picks && forall k :: k in picks ==> ks[o].createdAt <= ks[k].createdAt
    decreases picks
  {
    o :| o in picks;
    var rest := picks - {o};
    assert forall k :: k in picks ==> k == o || k in rest;
    if rest != {} {
      var p := OldestKey(ks, rest);
      if ks[p].createdAt < ks[o].createdAt {
        o := p;
      }
    }
  }

  /** The prune's sub-select: ORDER BY created_at LIMIT `limit`. */
  method PickPruneBatch(ks: map<string, Key>, horizon: Time, limit: nat) returns (batch: set<string>)
    ensures IsPruneBatch(ks, horizon, limit, batch)
  {
    batch := {};
    var rest := PrunableKeys(ks, horizon);
    while |batch| < limit && rest != {}
      invariant |batch| <= limit && batch !! rest && PrunableKeys(ks, horizon) == batch + rest
      invariant forall k, l :: k in batch && l in rest ==> ks[k].createdAt <= ks[l].createdAt
      decreases rest
    {
      ghost var o := OldestKey(ks, rest);
      var k :| k in rest && forall l :: l in rest ==> ks[k].createdAt <= ks[l].createdAt;
      batch, rest := batch + {k}, rest - {k};
    }
    forall k, l | k in batch && l in ks && l !in batch ensures ks[k].createdAt <= ks[l].createdAt {
      assert k in PrunableKeys(ks, horizon);
      assert l in rest || l !in PrunableKeys(ks, horizon);
    }
    forall k | k in ks && ks[k].createdAt < horizon ensures k in batch || k in rest {
      assert k in PrunableKeys(ks, horizon);
    }
  }

  /** Row numbers already drawn from the sequences, and keys that name bookings. */
  ghost predicate Sane(st: Shop) {
    && (forall i :: i in st.db.bookings ==> i < st.nextId)
    && (forall k :: k in st.db.keys ==> st.db.keys[k].bookingId in st.db.bookings)
  }

  // ---------------------------------------------------------------- what a hold request is promised

  /** The row is sold, or a hold that is not over. */
  predicate InForce(r: Booking, now: Time) {
    r.status == Confirmed || (r.status == Held && r.holdExpiresAt.Some? && now < r.holdExpiresAt.value)
  }

  /** The row still has its seat: it is sold, or a hold that may not be reclaimed. */
  predicate Occupies(r: Booking, m: string, s: string, now: Time) {
    && r.matchId == m && r.seatId == s
    && (r.status == Confirmed || (r.status == Held && !(r.holdExpiresAt.Some? && r.holdExpiresAt.value < now)))
  }

  predicate AsksFor(r: Booking, m: string, s: string, b: string) {
    r.matchId == m && r.seatId == s && r.buyerId == b
  }

  /** What a granted hold leaves of a row `r` that was there: the buyer's other holds in the match are
      cancelled, a hold on the seat past its expiry is expired, and every other row is kept. */
  function Displaced(r: Booking, m: string, s: string, b: string, now: Time): Booking {
    if r.status == Held && r.matchId == m && r.buyerId == b && r.seatId != s then
      r.(status := Cancelled, cancelledAt := Some(now))
    else if r.status == Held && r.matchId == m && r.seatId == s && r.holdExpiresAt.Some? && r.holdExpiresAt.value < now then
      r.(status := Expired)
    else r
  }

  /** The key names booking `id`. */
  predicate Names(db: Db, key: string, id: Id) {
    key != "" && key in db.keys && db.keys[key].bookingId == id && id in db.bookings
  }

  /** The booking that the key names, unchanged, answers the request once more. */
  ghost predicate IsReplay(st: Shop, now: Time, m: string, s: string, b: string, key: string, id: Id, row: Booking, st': Shop) {
    st' == st && Names(st.db, key, id) && row == st.db.bookings[id] && AsksFor(row, m, s, b) && InForce(row, now)
  }

  /** A new booking answers the request: nobody had the seat, and the key, if any, named nothing in force. */
  ghost predicate IsGrant(st: Shop, now: Time, m: string, s: string, b: string, ttl: int, key: string, id: Id, row: Booking, st': Shop) {
    var bs, bs' := st.db.bookings, st'.db.bookings;
    && id !in bs && (m, s) in st.db.seats && m in st.db.matches
    && (forall i :: i in bs ==> !Occupies(bs[i], m, s, now))
    && (forall i :: Names(st.db, key, i) ==> AsksFor(bs[i], m, s, b) && !InForce(bs[i], now))
    && row == Booking(m, s, b, Held, Some(now + ttl), None, None, now)
    && bs'.Keys == bs.Keys + {id} && bs'[id] == row
    && (forall i :: i in bs ==> bs'[i] == Displaced(bs[i], m, s, b, now))
    && st'.db.keys == (if key == "" then st.db.keys else st.db.keys[key := Key(id, now)])
    && st'.db.refunds == st.db.refunds && st'.db.events == st.db.events
  }

  /** Every answer to a hold request, and what it says of the tables before and after. */
  ghost predicate HoldAnswered(st: Shop, now: Time, m: string, s: string, b: string, ttl: int, key: string, st': Shop, a: Answer) {
    match a
    case Placed(id, row) =>
      IsReplay(st, now, m, s, b, key, id, row, st') || IsGrant(st, now, m, s, b, ttl, key, id, row, st')
    case ErrIdempotencyKeyReuse =>
      st'.db == st.db && exists i :: Names(st.db, key, i) && !AsksFor(st.db.bookings[i], m, s, b)
    case ErrSeatUnavailable =>
      && st'.db == st.db && (exists i :: i in st.db.bookings && Occupies(st.db.bookings[i], m, s, now))
      && forall i :: Names(st.db, key, i) ==> AsksFor(st.db.bookings[i], m, s, b) && !InForce(st.db.bookings[i], now)
    case ErrForeignKey => st'.db == st.db && ((m, s) !in st.db.seats || m !in st.db.matches)
    case _ => false
  }

  lemma LookupNames(db: Db, now: Time, m: string, s: string, b: string, key: string)
    requires key != ""
    ensures match Lookup(db, now, m, s, b, key)
            case Miss => forall i :: !Names(db, key, i)
            case LiveRow(id) => Names(db, key, id) && AsksFor(db.bookings[id], m, s, b) && InForce(db.bookings[id], now)
            case DeadRow(id) => Names(db, key, id) && AsksFor(db.bookings[id], m, s, b) && !InForce(db.bookings[id], now)
            case Mismatch => exists i :: Names(db, key, i) && !AsksFor(db.bookings[i], m, s, b)
  {
    if Lookup(db, now, m, s, b, key).Mismatch? {
      assert Names(db, key, db.keys[key].bookingId);
    }
  }

  lemma BlockedIffOccupied(bs: map<Id, Booking>, m: string, s: string, now: Time)
    ensures Blocked(bs, m, s, now) <==> exists i :: i in bs && Occupies(bs[i], m, s, now)
  {
    if i :| i in bs && ActiveAt(bs[i], m, s) && !StaleHold(bs[i], m, s, now) {
      assert Occupies(bs[i], m, s, now);
    }
    if i :| i in bs && Occupies(bs[i], m, s, now) {
      assert ActiveAt(bs[i], m, s) && !StaleHold(bs[i], m, s, now);
    }
  }

  lemma GrantedIsGrant(st: Shop, now: Time, m: string, s: string, b: string, ttl: int, key: string)
    requires Sane(st) && !Blocked(st.db.bookings, m, s, now) && SeatExists(st.db, m, s)
    requires forall i :: Names(st.db, key, i) ==> AsksFor(st.db.bookings[i], m, s, b) && !InForce(st.db.bookings[i], now)
    ensures IsGrant(st, now, m, s, b, ttl, key, st.nextId, HeldRow(m, s, b, now, ttl), Granted(st, now, m, s, b, ttl, key))
  {
    BlockedIffOccupied(st.db.bookings, m, s, now);
  }

  /** The specification of placeHold answers every request, keyed or not, as promised; in particular the row
      it answers with is the one the table has under that id afterwards. */
  lemma PlaceAnswers(st: Shop, now: Time, m: string, s: string, b: string, ttl: int, key: string)
    requires Sane(st)
    ensures var (st', a) := Place(st, now, m, s, b, ttl, key);
            && HoldAnswered(st, now, m, s, b, ttl, key, st', a)
            && (a.Placed? ==> a.id in st'.db.bookings && a.row == st'.db.bookings[a.id])
  {
    if key != "" {
      LookupNames(st.db, now, m, s, b, key);
    }
    BlockedIffOccupied(st.db.bookings, m, s, now);
    var found := if key == "" then Miss else Lookup(st.db, now, m, s, b, key);
    if !found.Mismatch? && !found.LiveRow? && !Blocked(st.db.bookings, m, s, now) && SeatExists(st.db, m, s) {
      GrantedIsGrant(st, now, m, s, b, ttl, key);
    }
  }

  // ---------------------------------------------------------------- why the statements meet it

  /** After its two UPDATEs the hold path finds the seat taken iff it was blocked before them. */
  lemma TakenIffBlocked(bs: map<Id, Booking>, m: string, s: string, b: string, now: Time)
    ensures SeatTaken(Cleared(bs, m, s, b, now), m, s) <==> Blocked(bs, m, s, now)
  {
    var cs := Cleared(bs, m, s, b, now);
    if i :| i in bs && ActiveAt(bs[i], m, s) && !StaleHold(bs[i], m, s, now) {
      assert cs[i] == bs[i];
      assert ActiveAt(cs[i], m, s);
    }
  }

  /** After its UPDATEs, any hold the buyer still has in the match is on the target seat. */
  lemma BuyerIndexAddsNothing(bs: map<Id, Booking>, m: string, s: string, b: string, now: Time)
    ensures BuyerHolds(Cleared(bs, m, s, b, now), m, b) ==> SeatTaken(Cleared(bs, m, s, b, now), m, s)
  {
    var cs := Cleared(bs, m, s, b, now);
    if i :| i in cs && HeldBy(cs[i], m, b) {
      assert ActiveAt(cs[i], m, s);
    }
  }

  /** A granted hold is a step of the atomic machine whose timestamp is the clock, so the store's
      tables stay within that machine's invariant. */
  lemma GrantIsAStep(st: Shop, now: Time, births: map<Id, A.Birth>, m: string, s: string, b: string, ttl: int, key: string)
    requires Sane(st)
    requires (key != "" ==> Lookup(st.db, now, m, s, b, key).Miss? || Lookup(st.db, now, m, s, b, key).DeadRow?)
    requires !Blocked(st.db.bookings, m, s, now) && SeatExists(st.db, m, s)
    ensures var stale := if key != "" && key in st.db.keys then Some(st.db.keys[key].bookingId) else None;
            A.Step(A.World(st.db, now, births), A.HoldCommitted(now, m, s, b, ttl, key, stale, st.nextId),
                   A.World(Granted(st, now, m, s, b, ttl, key).db, now, births[st.nextId := A.Birth(now, key)]))
  {
    TakenIffBlocked(st.db.bookings, m, s, b, now);
    BuyerIndexAddsNothing(st.db.bookings, m, s, b, now);
    if key != "" {
      var stale := if key in st.db.keys then Some(st.db.keys[key].bookingId) else None;
      assert WithoutStale(st.db.keys, key, stale)[key := Key(st.nextId, now)] == st.db.keys[key := Key(st.nextId, now)];
    }
  }

  /** The other calls are steps of that machine too, whether they succeed or are refused. */
  lemma OtherCallsAreSteps(st: Shop, now: Time, births: map<Id, A.Birth>, id: Id, b: string, batch: set<Id>)
    requires forall i :: i in st.db.bookings ==> i in births && births[i].at <= now
    requires st.nextRefund !in st.db.refunds && st.nextEvent !in st.db.events
    ensures A.Step(A.World(st.db, now, births),
                   if A.Confirmable(st.db.bookings, id, b, now) then A.ConfirmCommitted(now, id, b) else A.ConfirmRefused(now, id, b),
                   A.World(Confirm(st, now, id, b).0.db, now, births))
    ensures A.Step(A.World(st.db, now, births),
                   if A.Releasable(st.db.bookings, id, b) then A.ReleaseCommitted(now, id, b) else A.ReleaseRefused(now, id, b),
                   A.World(Release(st, now, id, b).0.db, now, births))
    ensures A.Step(A.World(st.db, now, births),
                   if A.Cancellable(st.db, id, b, now) then A.CancelCommitted(now, id, b, st.nextRefund, st.nextEvent)
                   else A.CancelRefused(now, id, b),
                   A.World(Cancel(st, now, id, b).0.db, now, births))
    ensures A.Step(A.World(st.db, now, births), A.SweepCommitted(now, batch), A.World(Sweep(st, now, batch).db, now, births))
  {
  }

  class Store {
    const seats: map<(string, string), string>
    const matches: map<string, Time>
    var bookings: map<Id, Booking>
    var keys: map<string, Key>
    var refunds: map<Id, Refund>
    var events: map<Id, Event>
    var nextId: Id
    var nextRefund: Id
    var nextEvent: Id

    constructor (seats: map<(string, string), string>, matches: map<string, Time>)
      ensures View() == Shop(Db(seats, matches, map[], map[], map[], map[]), 1, 1, 1)
      ensures Sane(View())
    {
      this.seats, this.matches := seats, matches;
      bookings, keys, refunds, events := map[], map[], map[], map[];
      nextId, nextRefund, nextEvent := 1, 1, 1;
    }

    function View(): Shop
      reads this
    {
      Shop(Db(seats, matches, bookings, keys, refunds, events), nextId, nextRefund, nextEvent)
    }

    /** The lookup after a unique violation (holds.go:141-153, 169-177): a mismatch or a live mapping
        answers the request, a missing or dead one does not. */
    method Recover(now: Time, m: string, s: string, b: string, key: string) returns (answered: bool, a: Answer)
      ensures var found := Lookup(View().db, now, m, s, b, key);
              && answered == (found.Mismatch? || found.LiveRow?)
              && (found.Mismatch? ==> a == ErrIdempotencyKeyReuse)
              && (found.LiveRow? ==> found.id in bookings && a == Placed(found.id, bookings[found.id]))
    {
      var found := Lookup(View().db, now, m, s, b, key);
      match found
      case Mismatch => return true, ErrIdempotencyKeyReuse;
      case LiveRow(id) => return true, Placed(id, bookings[id]);
      case _ => return false, ErrSeatUnavailable;
    }

    /** placeHold (holds.go:43-188) with nothing interleaved. The transaction works on its own copies of
        the two tables; a return before the commit drops them. */
    method PlaceHold(now: Time, m: string, s: string, b: string, ttl: int, key: string) returns (a: Answer)
      requires Sane(View())
      modifies this
      ensures (View(), a) == Place(old(View()), now, m, s, b, ttl, key)
      ensures a.Placed? ==> a.id in bookings && a.row == bookings[a.id]
      ensures Sane(View())
    {
      var stale: Option<Id> := None;
      if key != "" {
        var found := Lookup(View().db, now, m, s, b, key);
        match found
        case Mismatch => return ErrIdempotencyKeyReuse;
        case LiveRow(id) => return Placed(id, bookings[id]);
        case DeadRow(id) => stale := Some(id);
        case Miss =>
      }
      var txKeys := WithoutStale(keys, key, stale);
      var txRows := CancelOthers(bookings, m, s, b, now);
      txRows := ExpireStale(txRows, m, s, now);
      TakenIffBlocked(bookings, m, s, b, now);
      BuyerIndexAddsNothing(bookings, m, s, b, now);

      var id := nextId;
      nextId := nextId + 1;
      if SeatTaken(txRows, m, s) || BuyerHolds(txRows, m, b) {
        if key != "" {
          var answered, replay := Recover(now, m, s, b, key);
          if answered {
            return replay;
          }
        }
        return ErrSeatUnavailable;
      }
      if !SeatExists(View().db, m, s) {
        return ErrForeignKey;
      }
      txRows := txRows[id := HeldRow(m, s, b, now, ttl)];
      if key != "" {
        if key in txKeys {
          var answered, replay := Recover(now, m, s, b, key);
          return if answered then replay else ErrSeatUnavailable;
        }
        txKeys := txKeys[key := Key(id, now)];
        assert txKeys == keys[key := Key(id, now)];
      }
      bookings, keys := txRows, txKeys;
      a := Placed(id, HeldRow(m, s, b, now, ttl));
    }

    /** PlaceHoldWithKey (holds.go:39-41): every request is answered as promised. */
    method PlaceHoldWithKey(now: Time, m: string, s: string, b: string, ttl: int, key: string) returns (a: Answer)
      requires Sane(View())
      modifies this
      ensures (View(), a) == Place(old(View()), now, m, s, b, ttl, key)
      ensures HoldAnswered(old(View()), now, m, s, b, ttl, key, View(), a)
      ensures Sane(View())
    {
      PlaceAnswers(View(), now, m, s, b, ttl, key);
      a := PlaceHold(now, m, s, b, ttl, key);
    }

    /** ConfirmHold (holds.go:237-254): the buyer's own hold, if it is not over, and nothing else, is
        confirmed, and the answer is the row as it is then. */
    method ConfirmHold(now: Time, id: Id, b: string) returns (a: Answer)
      modifies this
      ensures (View(), a) == Confirm(old(View()), now, id, b)
      ensures a.ConfirmedAs? || a == ErrHoldExpired
      ensures a.ConfirmedAs? <==>
                && id in old(bookings) && old(bookings)[id].buyerId == b && old(bookings)[id].status == Held
                && old(bookings)[id].holdExpiresAt.Some? && now < old(bookings)[id].holdExpiresAt.value
      ensures a.ConfirmedAs? ==> var r := old(bookings)[id];
                && bookings == old(bookings)[id := a.row]
                && a.row == Booking(r.matchId, r.seatId, b, Confirmed, None, Some(now), r.cancelledAt, r.createdAt)
      ensures !a.ConfirmedAs? ==> View() == old(View())
      ensures old(Sane(View())) ==> Sane(View())
    {
      if id in bookings && bookings[id].buyerId == b && bookings[id].status == Held && BeforeTtl(bookings[id], now) {
        bookings := bookings[id := ConfirmedRow(bookings[id], now)];
        return ConfirmedAs(bookings[id]);
      }
      a := ErrHoldExpired;
    }

    /** ReleaseHold (holds.go:260-274): the buyer's own hold, over or not, and nothing else, is cancelled, and
        the answer is its match. */
    method ReleaseHold(now: Time, id: Id, b: string) returns (a: Answer)
      modifies this
      ensures (View(), a) == Release(old(View()), now, id, b)
      ensures a.ReleasedIn? || a == ErrNotFound
      ensures a.ReleasedIn? <==> id in old(bookings) && old(bookings)[id].buyerId == b && old(bookings)[id].status == Held
      ensures a.ReleasedIn? ==> var r := old(bookings)[id];
                && a.m == r.matchId
                && bookings == old(bookings)[id := Booking(r.matchId, r.seatId, b, Cancelled, r.holdExpiresAt, r.confirmedAt, Some(now), r.createdAt)]
      ensures !a.ReleasedIn? ==> View() == old(View())
      ensures old(Sane(View())) ==> Sane(View())
    {
      if id in bookings && bookings[id].buyerId == b && bookings[id].status == Held {
        bookings := bookings[id := CancelledRow(bookings[id], now)];
        return ReleasedIn(bookings[id].matchId);
      }
      a := ErrNotFound;
    }

    /** CancelBooking (refunds.go:19-57): three writes, one commit. The buyer's own sale, if its match has
        not begun, is cancelled, with one pending refund of it and one open event that carries the refund. */
    method CancelBooking(now: Time, id: Id, b: string) returns (a: Answer)
      modifies this
      ensures (View(), a) == Cancel(old(View()), now, id, b)
      ensures a.CancelledAs? || a == ErrHoldExpired
      ensures a.CancelledAs? <==>
                && id in old(bookings) && old(bookings)[id].buyerId == b && old(bookings)[id].status == Confirmed
                && old(bookings)[id].matchId in matches && now < matches[old(bookings)[id].matchId]
      ensures a.CancelledAs? ==> var r := old(bookings)[id];
                && bookings == old(bookings)[id := a.row]
                && a.row == Booking(r.matchId, r.seatId, b, Cancelled, r.holdExpiresAt, r.confirmedAt, Some(now), r.createdAt)
                && refunds == old(refunds)[old(nextRefund) := Refund(id, Pending, now, None, None)]
                && events == old(events)[old(nextEvent) := Event("refund_requested", id, RefundId(old(nextRefund)), now, None, None)]
      ensures !a.CancelledAs? ==> View() == old(View())
      ensures old(Sane(View())) ==> Sane(View())
    {
      if !(id in bookings && bookings[id].buyerId == b && bookings[id].status == Confirmed
           && bookings[id].matchId in matches && now < matches[bookings[id].matchId]) {
        return ErrHoldExpired;
      }
      var txRow := CancelledRow(bookings[id], now);
      var refundId := nextRefund;
      nextRefund := nextRefund + 1;
      var txRefunds := refunds[refundId := Refund(id, Pending, now, None, None)];
      var eventId := nextEvent;
      nextEvent := nextEvent + 1;
      var txEvents := events[eventId := Event(REFUND_REQUESTED, id, RefundId(refundId), now, None, None)];
      bookings, refunds, events := bookings[id := txRow], txRefunds, txEvents;
      a := CancelledAs(txRow);
    }

    /** SweepExpiredHolds (invariants.go:22-36) with no other worker's locks to skip: it reports how many
        holds it expired. */
    method SweepExpiredHolds(now: Time, limit: nat) returns (n: nat, ghost batch: set<Id>)
      modifies this
      ensures IsSweepBatch(old(bookings), now, limit, batch) && n == |batch|
      ensures View() == Sweep(old(View()), now, batch)
      ensures forall i :: i in batch ==>
                i in old(bookings) && old(bookings)[i].status == Held
                && old(bookings)[i].holdExpiresAt.Some? && old(bookings)[i].holdExpiresAt.value < now
      ensures |batch| < limit ==>
                forall i | i in old(bookings) && old(bookings)[i].status == Held && old(bookings)[i].holdExpiresAt.Some? ::
                  old(bookings)[i].holdExpiresAt.value < now ==> i in batch
      ensures forall i, j | i in batch && j in old(bookings) && j !in batch && old(bookings)[j].status == Held && old(bookings)[j].holdExpiresAt.Some? ::
                old(bookings)[j].holdExpiresAt.value < now ==>
                old(bookings)[i].holdExpiresAt.value <= old(bookings)[j].holdExpiresAt.value
      ensures bookings.Keys == old(bookings).Keys
      ensures forall i :: i in old(bookings) ==>
                bookings[i] == if i in batch then old(bookings)[i].(status := Expired) else old(bookings)[i]
      ensures old(Sane(View())) ==> Sane(View())
    {
      var picked := PickSweepBatch(bookings, now, limit);
      n, batch := |picked|, picked;
      bookings := Swept(bookings, picked, now);
    }

    /** PruneIdempotencyKeys (invariants.go:46-60) with no other worker's locks to skip: it drops keys that
        are past the retention, and nothing else, and reports how many. */
    method PruneIdempotencyKeys(now: Time, retention: Time, limit: nat) returns (n: nat, ghost batch: set<string>)
      modifies this
      ensures IsPruneBatch(old(keys), now - retention, limit, batch) && n == |batch|
      ensures View() == old(View()).(db := old(View()).db.(keys := old(keys) - batch))
      ensures forall k :: k in batch ==> k in old(keys) && old(keys)[k].createdAt < now - retention
      ensures forall k, l :: k in batch && l in keys ==> old(keys)[k].createdAt <= old(keys)[l].createdAt
      ensures |batch| < limit ==> forall k :: k in keys ==> keys[k].createdAt >= now - retention
      ensures old(Sane(View())) ==> Sane(View())
    {
      var picked := PickPruneBatch(keys, now - retention, limit);
      n, batch := |picked|, picked;
      keys := keys - picked;
    }
  }
}
