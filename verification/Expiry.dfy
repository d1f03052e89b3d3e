/**
 Lazy and eager expiry cannot be told apart. Every never-confirmed row that is held past its
 TTL, expired or cancelled is collapsed to one dead value; two shops that agree after the
 collapse answer every operation alike and stay alike, and a sweep does not move a shop out of
 its class. ReleaseHold alone still tells an unswept dead hold from a swept one.
 */
module Expiry {
  import opened Options
  import opened Tables
  import opened Reads
  import opened StoreModel
  import A = Atomic

  // ---------------------------------------------------------------- the collapse

  predicate NeverSoldDead(r: Booking, now: Time) {
    || r.status == Expired
    || (r.status == Cancelled && r.confirmedAt.None?)
    || (r.status == Held && PastTtl(r, now))
  }

  datatype Face = Dead(m: string, s: string, b: string) | Shown(r: Booking)

  function FaceOf(r: Booking, now: Time): Face {
    if NeverSoldDead(r, now) then Dead(r.matchId, r.seatId, r.buyerId) else Shown(r)
  }

  ghost predicate RowsAlike(bs: map<Id, Booking>, cs: map<Id, Booking>, now: Time) {
    bs.Keys == cs.Keys && forall i :: i in bs ==> FaceOf(bs[i], now) == FaceOf(cs[i], now)
  }

  /** The shops differ at most in how their dead rows are stored. */
  ghost predicate Alike(st: Shop, su: Shop, now: Time) {
    && RowsAlike(st.db.bookings, su.db.bookings, now)
    && A.Shaped(st.db.bookings) && A.Shaped(su.db.bookings)
    && su == st.(db := st.db.(bookings := su.db.bookings))
  }

  // ---------------------------------------------------------------- alike shops answer alike

  lemma AlikeLater(st: Shop, su: Shop, now: Time, later: Time)
    requires Alike(st, su, now) && now <= later
    ensures Alike(st, su, later)
  {
    forall i | i in st.db.bookings ensures FaceOf(st.db.bookings[i], later) == FaceOf(su.db.bookings[i], later) {
      assert FaceOf(st.db.bookings[i], now) == FaceOf(su.db.bookings[i], now);
    }
  }

  lemma LookupAlike(st: Shop, su: Shop, now: Time, m: string, s: string, b: string, key: string)
    requires Alike(st, su, now)
    ensures Lookup(st.db, now, m, s, b, key) == Lookup(su.db, now, m, s, b, key)
    ensures Lookup(st.db, now, m, s, b, key).LiveRow? ==>
              var id := Lookup(st.db, now, m, s, b, key).id;
              id in st.db.bookings && id in su.db.bookings && st.db.bookings[id] == su.db.bookings[id]
  {
    if key in st.db.keys && st.db.keys[key].bookingId in st.db.bookings {
      var id := st.db.keys[key].bookingId;
      assert FaceOf(st.db.bookings[id], now) == FaceOf(su.db.bookings[id], now);
    }
  }

  lemma BlockedAlike(bs: map<Id, Booking>, cs: map<Id, Booking>, m: string, s: string, now: Time)
    requires RowsAlike(bs, cs, now) && Blocked(bs, m, s, now)
    ensures Blocked(cs, m, s, now)
  {
    var i :| i in bs && ActiveAt(bs[i], m, s) && !StaleHold(bs[i], m, s, now);
    assert FaceOf(bs[i], now) == FaceOf(cs[i], now);
    assert ActiveAt(cs[i], m, s) && !StaleHold(cs[i], m, s, now);
  }

  lemma ClearedAlike(bs: map<Id, Booking>, cs: map<Id, Booking>, m: string, s: string, b: string, now: Time)
    requires RowsAlike(bs, cs, now) && A.Shaped(bs) && A.Shaped(cs)
    ensures RowsAlike(Cleared(bs, m, s, b, now), Cleared(cs, m, s, b, now), now)
    ensures A.Shaped(Cleared(bs, m, s, b, now)) && A.Shaped(Cleared(cs, m, s, b, now))
  {
    var bs', cs' := Cleared(bs, m, s, b, now), Cleared(cs, m, s, b, now);
    forall i | i in bs' ensures FaceOf(bs'[i], now) == FaceOf(cs'[i], now) && WellShaped(bs'[i]) && WellShaped(cs'[i]) {
      assert FaceOf(bs[i], now) == FaceOf(cs[i], now) && WellShaped(bs[i]) && WellShaped(cs[i]);
    }
  }

  lemma BlockedIffAlike(bs: map<Id, Booking>, cs: map<Id, Booking>, m: string, s: string, now: Time)
    requires RowsAlike(bs, cs, now)
    ensures Blocked(bs, m, s, now) <==> Blocked(cs, m, s, now)
  {
    if Blocked(bs, m, s, now) {
      BlockedAlike(bs, cs, m, s, now);
    }
    if Blocked(cs, m, s, now) {
      BlockedAlike(cs, bs, m, s, now);
    }
  }

  lemma GrantedAlike(st: Shop, su: Shop, now: Time, m: string, s: string, b: string, ttl: int, key: string)
    requires Alike(st, su, now)
    ensures Alike(Granted(st, now, m, s, b, ttl, key), Granted(su, now, m, s, b, ttl, key), now)
  {
    ClearedAlike(st.db.bookings, su.db.bookings, m, s, b, now);
  }

  predicate Grants(st: Shop, now: Time, m: string, s: string, b: string, key: string) {
    && (key != "" ==> Lookup(st.db, now, m, s, b, key).Miss? || Lookup(st.db, now, m, s, b, key).DeadRow?)
    && !Blocked(st.db.bookings, m, s, now) && SeatExists(st.db, m, s)
  }

  lemma GrantingPlace(st: Shop, now: Time, m: string, s: string, b: string, ttl: int, key: string)
    requires Grants(st, now, m, s, b, key)
    ensures Place(st, now, m, s, b, ttl, key) == (Granted(st, now, m, s, b, ttl, key), Placed(st.nextId, HeldRow(m, s, b, now, ttl)))
  {
  }

  /** Without a grant, nothing but the identity sequence may change. */
  lemma RefusingAlike(st: Shop, su: Shop, now: Time, m: string, s: string, b: string, ttl: int, key: string)
    requires Alike(st, su, now) && !Grants(st, now, m, s, b, key)
    ensures Place(st, now, m, s, b, ttl, key).1 == Place(su, now, m, s, b, ttl, key).1
    ensures Alike(Place(st, now, m, s, b, ttl, key).0, Place(su, now, m, s, b, ttl, key).0, now)
  {
    LookupAlike(st, su, now, m, s, b, key);
    BlockedIffAlike(st.db.bookings, su.db.bookings, m, s, now);
    DrawnAlike(st, su, now);
  }

  lemma PlaceAlike(st: Shop, su: Shop, now: Time, m: string, s: string, b: string, ttl: int, key: string)
    requires Alike(st, su, now)
    ensures Place(st, now, m, s, b, ttl, key).1 == Place(su, now, m, s, b, ttl, key).1
    ensures Alike(Place(st, now, m, s, b, ttl, key).0, Place(su, now, m, s, b, ttl, key).0, now)
  {
    if Grants(st, now, m, s, b, key) {
      assert Grants(su, now, m, s, b, key) by {
        LookupAlike(st, su, now, m, s, b, key);
        BlockedIffAlike(st.db.bookings, su.db.bookings, m, s, now);
      }
      GrantingPlace(st, now, m, s, b, ttl, key);
      GrantingPlace(su, now, m, s, b, ttl, key);
      GrantedAlike(st, su, now, m, s, b, ttl, key);
    } else {
      RefusingAlike(st, su, now, m, s, b, ttl, key);
    }
  }

  lemma DrawnAlike(st: Shop, su: Shop, now: Time)
    requires Alike(st, su, now)
    ensures Alike(st.(nextId := st.nextId + 1), su.(nextId := su.nextId + 1), now)
  {
  }

  /** The same new row in place of two alike ones keeps the shops alike. */
  lemma SameRewriteAlike(st: Shop, su: Shop, now: Time, id: Id, r: Booking)
    requires Alike(st, su, now) && WellShaped(r)
    ensures Alike(WithBooking(st, id, r), WithBooking(su, id, r), now)
  {
  }

  lemma ConfirmAlike(st: Shop, su: Shop, now: Time, id: Id, b: string)
    requires Alike(st, su, now)
    ensures Confirm(st, now, id, b).1 == Confirm(su, now, id, b).1
    ensures Alike(Confirm(st, now, id, b).0, Confirm(su, now, id, b).0, now)
  {
    if id in st.db.bookings {
      var r, q := st.db.bookings[id], su.db.bookings[id];
      assert FaceOf(r, now) == FaceOf(q, now) && WellShaped(r) && WellShaped(q);
      if A.Confirmable(st.db.bookings, id, b, now) {
        assert q == r;
        SameRewriteAlike(st, su, now, id, ConfirmedRow(r, now));
      }
    }
  }

  lemma CancelAlike(st: Shop, su: Shop, now: Time, id: Id, b: string)
    requires Alike(st, su, now)
    ensures Cancel(st, now, id, b).1 == Cancel(su, now, id, b).1
    ensures Alike(Cancel(st, now, id, b).0, Cancel(su, now, id, b).0, now)
  {
    if id in st.db.bookings {
      assert FaceOf(st.db.bookings[id], now) == FaceOf(su.db.bookings[id], now);
      assert WellShaped(st.db.bookings[id]) && WellShaped(su.db.bookings[id]);
    }
  }

  /** Rewriting a row that is dead or becomes dead does not leave the class. */
  lemma DeadRewriteAlike(st: Shop, su: Shop, now: Time, id: Id, r: Booking)
    requires Alike(st, su, now) && id in st.db.bookings && WellShaped(r)
    requires FaceOf(r, now) == FaceOf(su.db.bookings[id], now)
    ensures Alike(WithBooking(st, id, r), su, now)
  {
  }

  lemma ReleaseDeadAlike(st: Shop, su: Shop, now: Time, id: Id, b: string)
    requires Alike(st, su, now) && id in st.db.bookings && NeverSoldDead(st.db.bookings[id], now)
    ensures Alike(Release(st, now, id, b).0, su, now)
  {
    if A.Releasable(st.db.bookings, id, b) {
      var r, q := st.db.bookings[id], su.db.bookings[id];
      assert FaceOf(r, now) == FaceOf(q, now) && WellShaped(r);
      DeadRewriteAlike(st, su, now, id, CancelledRow(r, now));
    }
  }

  lemma ReleaseLiveAlike(st: Shop, su: Shop, now: Time, id: Id, b: string)
    requires Alike(st, su, now) && (id in st.db.bookings ==> !NeverSoldDead(st.db.bookings[id], now))
    ensures Alike(Release(st, now, id, b).0, Release(su, now, id, b).0, now)
    ensures Release(st, now, id, b).1 == Release(su, now, id, b).1
  {
    if id in st.db.bookings {
      var r := st.db.bookings[id];
      assert FaceOf(r, now) == FaceOf(su.db.bookings[id], now) && WellShaped(r);
      assert su.db.bookings[id] == r;
      if A.Releasable(st.db.bookings, id, b) {
        SameRewriteAlike(st, su, now, id, CancelledRow(r, now));
      }
    }
  }

  /** Releasing keeps shops alike, and answers alike unless the hold is dead. */
  lemma ReleaseAlike(st: Shop, su: Shop, now: Time, id: Id, b: string)
    requires Alike(st, su, now)
    ensures Alike(Release(st, now, id, b).0, Release(su, now, id, b).0, now)
    ensures !(id in st.db.bookings && NeverSoldDead(st.db.bookings[id], now)) ==>
              Release(st, now, id, b).1 == Release(su, now, id, b).1
  {
    if id in st.db.bookings && NeverSoldDead(st.db.bookings[id], now) {
      var st' := Release(st, now, id, b).0;
      ReleaseDeadAlike(st, su, now, id, b);
      AlikeSwaps(st', su, now);
      assert NeverSoldDead(su.db.bookings[id], now) by {
        assert FaceOf(st.db.bookings[id], now) == FaceOf(su.db.bookings[id], now);
      }
      ReleaseDeadAlike(su, st', now, id, b);
      AlikeSwaps(Release(su, now, id, b).0, st', now);
    } else {
      ReleaseLiveAlike(st, su, now, id, b);
    }
  }

  lemma SweepAlike(st: Shop, su: Shop, now: Time, ids: set<Id>)
    requires Alike(st, su, now)
    ensures Alike(Sweep(st, now, ids), su, now)
  {
    var bs' := Swept(st.db.bookings, ids, now);
    forall i | i in bs' ensures FaceOf(bs'[i], now) == FaceOf(su.db.bookings[i], now) && WellShaped(bs'[i]) {
      assert FaceOf(st.db.bookings[i], now) == FaceOf(su.db.bookings[i], now) && WellShaped(st.db.bookings[i]);
    }
  }

  lemma LiveRowsAlike(bs: map<Id, Booking>, cs: map<Id, Booking>, now: Time, i: Id)
    requires RowsAlike(bs, cs, now) && i in bs
    ensures i in cs && (Live(bs[i], now) || Live(cs[i], now) ==> bs[i] == cs[i])
  {
    assert FaceOf(bs[i], now) == FaceOf(cs[i], now);
  }

  lemma LiveAtAlike(bs: map<Id, Booking>, cs: map<Id, Booking>, now: Time, m: string, s: string)
    requires RowsAlike(bs, cs, now)
    ensures LiveAt(bs, m, s, now) <==> LiveAt(cs, m, s, now)
  {
    if i :| i in bs && bs[i].matchId == m && bs[i].seatId == s && Live(bs[i], now) {
      LiveRowsAlike(bs, cs, now, i);
      assert i in cs && cs[i].matchId == m && cs[i].seatId == s && Live(cs[i], now);
    }
    if i :| i in cs && cs[i].matchId == m && cs[i].seatId == s && Live(cs[i], now) {
      LiveRowsAlike(bs, cs, now, i);
      assert i in bs && bs[i].matchId == m && bs[i].seatId == s && Live(bs[i], now);
    }
  }

  lemma SeatMapSub(st: Shop, su: Shop, now: Time, m: string)
    requires Alike(st, su, now)
    ensures SeatMap(st.db, now, m) <= SeatMap(su.db, now, m)
  {
    forall x | x in SeatMap(st.db, now, m) ensures x in SeatMap(su.db, now, m) {
      LiveAtAlike(st.db.bookings, su.db.bookings, now, m, x.seatId);
      forall i | i in st.db.bookings { LiveRowsAlike(st.db.bookings, su.db.bookings, now, i); }
    }
  }

  lemma AlikeSwaps(st: Shop, su: Shop, now: Time)
    requires Alike(st, su, now)
    ensures Alike(su, st, now)
  {
  }

  lemma SeatMapAlike(st: Shop, su: Shop, now: Time, m: string)
    requires Alike(st, su, now)
    ensures SeatMap(st.db, now, m) == SeatMap(su.db, now, m)
  {
    SeatMapSub(st, su, now, m);
    AlikeSwaps(st, su, now);
    SeatMapSub(su, st, now, m);
  }

  lemma HistoryAlike(st: Shop, su: Shop, now: Time, m: string, b: string)
    requires Alike(st, su, now)
    ensures HistoryOf(st.db, m, b) == HistoryOf(su.db, m, b)
  {
    forall i | i in st.db.bookings
      ensures Listed(st.db.bookings[i], m, b) || Listed(su.db.bookings[i], m, b) ==> st.db.bookings[i] == su.db.bookings[i]
    {
      assert FaceOf(st.db.bookings[i], now) == FaceOf(su.db.bookings[i], now);
      assert WellShaped(st.db.bookings[i]) && WellShaped(su.db.bookings[i]);
    }
    assert forall i :: i in st.db.bookings <==> i in su.db.bookings;
  }

  // ---------------------------------------------------------------- whole runs

  datatype Op =
    | PlaceHold(m: string, s: string, b: string, ttl: int, key: string)
    | ConfirmHold(id: Id, b: string)
    | ReleaseHold(id: Id, b: string)
    | CancelBooking(id: Id, b: string)
    | ListSeats(m: string)
    | ListBookings(m: string, b: string)
    | SweepHolds(batch: set<Id>)

  datatype Timed = Timed(now: Time, op: Op)

  datatype Observation =
    | Answered(a: Answer)
    | SeatsShown(seats: set<SeatLine>)
    | HistoryShown(bookings: set<HistoryLine>)

  function After(st: Shop, c: Timed): Shop {
    match c.op
    case PlaceHold(m, s, b, ttl, key) => Place(st, c.now, m, s, b, ttl, key).0
    case ConfirmHold(id, b) => Confirm(st, c.now, id, b).0
    case ReleaseHold(id, b) => Release(st, c.now, id, b).0
    case CancelBooking(id, b) => Cancel(st, c.now, id, b).0
    case ListSeats(_) => st
    case ListBookings(_, _) => st
    case SweepHolds(batch) => Sweep(st, c.now, batch)
  }

  /** What a client sees of a call; ReleaseHold's answer is left out, and nobody sees a sweep. */
  ghost function Observed(st: Shop, c: Timed): seq<Observation> {
    match c.op
    case PlaceHold(m, s, b, ttl, key) => [Answered(Place(st, c.now, m, s, b, ttl, key).1)]
    case ConfirmHold(id, b) => [Answered(Confirm(st, c.now, id, b).1)]
    case ReleaseHold(_, _) => []
    case CancelBooking(id, b) => [Answered(Cancel(st, c.now, id, b).1)]
    case ListSeats(m) => [SeatsShown(SeatMap(st.db, c.now, m))]
    case ListBookings(m, b) => [HistoryShown(HistoryOf(st.db, m, b))]
    case SweepHolds(_) => []
  }

  ghost function Transcript(st: Shop, cs: seq<Timed>): seq<Observation>
    decreases cs
  {
    if cs == [] then [] else Observed(st, cs[0]) + Transcript(After(st, cs[0]), cs[1..])
  }

  function WithoutSweeps(cs: seq<Timed>): seq<Timed> {
    if cs == [] then []
    else (if cs[0].op.SweepHolds? then [] else [cs[0]]) + WithoutSweeps(cs[1..])
  }

  /** Calls in clock order, none before `since`. */
  ghost predicate Ordered(cs: seq<Timed>, since: Time) {
    cs != [] ==> since <= cs[0].now && Ordered(cs[1..], cs[0].now)
  }

  lemma CallAlike(st: Shop, su: Shop, c: Timed)
    requires Alike(st, su, c.now) && !c.op.SweepHolds?
    ensures Observed(st, c) == Observed(su, c)
    ensures Alike(After(st, c), After(su, c), c.now)
  {
    match c.op
    case PlaceHold(m, s, b, ttl, key) => PlaceAlike(st, su, c.now, m, s, b, ttl, key);
    case ConfirmHold(id, b) => ConfirmAlike(st, su, c.now, id, b);
    case ReleaseHold(id, b) => ReleaseAlike(st, su, c.now, id, b);
    case CancelBooking(id, b) => CancelAlike(st, su, c.now, id, b);
    case ListSeats(m) => SeatMapAlike(st, su, c.now, m);
    case ListBookings(m, b) => HistoryAlike(st, su, c.now, m, b);
  }

  lemma {:induction false} TranscriptsAgree(st: Shop, su: Shop, cs: seq<Timed>, since: Time)
    requires Alike(st, su, since) && Ordered(cs, since)
    ensures Transcript(st, cs) == Transcript(su, WithoutSweeps(cs))
    decreases cs
  {
    if cs != [] {
      var c, rest := cs[0], cs[1..];
      AlikeLater(st, su, since, c.now);
      if c.op.SweepHolds? {
        SweepAlike(st, su, c.now, c.op.batch);
        TranscriptsAgree(After(st, c), su, rest, c.now);
        assert WithoutSweeps(cs) == WithoutSweeps(rest);
      } else {
        CallAlike(st, su, c);
        TranscriptsAgree(After(st, c), After(su, c), rest, c.now);
        assert WithoutSweeps(cs) == [c] + WithoutSweeps(rest);
        assert WithoutSweeps(cs)[1..] == WithoutSweeps(rest);
      }
    }
  }

  /** Deleting every sweep from any run, whatever batches the sweeps took, changes nothing that
      PlaceHold, ConfirmHold, CancelBooking, ListSeats or ListBookings answer. */
  lemma SweepsAreUnobservable(st: Shop, cs: seq<Timed>, since: Time)
    requires A.Shaped(st.db.bookings) && Ordered(cs, since)
    ensures Transcript(st, cs) == Transcript(st, WithoutSweeps(cs))
  {
    TranscriptsAgree(st, st, cs, since);
  }

  /** The exception: ReleaseHold tells a swept hold from an unswept one exactly when the sweep took
      the very row, which was held past its TTL by this buyer. */
  lemma ReleaseTellsSweptHolds(st: Shop, now: Time, ids: set<Id>, id: Id, b: string)
    ensures Release(Sweep(st, now, ids), now, id, b).1 != Release(st, now, id, b).1
            <==> id in ids && A.Releasable(st.db.bookings, id, b) && PastTtl(st.db.bookings[id], now)
  {
  }

  // ---------------------------------------------------------------- the instant of expiry

  /** A seat that a hold occupies reads as available while a new hold is refused exactly at the
      microsecond the hold expires: liveness is `> now()`, reclaiming is `< now()`. */
  lemma AvailableButRefusedIff(bs: map<Id, Booking>, i: Id, now: Time)
    requires SeatUnique(bs) && i in bs && WellShaped(bs[i]) && bs[i].status == Held
    ensures var m, s := bs[i].matchId, bs[i].seatId;
            !LiveAt(bs, m, s, now) && Blocked(bs, m, s, now) <==> bs[i].holdExpiresAt == Some(now)
  {
    var m, s := bs[i].matchId, bs[i].seatId;
    assert ActiveAt(bs[i], m, s);
    forall j | j in bs && j != i ensures !ActiveAt(bs[j], m, s) {
    }
  }
}
